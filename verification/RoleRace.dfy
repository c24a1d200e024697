/** What the policy fence is for, where role graphs are concerned: two
    replacements side by side, each of an acyclic list, can store a cycle. */
module RoleRace {
  import opened RoleGraph
  import opened Replication

  const UP := [("a", "b")]
  const DOWN := [("b", "a")]

  /** Two replacements side by side: the second deletes before the first inserts. */
  const RACE: seq<Step> := [CreateTenant("t"), BeginReplace(1, "t", UP), BeginReplace(2, "t", DOWN), CommitReplace(1),
                 CommitReplace(2), Fetch(0, 0, "t", 0, [], UP + DOWN)]

  const BORN := [RoleRow(("a", "b"), 2)]
  const UNION := [RoleRow(("a", "b"), 2), RoleRow(("b", "a"), 3)]
  const FIRST := Replacing("t", 1, UP)
  const SECOND := Replacing("t", 1, DOWN)

  function RaceState(k: nat): State {
    var none := TenantRow(map[], [], 1);
    var one := TenantRow(map[], BORN, 2);
    var two := TenantRow(map[], UNION, 3);
    var h1 := map[("t", 1) := ActiveBundle(none)];
    var h2 := h1[("t", 2) := ActiveBundle(one)];
    var h3 := h2[("t", 3) := ActiveBundle(two)];
    if k == 0 then State(false, map[], map[], map[], map[], map[])
    else if k == 1 then State(false, map["t" := none], h1, map[], map[], map[])
    else if k == 2 then State(false, map["t" := none], h1, map[1 := FIRST], map[], map[])
    else if k == 3 then State(false, map["t" := none], h1, map[1 := FIRST, 2 := SECOND], map[], map[])
    else if k == 4 then State(false, map["t" := one], h2, map[2 := SECOND], map[], map[])
    else if k == 5 then State(false, map["t" := two], h3, map[], map[], map[])
    else State(false, map["t" := two], h3, map[], map[0 := Fetched(0, "t", 0, Snapshot([], UP + DOWN, 3))], map[])
  }

  lemma OneEdgeIsAcyclic(a: Role, b: Role)
    requires a != b
    ensures Acyclic(Of([(a, b)]))
  {
    var g := Of([(a, b)]);
    forall x, y ensures Edge(g, x, y) <==> x == a && y == b {
      EdgesOf([(a, b)], x, y);
    }
    assert [b, a][..1] == [b];
    assert g.Keys <= set r | r in [b, a] by {
      assert Of([(a, b)][..0]) == map[];
    }
    FinishedIsAcyclic(g, [b, a]);
  }

  lemma UnionCycles()
    ensures !Buildable(UP + DOWN)
  {
    var edges := UP + DOWN;
    assert edges[..1] == UP;
    EdgesOf(UP, "a", "b");
    StarEdge(Of(UP), "a", "b");
    assert edges[1] == ("b", "a");
  }

  const STATES := seq(7, k requires 0 <= k < 7 => RaceState(k))

  lemma FirstCommits()
    ensures Replaced(TenantRow(map[], [], 1), FIRST) == TenantRow(map[], BORN, 2)
  {
    assert Survivors([], 1) + Inserted(UP, 2) == BORN;
  }

  lemma SecondCommits()
    ensures Survivors(BORN, 1) == BORN
    ensures Replaced(TenantRow(map[], BORN, 2), SECOND) == TenantRow(map[], UNION, 3)
  {
    assert Survivors(BORN, 1) == [BORN[0]] + Survivors(BORN[1..], 1);
    assert Survivors(BORN, 1) + Inserted(DOWN, 3) == UNION;
  }

  lemma Begins(compiles: seq<Source> -> bool, k: nat)
    requires k < 3
    ensures Enabled(RaceState(k), RACE[k]) && RaceState(k + 1) == Apply(compiles, RaceState(k), RACE[k])
  {
    hide Acyclic;
    hide Of;
    OneEdgeIsAcyclic("a", "b");
    OneEdgeIsAcyclic("b", "a");
  }

  lemma CommitsFirst(compiles: seq<Source> -> bool)
    ensures Enabled(RaceState(3), RACE[3]) && RaceState(4) == Apply(compiles, RaceState(3), RACE[3])
  {
    FirstCommits();
    assert Survivors([], 1) == [];
    hide ActiveBundle;
  }

  lemma CommitsSecond(compiles: seq<Source> -> bool)
    ensures Enabled(RaceState(4), RACE[4]) && RaceState(5) == Apply(compiles, RaceState(4), RACE[4])
  {
    SecondCommits();
    assert Edges(BORN) == UP;
    hide ActiveBundle;
  }

  lemma Fetches(compiles: seq<Source> -> bool)
    ensures Enabled(RaceState(5), RACE[5]) && RaceState(6) == Apply(compiles, RaceState(5), RACE[5])
  {
    var b := ActiveBundle(TenantRow(map[], UNION, 3));
    assert b.policies == map[];
    assert Edges(UNION) == UP + DOWN;
  }

  lemma RaceIsRun(compiles: seq<Source> -> bool)
    ensures IsRun(compiles, STATES, RACE)
  {
    hide Enabled;
    hide Apply;
    hide RaceState;
    forall k | 0 <= k < 6 ensures Enabled(STATES[k], RACE[k]) && STATES[k + 1] == Apply(compiles, STATES[k], RACE[k]) {
      if k < 3 { Begins(compiles, k); }
      else if k == 3 { CommitsFirst(compiles); }
      else if k == 4 { CommitsSecond(compiles); }
      else { Fetches(compiles); }
    }
    assert Init(STATES[0]) by { Starts(); }
  }

  lemma Starts()
    ensures Init(RaceState(0))
  {
  }

  ghost predicate RolesBuild(states: seq<State>) {
    forall j, w :: 0 <= j < |states| && w in states[j].fetches ==> Buildable(states[j].fetches[w].snapshot.roles)
  }

  /** Every fetched role graph builds, in every run, if and only if the writers
      share a fence. */
  lemma RolesBuildIffFenced(compiles: seq<Source> -> bool, fenced: bool)
    ensures fenced <==> forall states: seq<State>, steps |
                          IsRun(compiles, states, steps) && states[0].fenced == fenced :: RolesBuild(states)
  {
    hide Buildable;
    hide Enabled;
    hide Apply;
    if fenced {
      forall states: seq<State>, steps | IsRun(compiles, states, steps) && states[0].fenced
        ensures RolesBuild(states)
      {
        forall j: nat, w | j < |states| && w in states[j].fetches
          ensures Buildable(states[j].fetches[w].snapshot.roles)
        {
          FetchedRolesBuild(compiles, states, steps, j, w);
        }
      }
    } else {
      RaceIsRun(compiles);
      UnionCycles();
      assert 0 in STATES[6].fetches && STATES[6].fetches[0].snapshot.roles == UP + DOWN;
    }
  }
}
