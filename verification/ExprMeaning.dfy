/** What conditions mean, in terms of the request's own texts, numbers and roles:
    together these laws fix the value of every condition. */
module ExprMeaning {
  import opened Basics
  import opened AddressText
  import opened Expr
  import opened RoleGraph
  import opened PolicyTrie
  import Decision
  import RoleDag

  // ---------------------------------------------------------------- attributes

  /** The request carries this text under the name that the condition writes. */
  predicate Carries(rq: Request, scope: Scope, field: string, text: string) {
    match scope
    case Principal => field != "id" && Under(rq, "principal." + field, text)
    case Resource => field != "id" && Under(rq, "resource." + field, text)
    case Context => Under(rq, field, text) || (field !in rq.attributes && Under(rq, "context." + field, text))
  }

  predicate Under(rq: Request, key: string, text: string) {
    key in rq.attributes && rq.attributes[key] == text
  }

  /** The text that the attribute is, identity fields included. */
  predicate Named(rq: Request, scope: Scope, field: string, text: string) {
    || Carries(rq, scope, field, text)
    || (scope.Principal? && field == "id" && text == rq.subject)
    || (scope.Resource? && field == "id" && text == rq.resource)
  }

  /** It carries none: identity fields are always there. */
  predicate Lacks(rq: Request, scope: Scope, field: string) {
    match scope
    case Principal => field != "id" && "principal." + field !in rq.attributes
    case Resource => field != "id" && "resource." + field !in rq.attributes
    case Context => field !in rq.attributes && "context." + field !in rq.attributes
  }

  /** An attribute by itself is its text; `principal.id` and `resource.id` are the
      request's, whatever the attributes say. */
  lemma VariableMeans(lib: Library, rq: Request, scope: Scope, field: string)
    ensures forall text | Carries(rq, scope, field, text) :: Eval(lib, rq, Var(scope, field)) == Yields(Str(text))
    ensures Lacks(rq, scope, field) ==> Eval(lib, rq, Var(scope, field)) == Fails(Missing)
    ensures Eval(lib, rq, Var(Principal, "id")) == Yields(Str(rq.subject))
    ensures Eval(lib, rq, Var(Resource, "id")) == Yields(Str(rq.resource))
  {
  }

  // ---------------------------------------------------------------- the orders

  /** The texts agree up to their first difference, where the first has ended or
      has the smaller character. */
  ghost predicate Before(s: string, t: string) {
    exists k: nat :: BeforeAt(s, t, k)
  }

  predicate BeforeAt(s: string, t: string, k: nat) {
    && k <= |s| && k < |t| && s[..k] == t[..k]
    && (k == |s| || s[k] < t[k])
  }

  lemma {:induction false} TextOrder(s: string, t: string)
    ensures Compare(s, t) < 0 <==> Before(s, t)
    ensures Compare(s, t) > 0 <==> Before(t, s)
    ensures Compare(s, t) == 0 <==> s == t
    decreases |s|
  {
    if s != [] && t != [] && s[0] == t[0] {
      TextOrder(s[1..], t[1..]);
      BeforeTails(s, t);
      BeforeTails(t, s);
      assert s == [s[0]] + s[1..] && t == [t[0]] + t[1..];
    } else {
      Apart(s, t);
      Apart(t, s);
    }
  }

  lemma BeforeTails(s: string, t: string)
    requires s != [] && t != [] && s[0] == t[0]
    ensures Before(s, t) <==> Before(s[1..], t[1..])
  {
    if k: nat :| BeforeAt(s, t, k) {
      assert k > 0 && s[1..][..k - 1] == s[..k][1..] && t[1..][..k - 1] == t[..k][1..];
      assert BeforeAt(s[1..], t[1..], k - 1);
    }
    if k: nat :| BeforeAt(s[1..], t[1..], k) {
      assert s[..k + 1] == [s[0]] + s[1..][..k] && t[..k + 1] == [t[0]] + t[1..][..k];
      assert BeforeAt(s, t, k + 1);
    }
  }

  /** Texts that differ at once are ordered there. */
  lemma Apart(s: string, t: string)
    requires s == [] || t == [] || s[0] != t[0]
    ensures Before(s, t) <==> t != [] && (s == [] || s[0] < t[0])
  {
    if t != [] && (s == [] || s[0] < t[0]) { assert BeforeAt(s, t, 0); }
    forall k: nat | k > 0 ensures !BeforeAt(s, t, k) {
      if k <= |s| && k < |t| { assert s[..k][0] == s[0] && t[..k][0] == t[0]; }
    }
  }

  // --------------------------------------------------------------- comparisons

  function Answer(b: bool): Outcome {
    Yields(Bool(b))
  }

  /** The six comparisons of numbers. */
  ghost predicate NumbersCompare(lib: Library, rq: Request, l: Expr, r: Expr, m: int, n: int) {
    && Eval(lib, rq, Bin(Eq, l, r)) == Answer(m == n)
    && Eval(lib, rq, Bin(Ne, l, r)) == Answer(m != n)
    && Eval(lib, rq, Bin(Gt, l, r)) == Answer(m > n)
    && Eval(lib, rq, Bin(Lt, l, r)) == Answer(m < n)
    && Eval(lib, rq, Bin(Ge, l, r)) == Answer(m >= n)
    && Eval(lib, rq, Bin(Le, l, r)) == Answer(m <= n)
  }

  /** The six comparisons of texts. */
  ghost predicate TextsCompare(lib: Library, rq: Request, l: Expr, r: Expr, s: string, t: string) {
    && Eval(lib, rq, Bin(Eq, l, r)) == Answer(s == t)
    && Eval(lib, rq, Bin(Ne, l, r)) == Answer(s != t)
    && Eval(lib, rq, Bin(Gt, l, r)) == Answer(Before(t, s))
    && Eval(lib, rq, Bin(Lt, l, r)) == Answer(Before(s, t))
    && Eval(lib, rq, Bin(Ge, l, r)) == Answer(s == t || Before(t, s))
    && Eval(lib, rq, Bin(Le, l, r)) == Answer(s == t || Before(s, t))
  }

  /** How a comparison of `l` with `r` comes out for values `x` and `y`. */
  ghost predicate Compares(lib: Library, rq: Request, l: Expr, r: Expr, x: Value, y: Value) {
    forall op: Op | !op.And? && !op.Or? :: Eval(lib, rq, Bin(op, l, r)) == Relate(lib, rq, op, x, y)
  }

  lemma NumbersRelate(lib: Library, rq: Request, l: Expr, r: Expr, m: Int64, n: Int64)
    requires Compares(lib, rq, l, r, Int(m), Int(n)) || Compares(lib, rq, l, r, Time(m), Time(n))
    ensures NumbersCompare(lib, rq, l, r, m, n)
  {
    hide Eval;
  }

  lemma TextsRelate(lib: Library, rq: Request, l: Expr, r: Expr, x: string, y: string)
    requires Compares(lib, rq, l, r, Str(x), Str(y))
    ensures TextsCompare(lib, rq, l, r, x, y)
    ensures Eval(lib, rq, Bin(Contains, l, r)) == Answer(lib.listed(x, y))
  {
    hide Eval;
    hide Compare;
    hide Before;
    TextOrder(x, y);
  }

  lemma PartsCompare(lib: Library, rq: Request, l: Expr, r: Expr, x: Value, y: Value)
    requires !l.Var? && Eval(lib, rq, l) == Yields(x) && Eval(lib, rq, r) == Yields(y)
    ensures Compares(lib, rq, l, r, x, y)
  {
    hide Relate;
  }

  /** A comparison of two parts that are no attributes looks at their values. */
  lemma ValuesCompare(lib: Library, rq: Request, l: Expr, r: Expr, x: Value, y: Value)
    requires !l.Var? && Eval(lib, rq, l) == Yields(x) && Eval(lib, rq, r) == Yields(y)
    ensures x.Int? && y.Int? ==> NumbersCompare(lib, rq, l, r, x.number, y.number)
    ensures x.Time? && y.Time? ==> NumbersCompare(lib, rq, l, r, x.instant, y.instant)
    ensures x.Str? && y.Str? ==> TextsCompare(lib, rq, l, r, x.text, y.text)
    ensures x.Str? && y.Str? ==> Eval(lib, rq, Bin(Contains, l, r)) == Answer(lib.listed(x.text, y.text))
    ensures x.Bool? && y.Bool? ==>
              && Eval(lib, rq, Bin(Eq, l, r)) == Answer(x.flag == y.flag)
              && Eval(lib, rq, Bin(Ne, l, r)) == Answer(x.flag != y.flag)
    ensures x.Ip? && y.Ip? ==>
              && Eval(lib, rq, Bin(Eq, l, r)) == Answer(lib.sameIp(x.address, y.address))
              && Eval(lib, rq, Bin(Ne, l, r)) == Answer(!lib.sameIp(x.address, y.address))
    ensures x.Ip? && y.Net? ==> Eval(lib, rq, Bin(In, l, r)) == Answer(lib.covers(y.network, x.address))
  {
    PartsCompare(lib, rq, l, r, x, y);
    hide Eval;
    hide NumbersCompare;
    hide TextsCompare;
    if x.Int? && y.Int? { NumbersRelate(lib, rq, l, r, x.number, y.number); }
    if x.Time? && y.Time? { NumbersRelate(lib, rq, l, r, x.instant, y.instant); }
    if x.Str? && y.Str? { TextsRelate(lib, rq, l, r, x.text, y.text); }
  }

  /** Values of different kinds are unequal and have no order. */
  lemma KindsDiffer(lib: Library, rq: Request, l: Expr, r: Expr, x: Value, y: Value, op: Op)
    requires !l.Var? && Eval(lib, rq, l) == Yields(x) && Eval(lib, rq, r) == Yields(y) && TypeOf(x) != TypeOf(y)
    ensures op.Eq? ==> Eval(lib, rq, Bin(op, l, r)) == Answer(false)
    ensures op.Ne? ==> Eval(lib, rq, Bin(op, l, r)) == Answer(true)
    ensures op in {Gt, Lt, Ge, Le, Contains} ==> Eval(lib, rq, Bin(op, l, r)) == Fails(Unsupported)
    ensures op.In? && !(x.Ip? && y.Net?) ==> Eval(lib, rq, Bin(op, l, r)) == Fails(Unsupported)
  {
  }

  lemma AttributeReads(lib: Library, rq: Request, scope: Scope, field: string, text: string, r: Expr, x: Value)
    requires Carries(rq, scope, field, text) && r.Lit? && !r.value.Net? && ReadAs(lib, text, TypeOf(r.value)) == Yields(x)
    ensures Compares(lib, rq, Var(scope, field), r, x, r.value)
  {
    hide Relate;
    hide ReadAs;
    assert Attribute(lib, rq, scope, field, TypeOf(r.value)) == Yields(x);
    hide Attribute;
    forall op: Op | !op.And? && !op.Or?
      ensures Eval(lib, rq, Bin(op, Var(scope, field), r)) == Relate(lib, rq, op, x, r.value)
    {
      assert Expected(op, r) == TypeOf(r.value);
      assert Eval(lib, rq, r) == Yields(r.value);
    }
  }

  /** An attribute compared with a literal is read as the literal's kind. */
  lemma AttributeCompares(lib: Library, rq: Request, scope: Scope, field: string, text: string, r: Expr)
    requires Carries(rq, scope, field, text) && r.Lit?
    ensures r.value.Int? && lib.parseInt(text).Some? ==>
              NumbersCompare(lib, rq, Var(scope, field), r, lib.parseInt(text).value, r.value.number)
    ensures r.value.Time? && lib.readTime(text).Some? ==>
              NumbersCompare(lib, rq, Var(scope, field), r, lib.readTime(text).value, r.value.instant)
    ensures r.value.Str? ==> TextsCompare(lib, rq, Var(scope, field), r, text, r.value.text)
    ensures r.value.Str? ==> Eval(lib, rq, Bin(Contains, Var(scope, field), r)) == Answer(lib.listed(text, r.value.text))
    ensures r.value.Bool? && lib.parseBool(text).Some? ==>
              && Eval(lib, rq, Bin(Eq, Var(scope, field), r)) == Answer(lib.parseBool(text).value == r.value.flag)
              && Eval(lib, rq, Bin(Ne, Var(scope, field), r)) == Answer(lib.parseBool(text).value != r.value.flag)
  {
    hide Eval;
    hide NumbersCompare;
    hide TextsCompare;
    match r.value
    case Int(n) =>
      if lib.parseInt(text).Some? {
        AttributeReads(lib, rq, scope, field, text, r, Int(lib.parseInt(text).value));
        NumbersRelate(lib, rq, Var(scope, field), r, lib.parseInt(text).value, n);
      }
    case Time(n) =>
      if lib.readTime(text).Some? {
        AttributeReads(lib, rq, scope, field, text, r, Time(lib.readTime(text).value));
        NumbersRelate(lib, rq, Var(scope, field), r, lib.readTime(text).value, n);
      }
    case Str(t) =>
      AttributeReads(lib, rq, scope, field, text, r, Str(text));
      TextsRelate(lib, rq, Var(scope, field), r, text, t);
    case Bool(_) =>
      if lib.parseBool(text).Some? { AttributeReads(lib, rq, scope, field, text, r, Bool(lib.parseBool(text).value)); }
    case _ =>
  }

  /** Beside a text, or anything that is no literal, an attribute is its text. */
  lemma NameCompares(lib: Library, rq: Request, scope: Scope, field: string, text: string, r: Expr, t: string)
    requires Named(rq, scope, field, text) && Eval(lib, rq, r) == Yields(Str(t))
    ensures Compares(lib, rq, Var(scope, field), r, Str(text), Str(t))
    ensures TextsCompare(lib, rq, Var(scope, field), r, text, t)
    ensures Eval(lib, rq, Bin(Contains, Var(scope, field), r)) == Answer(lib.listed(text, t))
  {
    assert Attribute(lib, rq, scope, field, StringType) == Yields(Str(text));
    hide Attribute;
    forall op: Op | !op.And? && !op.Or?
      ensures Eval(lib, rq, Bin(op, Var(scope, field), r)) == Relate(lib, rq, op, Str(text), Str(t))
    {
      hide Relate;
      assert Expected(op, r) == StringType;
    }
    TextsRelate(lib, rq, Var(scope, field), r, text, t);
    hide TextsCompare;
  }

  /** An attribute read as an address: equal to another, or within a network. */
  lemma AddressCompares(lib: Library, rq: Request, scope: Scope, field: string, text: string, r: Expr)
    requires Carries(rq, scope, field, text) && r.Lit? && ReadIp(lib.parseIp, text).Some?
    ensures r.value.Net? ==>
              Eval(lib, rq, Bin(In, Var(scope, field), r))
                == Answer(lib.covers(r.value.network, ReadIp(lib.parseIp, text).value))
    ensures r.value.Ip? ==>
              Eval(lib, rq, Bin(Eq, Var(scope, field), r))
                == Answer(lib.sameIp(ReadIp(lib.parseIp, text).value, r.value.address))
  {
    hide ReadIp;
  }

  /** A comparison with a part that fails is false: an attribute that is missing,
      or whose text does not read as the literal's kind, satisfies none. */
  lemma ComparisonFailsClosed(lib: Library, rq: Request, op: Op, l: Expr, r: Expr)
    requires !op.And? && !op.Or?
    ensures !l.Var? && Eval(lib, rq, l).Fails? ==> Eval(lib, rq, Bin(op, l, r)) == Answer(false)
    ensures Eval(lib, rq, r).Fails? ==> Eval(lib, rq, Bin(op, l, r)) == Answer(false)
    ensures l.Var? && Lacks(rq, l.scope, l.field) ==> Eval(lib, rq, Bin(op, l, r)) == Answer(false)
    ensures l.Var? && r.Lit? ==> forall text | Carries(rq, l.scope, l.field, text) ::
              || (r.value.Int? && lib.parseInt(text).None?) || (r.value.Time? && lib.readTime(text).None?)
              || (r.value.Bool? && lib.parseBool(text).None?)
              ==> Eval(lib, rq, Bin(op, l, r)) == Answer(false)
  {
    hide ReadIp;
    hide Relate;
  }

  // --------------------------------------------------------------------- roles

  /** `x in y` on texts is a path from one role to the other, with or without the
      prefix `role:` on either side. */
  lemma MembershipMeans(lib: Library, dag: RoleDag.RoleDag, subject: string, resource: string,
                        attributes: map<string, string>, l: Expr, r: Expr, x: string, y: string, a: Role, b: Role)
    requires dag.Valid() && !l.Var?
    requires var rq := Decision.RequestFor(dag, subject, resource, attributes);
      Eval(lib, rq, l) == Yields(Str(x)) && Eval(lib, rq, r) == Yields(Str(y))
    requires x == "role:" + a || (x == a && !("role:" <= x))
    requires y == "role:" + b || (y == b && !("role:" <= y))
    ensures Eval(lib, Decision.RequestFor(dag, subject, resource, attributes), Bin(In, l, r)) == Answer(Star(dag.adj, a, b))
  {
    Decision.RequestSeesRoles(dag, subject, resource, attributes);
    assert TrimRole(x) == a && TrimRole(y) == b;
  }

  /** The same for an attribute on the left, such as `principal.id`. */
  lemma AttributeMembership(lib: Library, dag: RoleDag.RoleDag, subject: string, resource: string,
                            attributes: map<string, string>, scope: Scope, field: string, r: Expr, x: string, y: string,
                            a: Role, b: Role)
    requires dag.Valid()
    requires var rq := Decision.RequestFor(dag, subject, resource, attributes);
      Named(rq, scope, field, x) && Eval(lib, rq, r) == Yields(Str(y))
    requires x == "role:" + a || (x == a && !("role:" <= x))
    requires y == "role:" + b || (y == b && !("role:" <= y))
    ensures Eval(lib, Decision.RequestFor(dag, subject, resource, attributes), Bin(In, Var(scope, field), r))
         == Answer(Star(dag.adj, a, b))
  {
    var rq := Decision.RequestFor(dag, subject, resource, attributes);
    Decision.RequestSeesRoles(dag, subject, resource, attributes);
    NameCompares(lib, rq, scope, field, x, r, y);
    hide Eval;
    hide Star;
    assert TrimRole(x) == a && TrimRole(y) == b;
  }

  // --------------------------------------------------------------- connectives

  /** `&&`: a failing side makes it false, and a side that is evaluated must be a
      boolean; the right side is looked at only after true. */
  lemma AndMeans(lib: Library, rq: Request, l: Expr, r: Expr)
    ensures var x, y, z := Eval(lib, rq, l), Eval(lib, rq, r), Eval(lib, rq, Bin(And, l, r));
      && (x == Answer(true) && y == Answer(true) ==> z == Answer(true))
      && (x == Answer(true) && y == Answer(false) ==> z == Answer(false))
      && (x == Answer(true) && y.Fails? ==> z == Answer(false))
      && (x == Answer(true) && y.Yields? && !y.value.Bool? ==> z == Fails(Unsupported))
      && (x == Answer(false) ==> z == Answer(false))
      && (x.Fails? ==> z == Answer(false))
      && (x.Yields? && !x.value.Bool? ==> z == Fails(Unsupported))
  {
  }

  /** `||`: true on the left is enough; otherwise the right side decides, and a
      failing right side makes it false. */
  lemma OrMeans(lib: Library, rq: Request, l: Expr, r: Expr)
    ensures var x, y, z := Eval(lib, rq, l), Eval(lib, rq, r), Eval(lib, rq, Bin(Or, l, r));
      && (x == Answer(true) ==> z == Answer(true))
      && (x != Answer(true) && y == Answer(true) ==> z == Answer(true))
      && (x != Answer(true) && y == Answer(false) ==> z == Answer(false))
      && (x != Answer(true) && y.Fails? ==> z == Answer(false))
      && (x != Answer(true) && y.Yields? && !y.value.Bool? ==> z == Fails(Unsupported))
  {
  }

  /** `!` and `-`, and literals; the smallest 64-bit integer is its own negative. */
  lemma OthersMean(lib: Library, rq: Request, c: Expr, v: Value)
    ensures Eval(lib, rq, Lit(v)) == Yields(v)
    ensures Eval(lib, rq, c).Fails? ==> Eval(lib, rq, Not(c)) == Eval(lib, rq, c) && Eval(lib, rq, Neg(c)) == Eval(lib, rq, c)
    ensures Eval(lib, rq, c) == Answer(true) ==> Eval(lib, rq, Not(c)) == Answer(false)
    ensures Eval(lib, rq, c) == Answer(false) ==> Eval(lib, rq, Not(c)) == Answer(true)
    ensures Eval(lib, rq, c).Yields? && !Eval(lib, rq, c).value.Bool? ==> Eval(lib, rq, Not(c)) == Fails(Unsupported)
    ensures Eval(lib, rq, c).Yields? && !Eval(lib, rq, c).value.Int? ==> Eval(lib, rq, Neg(c)) == Fails(Unsupported)
    ensures Eval(lib, rq, c).Yields? && Eval(lib, rq, c).value.Int? ==>
              && Eval(lib, rq, Neg(c)).Yields? && Eval(lib, rq, Neg(c)).value.Int?
              && (Eval(lib, rq, Neg(c)).value.number + Eval(lib, rq, c).value.number) % 0x1_0000_0000_0000_0000 == 0
  {
  }

  // ------------------------------------------------------------------ policies

  /** A policy under a threshold holds exactly for requests whose attribute reads
      as a number above it. */
  lemma ThresholdHolds(lib: Library, rq: Request, p: Policy, scope: Scope, field: string, n: Int64)
    requires p.condition == Some(Bin(Gt, Var(scope, field), Lit(Int(n)))) && !p.unless && field != "id"
    ensures Decision.Satisfied(lib, rq, p) <==>
            exists text :: Carries(rq, scope, field, text) && lib.parseInt(text).Some? && lib.parseInt(text).value > n
  {
    var r := Lit(Int(n));
    if Lacks(rq, scope, field) {
      ComparisonFailsClosed(lib, rq, Gt, Var(scope, field), r);
    } else {
      var text := Text(rq, scope, field);
      OneText(rq, scope, field, text);
      if lib.parseInt(text).Some? {
        AttributeCompares(lib, rq, scope, field, text, r);
      } else {
        ComparisonFailsClosed(lib, rq, Gt, Var(scope, field), r);
      }
    }
  }

  function Text(rq: Request, scope: Scope, field: string): (text: string)
    requires field != "id" && !Lacks(rq, scope, field)
    ensures Carries(rq, scope, field, text)
  {
    match scope
    case Principal => rq.attributes["principal." + field]
    case Resource => rq.attributes["resource." + field]
    case Context => if field in rq.attributes then rq.attributes[field] else rq.attributes["context." + field]
  }

  lemma OneText(rq: Request, scope: Scope, field: string, text: string)
    requires Carries(rq, scope, field, text)
    ensures forall other | Carries(rq, scope, field, other) :: other == text
  {
  }
}
