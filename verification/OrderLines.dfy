/** Canonical purchase-order lines: the Go and the Python encoder, their
    indifference to order, and what equal bytes say about the lines. */
module OrderLines {
  import opened Basics
  import opened Encoding
  import opened Sorting
  import opened CanonicalIntent

  datatype Line = Line(
    lineId: Int64, sequence: Int64, displayType: Bytes, productId: Int64, description: Bytes, uomId: Int64,
    quantity: Bytes, unitPrice: Bytes, taxIds: seq<Int64>, plannedAt: Bytes, writeVersion: Bytes)

  /** Text checks taken from libraries; normalize unifies line ends and composes.
      `bounded` says whether a quantity, price or tax list too long for its
      length prefix is refused: by the Python encoder, not by the Go one. */
  datatype LineRules = LineRules(
    utf8: Bytes -> bool, normalize: Bytes -> Bytes, decimal: Bytes -> bool, timestamp: Bytes -> bool, bounded: bool)

  const LINES_DOMAIN: string := "PDP-ODOO-PO-LINES-V1"

  predicate IntLe(a: Int64, b: Int64) {
    a <= b
  }

  /** Lines are ordered by sequence, then by line id. */
  predicate LineLe(a: Line, b: Line) {
    a.sequence < b.sequence || (a.sequence == b.sequence && a.lineId <= b.lineId)
  }

  lemma OrdersAreLinear()
    ensures Linear(IntLe) && Linear(LineLe)
    ensures forall s: seq<Int64> :: TellsApart(IntLe, s)
  {
  }

  predicate IsDisplay(l: Line) {
    l.displayType == Ascii("line_section") || l.displayType == Ascii("line_note")
  }

  predicate ValidTaxes(ts: seq<Int64>) {
    (forall i :: 0 <= i < |ts| ==> ts[i] > 0) && Distinct(ts)
  }

  predicate ValidTime(rules: LineRules, v: Bytes) {
    |v| == 27 && rules.timestamp(v)
  }

  predicate ValidLine(rules: LineRules, l: Line) {
    && l.lineId > 0
    && (l.displayType == [] || IsDisplay(l))
    && (if IsDisplay(l) then l.productId == 0 && l.uomId == 0 else l.productId > 0 && l.uomId > 0)
    && rules.utf8(l.description)
    && rules.normalize(l.description) != [] && |rules.normalize(l.description)| < UINT32
    && rules.decimal(l.quantity) && rules.decimal(l.unitPrice)
    && ValidTaxes(Sort(IntLe, l.taxIds))
    && (if l.plannedAt == [] then IsDisplay(l) else ValidTime(rules, l.plannedAt))
    && ValidTime(rules, l.writeVersion)
    && (rules.bounded ==> Sized(l))
  }

  /** The texts without a length check of their own fit their length prefix. */
  predicate Sized(l: Line) {
    |l.quantity| < UINT32 && |l.unitPrice| < UINT32 && |l.taxIds| < UINT32
  }

  /** The line as it is encoded. */
  function Canon(rules: LineRules, l: Line): Line {
    l.(description := rules.normalize(l.description), taxIds := Sort(IntLe, l.taxIds))
  }

  function LineFields(l: Line): (fs: seq<Field>)
    ensures |fs| == 11
  {
    [Number(l.lineId), Number(l.sequence), Text(l.displayType), Number(l.productId), Text(l.description),
     Number(l.uomId), Text(l.quantity), Text(l.unitPrice), Numbers(l.taxIds), Text(l.plannedAt), Text(l.writeVersion)]
  }

  function AllFields(rules: LineRules, ls: seq<Line>): (fs: seq<Field>)
    ensures |fs| == 11 * |ls|
  {
    if ls == [] then []
    else AllFields(rules, ls[..|ls| - 1]) + LineFields(Canon(rules, ls[|ls| - 1]))
  }

  predicate DistinctIds(ls: seq<Line>) {
    forall i, j :: 0 <= i < j < |ls| ==> ls[i].lineId != ls[j].lineId
  }

  predicate Encodable(rules: LineRules, ls: seq<Line>) {
    |ls| < UINT32 && DistinctIds(ls) && forall i :: 0 <= i < |ls| ==> ValidLine(rules, ls[i])
  }

  function LinesPayload(rules: LineRules, ls: seq<Line>): Bytes {
    Payload(LINES_DOMAIN, [Count(|ls|)] + AllFields(rules, ls))
  }

  /** A result of encoding: the lines are sorted in some way that respects their
      order, and encoded if all is valid. */
  ghost predicate Encodes(rules: LineRules, lines: seq<Line>, r: Option<Bytes>) {
    exists ordered :: EncodesAs(rules, lines, ordered, r)
  }

  ghost predicate EncodesAs(rules: LineRules, lines: seq<Line>, ordered: seq<Line>, r: Option<Bytes>) {
    && multiset(ordered) == multiset(lines) && Sorted(LineLe, ordered)
    && r == if Encodable(rules, ordered) then Some(LinesPayload(rules, ordered)) else None
  }

  // --------------------------------------------------------- order does not matter

  lemma DistinctTellsApart(ls: seq<Line>)
    requires DistinctIds(ls)
    ensures TellsApart(LineLe, ls)
  {
    forall x, y | x in ls && y in ls && LineLe(x, y) && LineLe(y, x) ensures x == y {
      var i :| 0 <= i < |ls| && ls[i] == x;
      var j :| 0 <= j < |ls| && ls[j] == y;
      assert i == j;
    }
  }

  lemma OneOrder(a: seq<Line>, b: seq<Line>)
    requires multiset(a) == multiset(b) && Sorted(LineLe, a) && Sorted(LineLe, b) && DistinctIds(a)
    ensures a == b
  {
    OrdersAreLinear();
    DistinctTellsApart(a);
    SortedUnique(LineLe, a, b);
  }

  /** The same lines in any order give the same result. */
  lemma LineOrderFree(rules: LineRules, xs: seq<Line>, ys: seq<Line>, r: Option<Bytes>, q: Option<Bytes>)
    requires multiset(xs) == multiset(ys) && Encodes(rules, xs, r) && Encodes(rules, ys, q)
    ensures r == q
  {
    hide ValidLine;
    hide LinesPayload;
    hide Sorted;
    var a :| EncodesAs(rules, xs, a, r);
    var b :| EncodesAs(rules, ys, b, q);
    if DistinctIds(a) {
      OneOrder(a, b);
    } else if DistinctIds(b) {
      OneOrder(b, a);
    }
  }

  /** A line with its taxes sorted. */
  function Tidy(l: Line): Line {
    l.(taxIds := Sort(IntLe, l.taxIds))
  }

  lemma SortTwice(ts: seq<Int64>)
    ensures Sort(IntLe, Sort(IntLe, ts)) == Sort(IntLe, ts)
  {
    OrdersAreLinear();
    SortSorts(IntLe, ts);
    SortUnique(IntLe, Sort(IntLe, ts), ts);
  }

  lemma SortKeepsSize(ts: seq<Int64>)
    ensures |Sort(IntLe, ts)| == |ts|
  {
    OrdersAreLinear();
    SortSorts(IntLe, ts);
    SameMembers(Sort(IntLe, ts), ts);
  }

  lemma TidyLine(rules: LineRules, l: Line)
    ensures Canon(rules, Tidy(l)) == Canon(rules, l) && (ValidLine(rules, Tidy(l)) <==> ValidLine(rules, l))
  {
    hide Sort;
    hide ValidTaxes;
    SortTwice(l.taxIds);
    SortKeepsSize(l.taxIds);
  }

  lemma {:induction false} TidyFields(rules: LineRules, ls: seq<Line>)
    ensures AllFields(rules, Map(Tidy, ls)) == AllFields(rules, ls)
    decreases |ls|
  {
    hide LineFields;
    hide Canon;
    if ls != [] {
      var n := |ls| - 1;
      TidyFields(rules, ls[..n]);
      TidyLine(rules, ls[n]);
      assert Map(Tidy, ls)[..n] == Map(Tidy, ls[..n]);
    }
  }

  lemma TidyEncodable(rules: LineRules, ls: seq<Line>)
    ensures Encodable(rules, Map(Tidy, ls)) <==> Encodable(rules, ls)
  {
    hide ValidLine;
    forall i | 0 <= i < |ls| ensures ValidLine(rules, Map(Tidy, ls)[i]) <==> ValidLine(rules, ls[i]) {
      TidyLine(rules, ls[i]);
    }
    assert forall i :: 0 <= i < |ls| ==> Map(Tidy, ls)[i].lineId == ls[i].lineId;
  }

  lemma TidyEncodes(rules: LineRules, ls: seq<Line>, r: Option<Bytes>)
    requires Encodes(rules, ls, r)
    ensures Encodes(rules, Map(Tidy, ls), r)
  {
    hide Encodable;
    var a :| EncodesAs(rules, ls, a, r);
    MapPermutes(Tidy, a, ls);
    TidyFields(rules, a);
    TidyEncodable(rules, a);
    assert Sorted(LineLe, Map(Tidy, a)) by {
      forall i, j | 0 <= i < j < |a| ensures LineLe(Map(Tidy, a)[i], Map(Tidy, a)[j]) {
        assert LineLe(a[i], a[j]);
      }
    }
    assert EncodesAs(rules, Map(Tidy, ls), Map(Tidy, a), r);
  }

  /** Lines that differ in their order and in the order of their taxes give the
      same result. */
  lemma TaxOrderFree(rules: LineRules, xs: seq<Line>, ys: seq<Line>, r: Option<Bytes>, q: Option<Bytes>)
    requires multiset(Map(Tidy, xs)) == multiset(Map(Tidy, ys))
    requires Encodes(rules, xs, r) && Encodes(rules, ys, q)
    ensures r == q
  {
    hide Encodes;
    TidyEncodes(rules, xs, r);
    TidyEncodes(rules, ys, q);
    LineOrderFree(rules, Map(Tidy, xs), Map(Tidy, ys), r, q);
  }

  lemma PermutedTaxesTidy(l: Line, taxes: seq<Int64>)
    requires multiset(taxes) == multiset(l.taxIds)
    ensures Tidy(l.(taxIds := taxes)) == Tidy(l)
  {
    OrdersAreLinear();
    SortUnique(IntLe, taxes, l.taxIds);
  }

  // ----------------------------------------------------- bytes determine the lines

  lemma CanonFits(rules: LineRules, l: Line)
    requires ValidLine(rules, l) && Sized(l)
    ensures AllFit(LineFields(Canon(rules, l)))
  {
    OrdersAreLinear();
    SortSorts(IntLe, l.taxIds);
    SameMembers(Sort(IntLe, l.taxIds), l.taxIds);
    hide Sort;
    hide ValidTaxes;
  }

  lemma {:induction false} AllFieldsFit(rules: LineRules, ls: seq<Line>)
    requires forall i :: 0 <= i < |ls| ==> ValidLine(rules, ls[i]) && Sized(ls[i])
    ensures AllFit(AllFields(rules, ls))
    decreases |ls|
  {
    hide ValidLine;
    hide Fits;
    hide LineFields;
    if ls != [] {
      var n := |ls| - 1;
      AllFieldsFit(rules, ls[..n]);
      CanonFits(rules, ls[n]);
    }
  }

  lemma LineShape(k: Line, l: Line)
    ensures SameShape(LineFields(k), LineFields(l))
  {
  }

  lemma {:induction false} AllFieldsShape(rules: LineRules, xs: seq<Line>, rules': LineRules, ys: seq<Line>)
    requires |xs| == |ys|
    ensures SameShape(AllFields(rules, xs), AllFields(rules', ys))
    decreases |xs|
  {
    hide LineFields;
    hide SameKind;
    if xs != [] {
      var n := |xs| - 1;
      AllFieldsShape(rules, xs[..n], rules', ys[..n]);
      LineShape(Canon(rules, xs[n]), Canon(rules', ys[n]));
    }
  }

  lemma LineFieldsInjective(k: Line, l: Line)
    requires LineFields(k) == LineFields(l)
    ensures k == l
  {
    var fs, gs := LineFields(k), LineFields(l);
    assert fs[0] == gs[0] && fs[1] == gs[1] && fs[2] == gs[2] && fs[3] == gs[3] && fs[4] == gs[4] && fs[5] == gs[5];
    assert fs[6] == gs[6] && fs[7] == gs[7] && fs[8] == gs[8] && fs[9] == gs[9] && fs[10] == gs[10];
  }

  lemma {:induction false} AllFieldsInjective(rules: LineRules, xs: seq<Line>, rules': LineRules, ys: seq<Line>)
    requires |xs| == |ys| && AllFields(rules, xs) == AllFields(rules', ys)
    ensures forall i :: 0 <= i < |xs| ==> Canon(rules, xs[i]) == Canon(rules', ys[i])
    decreases |xs|
  {
    hide LineFields;
    hide Canon;
    if xs != [] {
      var n := |xs| - 1;
      var fs, gs := AllFields(rules, xs[..n]), AllFields(rules', ys[..n]);
      assert fs == AllFields(rules, xs)[..11 * n] && gs == AllFields(rules', ys)[..11 * n];
      assert LineFields(Canon(rules, xs[n])) == AllFields(rules, xs)[11 * n..];
      assert LineFields(Canon(rules', ys[n])) == AllFields(rules', ys)[11 * n..];
      AllFieldsInjective(rules, xs[..n], rules', ys[..n]);
      LineFieldsInjective(Canon(rules, xs[n]), Canon(rules', ys[n]));
    }
  }

  lemma SingleField(f: Field)
    ensures EncodeAll([f]) == Encode(f)
  {
    assert [f][..0] == [];
    assert [] + Encode(f) == Encode(f);
  }

  lemma OrderedInjective(rules: LineRules, xs: seq<Line>, rules': LineRules, ys: seq<Line>)
    requires Encodable(rules, xs) && Encodable(rules', ys)
    requires forall i :: 0 <= i < |xs| ==> Sized(xs[i])
    requires forall i :: 0 <= i < |ys| ==> Sized(ys[i])
    requires LinesPayload(rules, xs) == LinesPayload(rules', ys)
    ensures |xs| == |ys| && forall i :: 0 <= i < |xs| ==> Canon(rules, xs[i]) == Canon(rules', ys[i])
  {
    hide ValidLine;
    hide AllFields;
    hide Ascii;
    hide Canon;
    hide Encode;
    hide EncodeAll;
    var fs, gs := AllFields(rules, xs), AllFields(rules', ys);
    SplitsAlike(Ascii(LINES_DOMAIN), Ascii(LINES_DOMAIN), EncodeAll([Count(|xs|)] + fs), EncodeAll([Count(|ys|)] + gs));
    EncodeConcat([Count(|xs|)], fs);
    EncodeConcat([Count(|ys|)], gs);
    SingleField(Count(|xs|));
    SingleField(Count(|ys|));
    FieldCancels(Count(|xs|), Count(|ys|), EncodeAll(fs), EncodeAll(gs));
    AllFieldsFit(rules, xs);
    AllFieldsFit(rules', ys);
    AllFieldsShape(rules, xs, rules', ys);
    assert EncodeAll(fs) + [] == EncodeAll(gs) + [];
    FieldsCancel(fs, gs, [], []);
    AllFieldsInjective(rules, xs, rules', ys);
  }

  lemma EncodableSized(rules: LineRules, ls: seq<Line>)
    requires Encodable(rules, ls) && rules.bounded
    ensures forall i :: 0 <= i < |ls| ==> Sized(ls[i])
  {
    hide ValidTaxes;
  }

  /** Equal bytes come from equal lines, up to line order, tax order and the
      normalisation of descriptions. */
  lemma BytesDetermineLines(rules: LineRules, xs: seq<Line>, ys: seq<Line>, bytes: Bytes)
    requires Encodes(rules, xs, Some(bytes)) && Encodes(rules, ys, Some(bytes))
    requires !rules.bounded ==> forall l :: l in xs || l in ys ==> Sized(l)
    ensures multiset(Map(l => Canon(rules, l), xs)) == multiset(Map(l => Canon(rules, l), ys))
  {
    hide Encodable;
    hide LinesPayload;
    hide Sorted;
    hide Canon;
    var canon := l => Canon(rules, l);
    var a :| EncodesAs(rules, xs, a, Some(bytes));
    var b :| EncodesAs(rules, ys, b, Some(bytes));
    SameMembers(a, xs);
    SameMembers(b, ys);
    if rules.bounded {
      EncodableSized(rules, a);
      EncodableSized(rules, b);
    }
    OrderedInjective(rules, a, rules, b);
    assert Map(canon, a) == Map(canon, b);
    MapPermutes(canon, a, xs);
    MapPermutes(canon, b, ys);
  }

  /** Two encoders that normalise alike agree wherever both succeed. */
  lemma EncodersAgree(go: LineRules, python: LineRules, lines: seq<Line>, r: Option<Bytes>, q: Option<Bytes>)
    requires Encodes(go, lines, r) && Encodes(python, lines, q) && r.Some? && q.Some?
    requires forall b :: go.normalize(b) == python.normalize(b)
    ensures r == q
  {
    hide ValidLine;
    hide Sorted;
    var a :| EncodesAs(go, lines, a, r);
    var b :| EncodesAs(python, lines, b, q);
    OneOrder(a, b);
    SameFields(go, python, a);
  }

  lemma {:induction false} SameFields(go: LineRules, python: LineRules, ls: seq<Line>)
    requires forall b :: go.normalize(b) == python.normalize(b)
    ensures AllFields(go, ls) == AllFields(python, ls)
    decreases |ls|
  {
    hide LineFields;
    if ls != [] { SameFields(go, python, ls[..|ls| - 1]); }
  }

  // ------------------------------------------------------------ the Go encoder

  /** Sorted taxes are valid when each is positive and differs from the one before. */
  method CheckTaxes(taxes: seq<Int64>) returns (ok: bool)
    requires Sorted(IntLe, taxes)
    ensures ok <==> ValidTaxes(taxes)
  {
    var i := 0;
    while i < |taxes|
      invariant 0 <= i <= |taxes|
      invariant ValidTaxes(taxes[..i])
    {
      if taxes[i] <= 0 || (i > 0 && taxes[i - 1] == taxes[i]) { return false; }
      assert forall k :: 0 <= k < i ==> taxes[..i + 1][k] == taxes[..i][k];
      assert forall k :: 0 <= k < i ==> IntLe(taxes[k], taxes[i]) && (k < i - 1 ==> IntLe(taxes[k], taxes[i - 1]));
      assert forall k :: 0 <= k < i ==> taxes[..i][k] != taxes[i] by {
        forall k | 0 <= k < i ensures taxes[..i][k] != taxes[i] {
          if k < i - 1 { assert taxes[..i][k] != taxes[..i][i - 1] && IntLe(taxes[i - 1], taxes[i]); }
        }
      }
      i := i + 1;
    }
    assert taxes[..i] == taxes;
    ok := true;
  }

  method ValidateTime(rules: LineRules, v: Bytes) returns (ok: bool)
    ensures ok <==> ValidTime(rules, v)
  {
    ok := |v| == |"2006-01-02T15:04:05.000000Z"| && rules.timestamp(v);
  }

  method ValidateLine(rules: LineRules, l: Line) returns (ok: bool)
    requires !rules.bounded
    ensures ok <==> ValidLine(rules, l)
  {
    hide Sort;
    if l.lineId <= 0 { return false; }
    var display := IsDisplay(l);
    if l.displayType != [] && !display { return false; }
    if (!display && (l.productId <= 0 || l.uomId <= 0)) || (display && (l.productId != 0 || l.uomId != 0)) {
      return false;
    }
    if !rules.utf8(l.description) { return false; }
    var description := rules.normalize(l.description);
    if description == [] || |description| >= UINT32 { return false; }
    if !rules.decimal(l.quantity) || !rules.decimal(l.unitPrice) { return false; }
    OrdersAreLinear();
    SortSorts(IntLe, l.taxIds);
    ok := CheckTaxes(Sort(IntLe, l.taxIds));
    if !ok { return false; }
    if l.plannedAt == [] {
      if !display { return false; }
    } else {
      ok := ValidateTime(rules, l.plannedAt);
      if !ok { return false; }
    }
    ok := ValidateTime(rules, l.writeVersion);
  }

  method WriteLine(payload: Buffer, rules: LineRules, l: Line) returns (ok: bool)
    requires payload.Valid() && !rules.bounded
    modifies payload
    ensures payload.Valid()
    ensures ok <==> ValidLine(rules, l)
    ensures ok ==> payload.fields == old(payload.fields) + LineFields(Canon(rules, l))
  {
    hide payload.Valid;
    hide ValidLine;
    hide Sort;
    ok := ValidateLine(rules, l);
    if !ok { return; }
    payload.WriteInt64(l.lineId);
    payload.WriteInt64(l.sequence);
    payload.WriteString(l.displayType);
    payload.WriteInt64(l.productId);
    payload.WriteString(rules.normalize(l.description));
    payload.WriteInt64(l.uomId);
    payload.WriteString(l.quantity);
    payload.WriteString(l.unitPrice);
    payload.WriteInt64s(Sort(IntLe, l.taxIds));
    payload.WriteString(l.plannedAt);
    payload.WriteString(l.writeVersion);
  }

  lemma PrefixEncodable(rules: LineRules, ls: seq<Line>, i: nat)
    requires i < |ls| < UINT32 && Encodable(rules, ls[..i])
    requires ValidLine(rules, ls[i]) && forall k :: 0 <= k < i ==> ls[k].lineId != ls[i].lineId
    ensures Encodable(rules, ls[..i + 1])
  {
    hide ValidLine;
    assert forall k :: 0 <= k < i ==> ls[..i + 1][k] == ls[..i][k];
  }

  predicate SeenIs(seen: set<int>, ls: seq<Line>) {
    && (forall k :: 0 <= k < |ls| ==> ls[k].lineId in seen)
    && (forall n :: n in seen ==> exists k :: 0 <= k < |ls| && ls[k].lineId == n)
  }

  lemma SeenOneMore(seen: set<int>, ls: seq<Line>, i: nat)
    requires i < |ls| && SeenIs(seen, ls[..i])
    ensures SeenIs(seen + {ls[i].lineId}, ls[..i + 1])
    ensures ls[i].lineId in seen ==> !DistinctIds(ls)
    ensures ls[i].lineId !in seen ==> forall k :: 0 <= k < i ==> ls[k].lineId != ls[i].lineId
  {
    var more := ls[..i + 1];
    assert more[i] == ls[i];
    assert forall k :: 0 <= k < i ==> more[k] == ls[..i][k] == ls[k];
    forall n | n in seen + {ls[i].lineId} ensures exists k :: 0 <= k < |more| && more[k].lineId == n {
      if n != ls[i].lineId {
        var k :| 0 <= k < i && ls[..i][k].lineId == n;
        assert more[k].lineId == n;
      }
    }
  }

  lemma FieldsOneMore(rules: LineRules, ls: seq<Line>, i: nat)
    requires i < |ls|
    ensures AllFields(rules, ls[..i + 1]) == AllFields(rules, ls[..i]) + LineFields(Canon(rules, ls[i]))
  {
    hide LineFields;
    hide Canon;
    assert ls[..i + 1][..i] == ls[..i];
  }

  method EncodeOrdered(rules: LineRules, ordered: seq<Line>) returns (r: Option<Bytes>)
    requires |ordered| < UINT32 && !rules.bounded
    ensures r == if Encodable(rules, ordered) then Some(LinesPayload(rules, ordered)) else None
  {
    hide ValidLine;
    hide LineFields;
    hide Canon;
    hide EncodeAll;
    hide SeenIs;
    hide AllFields;
    var payload := new Buffer(Ascii(LINES_DOMAIN));
    payload.WriteUint32(|ordered|);
    var seen: set<int> := {};
    assert SeenIs(seen, ordered[..0]) by { SeenNothing(); }
    NoFields(rules);
    var i := 0;
    while i < |ordered|
      invariant 0 <= i <= |ordered| && payload.Valid() && fresh(payload) && payload.domain == Ascii(LINES_DOMAIN)
      invariant payload.fields == [Count(|ordered|)] + AllFields(rules, ordered[..i])
      invariant SeenIs(seen, ordered[..i]) && Encodable(rules, ordered[..i])
    {
      SeenOneMore(seen, ordered, i);
      if ordered[i].lineId in seen { return None; }
      seen := seen + {ordered[i].lineId};
      var ok := WriteLine(payload, rules, ordered[i]);
      if !ok { return None; }
      PrefixEncodable(rules, ordered, i);
      FieldsOneMore(rules, ordered, i);
      i := i + 1;
    }
    assert ordered[..i] == ordered;
    r := Some(payload.bytes);
  }

  lemma SeenNothing()
    ensures SeenIs({}, [])
  {
  }

  lemma NoFields(rules: LineRules)
    ensures AllFields(rules, []) == []
  {
  }

  method CanonicalLinesBytes(rules: LineRules, lines: seq<Line>) returns (r: Option<Bytes>)
    requires !rules.bounded
    ensures Encodes(rules, lines, r)
  {
    hide LinesPayload;
    hide ValidLine;
    var ordered := Sort(LineLe, lines);
    OrdersAreLinear();
    SortSorts(LineLe, lines);
    SameMembers(ordered, lines);
    if |lines| >= UINT32 {
      assert EncodesAs(rules, lines, ordered, None);
      return None;
    }
    r := EncodeOrdered(rules, ordered);
    assert EncodesAs(rules, lines, ordered, r);
  }

  // -------------------------------------------------------- the Python encoder

  function SetOf(taxes: seq<Int64>): set<Int64> {
    set t | t in taxes
  }

  lemma DistinctOneMore(taxes: seq<Int64>)
    requires taxes != []
    ensures var n := |taxes| - 1; Distinct(taxes) <==> Distinct(taxes[..n]) && taxes[n] !in SetOf(taxes[..n])
    ensures SetOf(taxes) == SetOf(taxes[..|taxes| - 1]) + {taxes[|taxes| - 1]}
  {
    var n := |taxes| - 1;
    assert taxes == taxes[..n] + [taxes[n]];
    assert forall k :: 0 <= k < n ==> taxes[..n][k] == taxes[k];
    if taxes[n] in SetOf(taxes[..n]) {
      var k :| 0 <= k < n && taxes[..n][k] == taxes[n];
      assert taxes[k] == taxes[n];
    }
  }

  /** Taxes are unique exactly when the set of them is no smaller. */
  lemma {:induction false} UniqueBySize(taxes: seq<Int64>)
    ensures |SetOf(taxes)| <= |taxes|
    ensures |SetOf(taxes)| == |taxes| <==> Distinct(taxes)
    decreases |taxes|
  {
    if taxes != [] {
      var n := |taxes| - 1;
      UniqueBySize(taxes[..n]);
      DistinctOneMore(taxes);
      var front := SetOf(taxes[..n]);
      hide SetOf;
      hide Distinct;
      if taxes[n] in front {
        assert front + {taxes[n]} == front;
      } else {
        assert |front + {taxes[n]}| == |front| + 1;
      }
    }
  }

  /** One line's bytes, checked field by field before anything is packed. */
  method LineBytes(rules: LineRules, l: Line) returns (r: Option<Bytes>)
    requires rules.utf8(l.description) && rules.bounded
    ensures r == if ValidLine(rules, l) then Some(EncodeAll(LineFields(Canon(rules, l)))) else None
  {
    hide Sort;
    hide EncodeAll;
    hide Encode;
    if l.lineId < 1 { return None; }
    if l.displayType != [] && l.displayType != Ascii("line_section") && l.displayType != Ascii("line_note") {
      return None;
    }
    var display := l.displayType != [];
    if l.productId < 0 || l.uomId < 0 { return None; }
    if (!display && (l.productId <= 0 || l.uomId <= 0)) || (display && (l.productId != 0 || l.uomId != 0)) {
      return None;
    }
    var description := rules.normalize(l.description);
    if description == [] || |description| > 0xFFFFFFFF { return None; }
    if !rules.decimal(l.quantity) || |l.quantity| > 0xFFFFFFFF { return None; }
    if !rules.decimal(l.unitPrice) || |l.unitPrice| > 0xFFFFFFFF { return None; }
    if |l.taxIds| > 0xFFFFFFFF { return None; }
    var taxes := Sort(IntLe, l.taxIds);
    if !(forall i :: 0 <= i < |taxes| ==> taxes[i] >= 1) { return None; }
    UniqueBySize(taxes);
    if |taxes| != |SetOf(taxes)| { return None; }
    if l.plannedAt == [] {
      if !display { return None; }
    } else {
      var planned := ValidateTime(rules, l.plannedAt);
      if !planned { return None; }
    }
    var written := ValidateTime(rules, l.writeVersion);
    if !written { return None; }
    var bytes := PackLine(l.(description := description, taxIds := taxes));
    r := Some(bytes);
  }

  method PackLine(l: Line) returns (bytes: Bytes)
    ensures bytes == EncodeAll(LineFields(l))
  {
    hide EncodeAll;
    var payload := new Buffer([]);
    payload.WriteInt64(l.lineId);
    payload.WriteInt64(l.sequence);
    payload.WriteString(l.displayType);
    payload.WriteInt64(l.productId);
    payload.WriteString(l.description);
    payload.WriteInt64(l.uomId);
    payload.WriteString(l.quantity);
    payload.WriteString(l.unitPrice);
    payload.WriteInt64s(l.taxIds);
    payload.WriteString(l.plannedAt);
    payload.WriteString(l.writeVersion);
    assert payload.fields == LineFields(l);
    assert payload.bytes == [] + EncodeAll(LineFields(l));
    bytes := payload.bytes;
  }

  method EncodeOrderedPython(rules: LineRules, ordered: seq<Line>) returns (r: Option<Bytes>)
    requires |ordered| < UINT32 && rules.bounded
    requires forall i :: 0 <= i < |ordered| ==> rules.utf8(ordered[i].description)
    ensures r == if Encodable(rules, ordered) then Some(LinesPayload(rules, ordered)) else None
  {
    hide ValidLine;
    hide LineFields;
    hide Canon;
    hide EncodeAll;
    hide SeenIs;
    hide AllFields;
    hide BigEndian;
    var payload := Ascii(LINES_DOMAIN);
    ghost var head := Count(|ordered|);
    payload := payload + BigEndian(|ordered|, 4);
    CountField(|ordered|);
    NoFields(rules);
    assert [head] + [] == [head];
    var seen: set<int> := {};
    SeenNothing();
    var i := 0;
    while i < |ordered|
      invariant 0 <= i <= |ordered|
      invariant payload == Payload(LINES_DOMAIN, [head] + AllFields(rules, ordered[..i]))
      invariant SeenIs(seen, ordered[..i]) && Encodable(rules, ordered[..i])
    {
      var line := ordered[i];
      SeenOneMore(seen, ordered, i);
      if line.lineId < 1 {
        InvalidId(rules, line);
        return None;
      }
      if line.lineId in seen { return None; }
      seen := seen + {line.lineId};
      var bytes := LineBytes(rules, line);
      if bytes.None? { return None; }
      PrefixEncodable(rules, ordered, i);
      FieldsOneMore(rules, ordered, i);
      PayloadGrows(LINES_DOMAIN, [head] + AllFields(rules, ordered[..i]), LineFields(Canon(rules, line)));
      assert [head] + AllFields(rules, ordered[..i]) + LineFields(Canon(rules, line))
          == [head] + AllFields(rules, ordered[..i + 1]);
      payload := payload + bytes.value;
      i := i + 1;
    }
    assert ordered[..i] == ordered;
    r := Some(payload);
  }

  lemma CountField(n: nat)
    requires n < UINT32
    ensures Ascii(LINES_DOMAIN) + BigEndian(n, 4) == Payload(LINES_DOMAIN, [Count(n)])
  {
    hide BigEndian;
    SingleField(Count(n));
  }

  lemma InvalidId(rules: LineRules, l: Line)
    requires l.lineId < 1
    ensures !ValidLine(rules, l)
  {
  }

  lemma PayloadGrows(domain: string, fs: seq<Field>, gs: seq<Field>)
    ensures Payload(domain, fs) + EncodeAll(gs) == Payload(domain, fs + gs)
  {
    hide EncodeAll;
    EncodeConcat(fs, gs);
  }

  /** Python text is always encodable, so every description here is UTF-8. */
  method CanonicalLinesBytesPython(rules: LineRules, lines: seq<Line>) returns (r: Option<Bytes>)
    requires rules.bounded && forall b :: rules.utf8(b)
    ensures Encodes(rules, lines, r)
  {
    hide LinesPayload;
    hide ValidLine;
    var ordered := Sort(LineLe, lines);
    OrdersAreLinear();
    SortSorts(LineLe, lines);
    SameMembers(ordered, lines);
    if |lines| > 0xFFFFFFFF {
      assert EncodesAs(rules, lines, ordered, None);
      return None;
    }
    r := EncodeOrderedPython(rules, ordered);
    assert EncodesAs(rules, lines, ordered, r);
  }
}
