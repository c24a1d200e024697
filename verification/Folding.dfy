/** The policy compiler: literals are retyped and constants folded, and the
    exact condition under which folding keeps a condition's meaning. */
module Folding {
  import opened Basics
  import opened Expr

  // ---------------------------------------------------------------- retyping

  /** A string literal that reads as an address, a network or a time becomes one. */
  function RetypeValue(lib: Library, v: Value): Value {
    if !v.Str? then v
    else if lib.parseIp(v.text).Some? then Ip(lib.parseIp(v.text).value)
    else if lib.parseCidr(v.text).Some? then Net(lib.parseCidr(v.text).value)
    else if lib.literalTime(v.text).Some? then Time(lib.literalTime(v.text).value)
    else v
  }

  function Retype(lib: Library, e: Expr): Expr {
    match e
    case Lit(v) => Lit(RetypeValue(lib, v))
    case Var(_, _) => e
    case Not(c) => Not(Retype(lib, c))
    case Neg(c) => Neg(Retype(lib, c))
    case Bin(op, l, r) => Bin(op, Retype(lib, l), Retype(lib, r))
  }

  predicate Mentions(field: string, word: string) {
    word <= field || (field != [] && Mentions(field[1..], word))
  }

  /** The second retyping pass, guided by the compared variable's name. */
  function Preparse(lib: Library, op: Op, l: Expr, r: Expr): Expr {
    if !l.Var? || !r.Lit? || !r.value.Str? then r
    else
      var text := r.value.text;
      var byAddress := (op.In? || op.Eq?) && (Mentions(l.field, "ip") || Mentions(l.field, "addr"));
      var byTime := Mentions(l.field, "time") || Mentions(l.field, "date");
      if byTime && lib.literalTime(text).Some? then Lit(Time(lib.literalTime(text).value))
      else if byAddress && lib.parseIp(text).Some? then Lit(Ip(lib.parseIp(text).value))
      else if byAddress && lib.parseCidr(text).Some? then Lit(Net(lib.parseCidr(text).value))
      else r
  }

  // ----------------------------------------------------------------- folding

  /** The compiler's equality of literals; it has no case for times. */
  predicate LiteralEq(lib: Library, x: Value, y: Value) {
    match (x, y)
    case (Str(s), Str(t)) => s == t
    case (Int(m), Int(n)) => m == n
    case (Bool(a), Bool(b)) => a == b
    case (Ip(a), Ip(b)) => lib.sameIp(a, b)
    case _ => false
  }

  predicate IsFlag(e: Expr, b: bool) {
    e == Lit(Bool(b))
  }

  function FoldLiterals(lib: Library, op: Op, x: Value, y: Value): Option<bool> {
    match op
    case And => if x.Bool? && y.Bool? then Some(x.flag && y.flag) else None
    case Or => if x.Bool? && y.Bool? then Some(x.flag || y.flag) else None
    case Eq => Some(LiteralEq(lib, x, y))
    case Ne => Some(!LiteralEq(lib, x, y))
    case In => None
    case Contains => None
    case _ => match Order(x, y) case Some(order) => Some(Satisfies(op, order)) case None => None
  }

  function FoldBinary(lib: Library, op: Op, l: Expr, r: Expr): Expr {
    if op.And? && (IsFlag(l, false) || IsFlag(r, false)) then Lit(Bool(false))
    else if op.Or? && (IsFlag(l, true) || IsFlag(r, true)) then Lit(Bool(true))
    else if l.Lit? && r.Lit? then
      match FoldLiterals(lib, op, l.value, r.value)
      case Some(b) => Lit(Bool(b))
      case None => Bin(op, l, r)
    else Bin(op, l, r)
  }

  function FoldNot(c: Expr): Expr {
    if c.Lit? && c.value.Bool? then Lit(Bool(!c.value.flag)) else Not(c)
  }

  function FoldNeg(c: Expr): Expr {
    if c.Lit? && c.value.Int? then Lit(Int(Negate(c.value.number))) else Neg(c)
  }

  /** Folding alone, bottom-up. */
  function Fold(lib: Library, e: Expr): Expr {
    match e
    case Lit(_) => e
    case Var(_, _) => e
    case Not(c) => FoldNot(Fold(lib, c))
    case Neg(c) => FoldNeg(Fold(lib, c))
    case Bin(op, l, r) => FoldBinary(lib, op, Fold(lib, l), Fold(lib, r))
  }

  /** The compiler's single walk: retype leaves, retype again at each binary
      node, and fold on the way up. */
  function Optimize(lib: Library, e: Expr): Expr {
    match e
    case Lit(v) => Lit(RetypeValue(lib, v))
    case Var(_, _) => e
    case Not(c) => FoldNot(Optimize(lib, c))
    case Neg(c) => FoldNeg(Optimize(lib, c))
    case Bin(op, l, r) =>
      var l', r' := Optimize(lib, l), Optimize(lib, r);
      FoldBinary(lib, op, l', Preparse(lib, op, l', r'))
  }

  /** What the compiler makes of a text beside an attribute: an address if it
      reads as one, else a network, else a time, and else it stays a text. */
  lemma TextsCompile(lib: Library, op: Op, scope: Scope, field: string, text: string)
    ensures var l, c := Var(scope, field), Optimize(lib, Bin(op, Var(scope, field), Lit(Str(text))));
      && (forall a :: lib.parseIp(text) == Some(a) ==> c == Bin(op, l, Lit(Ip(a))))
      && (lib.parseIp(text) == None ==>
            && (forall n :: lib.parseCidr(text) == Some(n) ==> c == Bin(op, l, Lit(Net(n))))
            && (lib.parseCidr(text) == None ==>
                  && (forall n :: lib.literalTime(text) == Some(n) ==> c == Bin(op, l, Lit(Time(n))))
                  && (lib.literalTime(text) == None ==> c == Bin(op, l, Lit(Str(text))))))
  {
    hide Mentions;
  }

  /** Literals of any other kind, attributes and operators are left as they are. */
  lemma OthersCompile(lib: Library, op: Op, scope: Scope, field: string, v: Value)
    requires !v.Str?
    ensures Optimize(lib, Bin(op, Var(scope, field), Lit(v)))
         == if op.And? && v == Bool(false) then Lit(Bool(false))
            else if op.Or? && v == Bool(true) then Lit(Bool(true)) else Bin(op, Var(scope, field), Lit(v))
  {
    hide Mentions;
  }

  // ------------------------------------------------ the walk, taken apart

  lemma {:induction false} FoldIdempotent(lib: Library, e: Expr)
    ensures Fold(lib, Fold(lib, e)) == Fold(lib, e)
  {
    match e
    case Lit(_) =>
    case Var(_, _) =>
    case Not(c) => FoldIdempotent(lib, c);
    case Neg(c) => FoldIdempotent(lib, c);
    case Bin(op, l, r) => FoldIdempotent(lib, l); FoldIdempotent(lib, r);
  }

  /** A literal that folding made is a boolean or an integer. */
  lemma {:induction false} FoldedLiterals(lib: Library, e: Expr)
    ensures Fold(lib, e).Lit? && !e.Lit? ==> Fold(lib, e).value.Bool? || Fold(lib, e).value.Int?
  {
  }

  lemma RetypeValueOnce(lib: Library, v: Value)
    ensures RetypeValue(lib, RetypeValue(lib, v)) == RetypeValue(lib, v)
  {
  }

  /** The single walk is retyping followed by folding, so the second retyping
      pass never changes a node. */
  lemma {:induction false} OptimizeIsFoldOfRetype(lib: Library, e: Expr)
    ensures Optimize(lib, e) == Fold(lib, Retype(lib, e))
    ensures e.Bin? ==> SecondPassIdle(lib, e.op, Optimize(lib, e.left), Optimize(lib, e.right))
  {
    match e
    case Lit(_) =>
    case Var(_, _) =>
    case Not(c) => OptimizeIsFoldOfRetype(lib, c);
    case Neg(c) => OptimizeIsFoldOfRetype(lib, c);
    case Bin(op, l, r) =>
      OptimizeIsFoldOfRetype(lib, l);
      OptimizeIsFoldOfRetype(lib, r);
      FoldedLiterals(lib, Retype(lib, r));
      match r { case Lit(v) => RetypeValueOnce(lib, v); case _ => }
  }

  predicate SecondPassIdle(lib: Library, op: Op, l: Expr, r: Expr) {
    Preparse(lib, op, l, r) == r
  }

  lemma {:induction false} FoldKeepsRetyped(lib: Library, e: Expr)
    requires Retype(lib, e) == e
    ensures Retype(lib, Fold(lib, e)) == Fold(lib, e)
  {
    match e
    case Lit(_) =>
    case Var(_, _) =>
    case Not(c) => FoldKeepsRetyped(lib, c);
    case Neg(c) => FoldKeepsRetyped(lib, c);
    case Bin(op, l, r) => FoldKeepsRetyped(lib, l); FoldKeepsRetyped(lib, r);
  }

  lemma {:induction false} RetypeIdempotent(lib: Library, e: Expr)
    ensures Retype(lib, Retype(lib, e)) == Retype(lib, e)
  {
    match e
    case Lit(v) => RetypeValueOnce(lib, v);
    case Var(_, _) =>
    case Not(c) => RetypeIdempotent(lib, c);
    case Neg(c) => RetypeIdempotent(lib, c);
    case Bin(op, l, r) => RetypeIdempotent(lib, l); RetypeIdempotent(lib, r);
  }

  lemma OptimizeIdempotent(lib: Library, e: Expr)
    ensures Optimize(lib, Optimize(lib, e)) == Optimize(lib, e)
  {
    var t := Retype(lib, e);
    OptimizeIsFoldOfRetype(lib, e);
    OptimizeIsFoldOfRetype(lib, Optimize(lib, e));
    RetypeIdempotent(lib, e);
    FoldKeepsRetyped(lib, t);
    FoldIdempotent(lib, t);
  }

  // ---------------------------------------------- when folding keeps meaning

  /** Folding e changes no evaluation of it, in any request. */
  ghost predicate Preserved(lib: Library, e: Expr) {
    forall rq :: Eval(lib, rq, Fold(lib, e)) == Eval(lib, rq, e)
  }

  /** Folding preserves e and every expression inside it. */
  ghost predicate PreservedThroughout(lib: Library, e: Expr) {
    && Preserved(lib, e)
    && match e
       case Lit(_) => true
       case Var(_, _) => true
       case Not(c) => PreservedThroughout(lib, c)
       case Neg(c) => PreservedThroughout(lib, c)
       case Bin(_, l, r) => PreservedThroughout(lib, l) && PreservedThroughout(lib, r)
  }

  /** A folded operand that may evaluate to something other than a boolean. */
  predicate NotBoolean(e: Expr) {
    e.Var? || (e.Lit? && !e.value.Bool?)
  }

  predicate SameTime(x: Expr, y: Expr) {
    x.Lit? && y.Lit? && x.value.Time? && x == y
  }

  /** An attribute is compared with an operand that only folding makes a literal,
      and so changes the type the attribute is read as. */
  predicate ChangesExpectedType(l: Expr, r: Expr, folded: Expr) {
    l.Var? && !Identity(l.scope, l.field) && !r.Lit? && folded.Lit?
  }

  predicate SafeHere(lib: Library, op: Op, l: Expr, r: Expr) {
    var l', r' := Fold(lib, l), Fold(lib, r);
    match op
    case And => !(IsFlag(r', false) && NotBoolean(l'))
    case Or => true
    case _ => !ChangesExpectedType(l, r, r') && !((op.Eq? || op.Ne?) && SameTime(l', r'))
  }

  predicate Safe(lib: Library, e: Expr) {
    match e
    case Lit(_) => true
    case Var(_, _) => true
    case Not(c) => Safe(lib, c)
    case Neg(c) => Safe(lib, c)
    case Bin(op, l, r) => Safe(lib, l) && Safe(lib, r) && SafeHere(lib, op, l, r)
  }

  /** A folded tree that yields something other than a boolean is a leaf. */
  lemma {:induction false} FoldedYields(lib: Library, rq: Request, e: Expr)
    requires Fold(lib, e) == e
    requires Eval(lib, rq, e).Yields? && !Eval(lib, rq, e).value.Bool?
    ensures NotBoolean(e)
  {
    match e
    case Lit(_) =>
    case Var(_, _) =>
    case Not(_) =>
    case Neg(c) =>
      FoldedYields(lib, rq, c);
    case Bin(_, _, _) =>
  }

  lemma SameLiterals(lib: Library, rq: Request, op: Op, x: Value, y: Value)
    requires FoldLiterals(lib, op, x, y).Some?
    requires (op.Eq? || op.Ne?) && x.Time? ==> x != y
    ensures Eval(lib, rq, Bin(op, Lit(x), Lit(y))) == Yields(Bool(FoldLiterals(lib, op, x, y).value))
  {
  }

  /** One binary node, its children already preserved. */
  lemma BinaryPreserved(lib: Library, rq: Request, op: Op, l: Expr, r: Expr)
    requires Eval(lib, rq, Fold(lib, l)) == Eval(lib, rq, l)
    requires Eval(lib, rq, Fold(lib, r)) == Eval(lib, rq, r)
    requires SafeHere(lib, op, l, r)
    ensures Eval(lib, rq, Fold(lib, Bin(op, l, r))) == Eval(lib, rq, Bin(op, l, r))
  {
    var l', r' := Fold(lib, l), Fold(lib, r);
    FoldIdempotent(lib, l);
    if op.And? {
      if IsFlag(r', false) && Eval(lib, rq, l').Yields? && !Eval(lib, rq, l').value.Bool? {
        FoldedYields(lib, rq, l');
      }
    } else if !op.Or? {
      assert Eval(lib, rq, Bin(op, l', r')) == Eval(lib, rq, Bin(op, l, r));
      if l'.Lit? && r'.Lit? && FoldLiterals(lib, op, l'.value, r'.value).Some? {
        SameLiterals(lib, rq, op, l'.value, r'.value);
      }
    }
  }

  lemma {:induction false} SafeIsPreserved(lib: Library, rq: Request, e: Expr)
    requires Safe(lib, e)
    ensures Eval(lib, rq, Fold(lib, e)) == Eval(lib, rq, e)
  {
    match e
    case Lit(_) =>
    case Var(_, _) =>
    case Not(c) => SafeIsPreserved(lib, rq, c);
    case Neg(c) => SafeIsPreserved(lib, rq, c);
    case Bin(op, l, r) =>
      SafeIsPreserved(lib, rq, l);
      SafeIsPreserved(lib, rq, r);
      BinaryPreserved(lib, rq, op, l, r);
  }

  /** What the integer and boolean readers promise: every value has a text that
      reads as it, and some text reads as neither. */
  ghost predicate Readers(lib: Library) {
    && (forall n: Int64 :: exists s :: lib.parseInt(s) == Some(n))
    && (forall b: bool :: exists s :: lib.parseBool(s) == Some(b))
    && (exists s :: lib.parseInt(s) == None && lib.parseBool(s) == None)
  }

  /** A request whose every attribute called field has the given text. */
  function Giving(field: string, text: string): Request {
    Request("", "", map["principal." + field := text, "resource." + field := text, field := text], (a, b) => a == b)
  }

  lemma GivingReads(lib: Library, scope: Scope, field: string, text: string, t: ValueType)
    requires !Identity(scope, field)
    ensures Attribute(lib, Giving(field, text), scope, field, t) == ReadAs(lib, text, t)
  {
    assert ("principal." + field)[0] == 'p' && ("resource." + field)[0] == 'r';
    var rq := Giving(field, text);
    assert TextOf(rq, scope, field) == Some(text);
  }

  /** An unsafe node has a request that tells it from its folded form. */
  lemma UnsafeAnd(lib: Library, l: Expr, r: Expr)
    requires Preserved(lib, l) && Preserved(lib, r)
    requires !SafeHere(lib, And, l, r)
    ensures !Preserved(lib, Bin(And, l, r))
  {
    var l' := Fold(lib, l);
    var rq := if l'.Var? then Giving(l'.field, "") else Giving("", "");
    if l'.Var? && !Identity(l'.scope, l'.field) {
      GivingReads(lib, l'.scope, l'.field, "", StringType);
    }
    assert Eval(lib, rq, l') == Eval(lib, rq, l);
    assert Eval(lib, rq, Bin(And, l, r)) == Fails(Unsupported);
    assert Eval(lib, rq, Fold(lib, Bin(And, l, r))) == FALSE;
  }

  lemma UnsafeTimes(lib: Library, op: Op, l: Expr, r: Expr)
    requires op.Eq? || op.Ne?
    requires Preserved(lib, l) && Preserved(lib, r)
    requires SameTime(Fold(lib, l), Fold(lib, r))
    ensures !Preserved(lib, Bin(op, l, r))
  {
    FoldedLiterals(lib, l);
    FoldedLiterals(lib, r);
    var rq := Giving("", "");
    assert Eval(lib, rq, Bin(op, l, r)) != Eval(lib, rq, Fold(lib, Bin(op, l, r)));
  }

  /** A text that is read differently as a string and as the folded literal's type. */
  lemma Distinguishing(lib: Library, op: Op, v: Value) returns (text: string)
    requires Readers(lib) && (v.Int? || v.Bool?) && !op.And? && !op.Or?
    ensures forall rq ::
      Compared(lib, rq, op, ReadAs(lib, text, TypeOf(v)), Yields(v)) != Relate(lib, rq, op, Str(text), v)
  {
    if op.Eq? {
      if v.Int? {
        text :| lib.parseInt(text) == Some(v.number);
      } else {
        text :| lib.parseBool(text) == Some(v.flag);
      }
    } else {
      text :| lib.parseInt(text) == None && lib.parseBool(text) == None;
    }
  }

  lemma UnsafeType(lib: Library, op: Op, l: Expr, r: Expr)
    requires !op.And? && !op.Or?
    requires Readers(lib) && Preserved(lib, r)
    requires ChangesExpectedType(l, r, Fold(lib, r))
    ensures !Preserved(lib, Bin(op, l, r))
  {
    FoldedLiterals(lib, r);
    var v := Fold(lib, r).value;
    var text := Distinguishing(lib, op, v);
    var rq := Giving(l.field, text);
    GivingReads(lib, l.scope, l.field, text, TypeOf(v));
    GivingReads(lib, l.scope, l.field, text, StringType);
    assert Eval(lib, rq, Fold(lib, r)) == Eval(lib, rq, r);
    assert Eval(lib, rq, Bin(op, l, r)) == Relate(lib, rq, op, Str(text), v);
    assert Fold(lib, Bin(op, l, r)) == Bin(op, l, Lit(v));
    assert Eval(lib, rq, Bin(op, l, Lit(v))) == Compared(lib, rq, op, ReadAs(lib, text, TypeOf(v)), Yields(v));
  }

  /** Folding keeps the meaning of a condition and all its parts exactly when
      no node is one of the three unsafe shapes. */
  lemma {:induction false} FoldingExact(lib: Library, e: Expr)
    requires Readers(lib)
    ensures PreservedThroughout(lib, e) <==> Safe(lib, e)
  {
    if Safe(lib, e) {
      forall rq ensures Eval(lib, rq, Fold(lib, e)) == Eval(lib, rq, e) {
        SafeIsPreserved(lib, rq, e);
      }
    }
    match e
    case Lit(_) =>
    case Var(_, _) =>
    case Not(c) => FoldingExact(lib, c);
    case Neg(c) => FoldingExact(lib, c);
    case Bin(op, l, r) =>
      FoldingExact(lib, l);
      FoldingExact(lib, r);
      if PreservedThroughout(lib, l) && PreservedThroughout(lib, r) && !SafeHere(lib, op, l, r) {
        if op.And? {
          UnsafeAnd(lib, l, r);
        } else if ChangesExpectedType(l, r, Fold(lib, r)) {
          UnsafeType(lib, op, l, r);
        } else {
          UnsafeTimes(lib, op, l, r);
        }
      }
  }

  predicate Leaf(e: Expr) {
    e.Lit? || e.Var?
  }

  predicate BooleanShaped(e: Expr) {
    e.Not? || e.Bin? || (e.Lit? && e.value.Bool?)
  }

  /** The conditions policies are written as: leaves compared, booleans
      connected, and no two times tested for equality. */
  predicate Ordinary(e: Expr) {
    match e
    case Lit(_) => true
    case Var(_, _) => true
    case Not(c) => Ordinary(c)
    case Neg(c) => Ordinary(c)
    case Bin(op, l, r) =>
      && Ordinary(l) && Ordinary(r)
      && (if op.And? || op.Or? then BooleanShaped(l) && BooleanShaped(r) else Leaf(l) && Leaf(r))
      && ((op.Eq? || op.Ne?) && l.Lit? && r.Lit? ==> !(l.value.Time? && r.value.Time?))
  }

  /** The kind of value a condition without attributes comes to; none where an
      operator does not fit its operands, for `in` and `contains`, and for times. */
  function Kind(e: Expr): Option<ValueType> {
    match e
    case Lit(v) => if v.Time? then None else Some(TypeOf(v))
    case Var(_, _) => None
    case Not(c) => if Kind(c) == Some(BoolType) then Some(BoolType) else None
    case Neg(c) => if Kind(c) == Some(IntType) then Some(IntType) else None
    case Bin(op, l, r) =>
      if Kind(l).None? || Kind(r).None? || op.In? || op.Contains? then None
      else if op.And? || op.Or? then if Kind(l) == Kind(r) == Some(BoolType) then Some(BoolType) else None
      else if op.Eq? || op.Ne? then Some(BoolType)
      else if Kind(l) == Kind(r) && Kind(l) in {Some(IntType), Some(StringType)} then Some(BoolType)
      else None
  }

  /** Nothing is left of a condition without attributes but its value. */
  lemma {:induction false} ConstantsFold(lib: Library, rq: Request, e: Expr) returns (v: Value)
    requires Kind(e).Some?
    ensures Fold(lib, e) == Lit(v) && Eval(lib, rq, e) == Yields(v) && Kind(e) == Some(TypeOf(v))
  {
    match e
    case Lit(w) => v := w;
    case Not(c) => var w := ConstantsFold(lib, rq, c); v := Bool(!w.flag);
    case Neg(c) => var w := ConstantsFold(lib, rq, c); v := Int(Negate(w.number));
    case Bin(op, l, r) =>
      var x := ConstantsFold(lib, rq, l);
      var y := ConstantsFold(lib, rq, r);
      LiteralsFold(lib, rq, op, l, r, x, y);
      v := Fold(lib, e).value;
  }

  lemma LiteralsFold(lib: Library, rq: Request, op: Op, l: Expr, r: Expr, x: Value, y: Value)
    requires Kind(Bin(op, l, r)).Some? && Kind(l) == Some(TypeOf(x)) && Kind(r) == Some(TypeOf(y))
    requires Eval(lib, rq, l) == Yields(x) && Eval(lib, rq, r) == Yields(y)
    ensures FoldBinary(lib, op, Lit(x), Lit(y)).Lit? && FoldBinary(lib, op, Lit(x), Lit(y)).value.Bool?
    ensures Eval(lib, rq, Bin(op, l, r)) == Yields(FoldBinary(lib, op, Lit(x), Lit(y)).value)
  {
  }

  lemma {:induction false} OrdinaryIsSafe(lib: Library, e: Expr)
    requires Ordinary(e)
    ensures Safe(lib, e)
  {
    match e
    case Lit(_) =>
    case Var(_, _) =>
    case Not(c) => OrdinaryIsSafe(lib, c);
    case Neg(c) => OrdinaryIsSafe(lib, c);
    case Bin(op, l, r) =>
      OrdinaryIsSafe(lib, l);
      OrdinaryIsSafe(lib, r);
  }

  /** Compiling an ordinary condition keeps the meaning of its retyped form. */
  lemma OptimizePreservesMeaning(lib: Library, rq: Request, e: Expr)
    requires Ordinary(Retype(lib, e))
    ensures Eval(lib, rq, Optimize(lib, e)) == Eval(lib, rq, Retype(lib, e))
  {
    OptimizeIsFoldOfRetype(lib, e);
    OrdinaryIsSafe(lib, Retype(lib, e));
    SafeIsPreserved(lib, rq, Retype(lib, e));
  }

  /** Two equal times compare equal, and fold to unequal. */
  lemma EqualTimesFoldApart(lib: Library, rq: Request, n: Int64)
    ensures Eval(lib, rq, Bin(Eq, Lit(Time(n)), Lit(Time(n)))) == TRUE
    ensures Eval(lib, rq, Fold(lib, Bin(Eq, Lit(Time(n)), Lit(Time(n))))) == FALSE
  {
  }

  // ------------------------------------------------------------ the compiler

  const MAX_DEPTH: nat := 15

  function Depth(e: Expr): nat {
    match e
    case Lit(_) => 1
    case Var(_, _) => 1
    case Not(c) => 1 + Depth(c)
    case Neg(c) => 1 + Depth(c)
    case Bin(_, l, r) => 1 + (if Depth(l) > Depth(r) then Depth(l) else Depth(r))
  }

  /** An ordering of two literals of different types. */
  predicate Mixed(e: Expr) {
    e.Bin? && Relational(e.op) && e.left.Lit? && e.right.Lit? && TypeOf(e.left.value) != TypeOf(e.right.value)
  }

  predicate MixedInside(e: Expr) {
    || Mixed(e)
    || match e
       case Lit(_) => false
       case Var(_, _) => false
       case Not(c) => MixedInside(c)
       case Neg(c) => MixedInside(c)
       case Bin(_, l, r) => MixedInside(l) || MixedInside(r)
  }

  /** How many ordering nodes the walk finds to compare two literal types. */
  function Mismatches(lib: Library, e: Expr): nat {
    match e
    case Lit(_) => 0
    case Var(_, _) => 0
    case Not(c) => Mismatches(lib, c)
    case Neg(c) => Mismatches(lib, c)
    case Bin(op, l, r) =>
      Mismatches(lib, l) + Mismatches(lib, r)
      + if Mixed(Bin(op, Optimize(lib, l), Optimize(lib, r))) then 1 else 0
  }

  lemma {:induction false} NoMismatchLeft(lib: Library, e: Expr)
    requires Mismatches(lib, e) == 0
    ensures !MixedInside(Optimize(lib, e))
  {
    match e
    case Lit(_) =>
    case Var(_, _) =>
    case Not(c) => NoMismatchLeft(lib, c);
    case Neg(c) => NoMismatchLeft(lib, c);
    case Bin(op, l, r) =>
      NoMismatchLeft(lib, l);
      NoMismatchLeft(lib, r);
      OptimizeIsFoldOfRetype(lib, e);
  }

  /** One compiler; its error list is kept from one policy to the next. */
  class Compiler {
    const lib: Library
    var errors: nat

    constructor (lib: Library)
      ensures this.lib == lib && errors == 0
    {
      this.lib := lib;
      errors := 0;
    }

    method CheckDepth(e: Expr, depth: nat) returns (ok: bool)
      ensures ok <==> depth + Depth(e) - 1 <= MAX_DEPTH
      decreases e
    {
      if depth > MAX_DEPTH { return false; }
      match e {
        case Lit(_) => ok := true;
        case Var(_, _) => ok := true;
        case Not(c) => ok := CheckDepth(c, depth + 1);
        case Neg(c) => ok := CheckDepth(c, depth + 1);
        case Bin(_, l, r) =>
          ok := CheckDepth(l, depth + 1);
          if ok { ok := CheckDepth(r, depth + 1); }
      }
    }

    method OptimizeNode(e: Expr) returns (r: Expr)
      modifies this
      ensures r == Fold(lib, Retype(lib, e))
      ensures errors == old(errors) + Mismatches(lib, e)
      decreases e
    {
      OptimizeIsFoldOfRetype(lib, e);
      match e {
        case Lit(v) => r := Lit(RetypeValue(lib, v));
        case Var(_, _) => r := e;
        case Not(c) =>
          var c' := OptimizeNode(c);
          r := FoldNot(c');
        case Neg(c) =>
          var c' := OptimizeNode(c);
          r := FoldNeg(c');
        case Bin(op, left, right) =>
          OptimizeIsFoldOfRetype(lib, left);
          OptimizeIsFoldOfRetype(lib, right);
          var left' := OptimizeNode(left);
          var right' := OptimizeNode(right);
          if Relational(op) && left'.Lit? && right'.Lit? && TypeOf(left'.value) != TypeOf(right'.value) {
            errors := errors + 1;
          }
          r := FoldBinary(lib, op, left', Preparse(lib, op, left', right'));
      }
    }

    /** A compiled condition is shallow, compares no two literals of different
        types, and, if ordinary, means what its retyped source means. */
    method Compile(condition: Option<Expr>) returns (r: Result<Option<Expr>>)
      modifies this
      ensures r.Ok? <==> errors == 0 && (condition.Some? ==> Depth(condition.value) <= MAX_DEPTH)
      ensures errors == old(errors)
        + if condition.Some? && Depth(condition.value) <= MAX_DEPTH then Mismatches(lib, condition.value) else 0
      ensures r.Ok? ==> r.value.Some? == condition.Some?
      ensures r.Ok? && condition.Some? ==> !MixedInside(r.value.value)
      ensures r.Ok? && condition.Some? && Ordinary(Retype(lib, condition.value)) ==>
        forall rq :: Eval(lib, rq, r.value.value) == Eval(lib, rq, Retype(lib, condition.value))
    {
      var result := condition;
      if condition.Some? {
        var e := condition.value;
        var shallow := CheckDepth(e, 1);
        if !shallow { return Err; }
        var e' := OptimizeNode(e);
        result := Some(e');
        OptimizeIsFoldOfRetype(lib, e);
        if errors == 0 { NoMismatchLeft(lib, e); }
        forall rq | Ordinary(Retype(lib, e)) ensures Eval(lib, rq, e') == Eval(lib, rq, Retype(lib, e)) {
          OptimizePreservesMeaning(lib, rq, e);
        }
      }
      if errors > 0 { return Err; }
      r := Ok(result);
    }
  }
}
