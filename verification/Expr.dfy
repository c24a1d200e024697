/** Policy conditions: the typed expression tree and what it evaluates to. */
module Expr {
  import opened Basics
  import opened AddressText

  datatype Network = Network(base: Address, mask: seq<int>)

  datatype ValueType = StringType | IntType | BoolType | IpType | NetType | TimeType

  datatype Value =
    | Str(text: string)
    | Int(number: Int64)
    | Bool(flag: bool)
    | Ip(address: Address)
    | Net(network: Network)
    | Time(instant: Int64)

  datatype Scope = Principal | Resource | Context

  datatype Op = And | Or | Eq | Ne | Gt | Lt | Ge | Le | In | Contains

  datatype Expr =
    | Lit(value: Value)
    | Var(scope: Scope, field: string)
    | Not(child: Expr)
    | Neg(child: Expr)
    | Bin(op: Op, left: Expr, right: Expr)

  /** The deterministic library calls that the compiler and evaluator make.
      The compiler and the evaluator read times with different functions. */
  datatype Library = Library(
    parseIp: string -> Option<Address>,
    parseCidr: string -> Option<Network>,
    literalTime: string -> Option<Int64>,
    readTime: string -> Option<Int64>,
    parseInt: string -> Option<Int64>,
    parseBool: string -> Option<bool>,
    sameIp: (Address, Address) -> bool,
    covers: (Network, Address) -> bool,
    listed: (string, string) -> bool)

  /** What a condition is evaluated against. */
  datatype Request = Request(
    subject: string,
    resource: string,
    attributes: map<string, string>,
    descends: (string, string) -> bool)

  datatype Failure = Missing | Malformed | Unsupported

  datatype Outcome = Yields(value: Value) | Fails(why: Failure)

  const TRUE := Yields(Bool(true))
  const FALSE := Yields(Bool(false))

  function TypeOf(v: Value): ValueType {
    match v
    case Str(_) => StringType
    case Int(_) => IntType
    case Bool(_) => BoolType
    case Ip(_) => IpType
    case Net(_) => NetType
    case Time(_) => TimeType
  }

  /** Negation of a 64-bit integer: the smallest one is its own negative. */
  function Negate(n: Int64): Int64 {
    if n == -0x8000_0000_0000_0000 then n else -n
  }

  /** Strings compare by their first difference, and a proper prefix is smaller. */
  function Compare(s: string, t: string): int {
    if s == [] then (if t == [] then 0 else -1)
    else if t == [] then 1
    else if s[0] != t[0] then (if s[0] < t[0] then -1 else 1)
    else Compare(s[1..], t[1..])
  }

  function CompareInts(m: int, n: int): int {
    if m > n then 1 else if m < n then -1 else 0
  }

  /** The order of two values of one ordered type. */
  function Order(x: Value, y: Value): Option<int> {
    match (x, y)
    case (Int(m), Int(n)) => Some(CompareInts(m, n))
    case (Time(m), Time(n)) => Some(CompareInts(m, n))
    case (Str(s), Str(t)) => Some(Compare(s, t))
    case _ => None
  }

  /** The evaluator's equality; networks are never equal. */
  predicate SameValue(lib: Library, x: Value, y: Value) {
    match (x, y)
    case (Str(s), Str(t)) => s == t
    case (Int(m), Int(n)) => m == n
    case (Time(m), Time(n)) => m == n
    case (Bool(a), Bool(b)) => a == b
    case (Ip(a), Ip(b)) => lib.sameIp(a, b)
    case _ => false
  }

  predicate Relational(op: Op) {
    op in {Gt, Lt, Ge, Le}
  }

  predicate Satisfies(op: Op, order: int)
    requires Relational(op)
  {
    match op
    case Gt => order > 0
    case Lt => order < 0
    case Ge => order >= 0
    case Le => order <= 0
  }

  function TrimRole(s: string): string {
    if "role:" <= s then s[5..] else s
  }

  function Relate(lib: Library, rq: Request, op: Op, x: Value, y: Value): Outcome
    requires !op.And? && !op.Or?
  {
    match op
    case Eq => Yields(Bool(SameValue(lib, x, y)))
    case Ne => Yields(Bool(!SameValue(lib, x, y)))
    case In =>
      (match (x, y)
       case (Ip(a), Net(n)) => Yields(Bool(lib.covers(n, a)))
       case (Str(s), Str(t)) => Yields(Bool(rq.descends(TrimRole(s), TrimRole(t))))
       case _ => Fails(Unsupported))
    case Contains =>
      (match (x, y)
       case (Str(s), Str(t)) => Yields(Bool(lib.listed(s, t)))
       case _ => Fails(Unsupported))
    case Gt | Lt | Ge | Le =>
      match Order(x, y)
      case Some(order) => Yields(Bool(Satisfies(op, order)))
      case None => Fails(Unsupported)
  }

  /** An attribute's text read as a value of the expected type. */
  function ReadAs(lib: Library, text: string, t: ValueType): Outcome {
    match t
    case StringType => Yields(Str(text))
    case IntType => (match lib.parseInt(text) case Some(n) => Yields(Int(n)) case None => Fails(Malformed))
    case BoolType => (match lib.parseBool(text) case Some(b) => Yields(Bool(b)) case None => Fails(Malformed))
    case IpType => (match ReadIp(lib.parseIp, text) case Some(a) => Yields(Ip(a)) case None => Fails(Malformed))
    case NetType => (match lib.parseCidr(text) case Some(n) => Yields(Net(n)) case None => Fails(Malformed))
    case TimeType => (match lib.readTime(text) case Some(n) => Yields(Time(n)) case None => Fails(Malformed))
  }

  /** principal.id and resource.id come from the request, not its attributes. */
  predicate Identity(scope: Scope, field: string) {
    field == "id" && !scope.Context?
  }

  function At(attributes: map<string, string>, key: string): Option<string> {
    if key in attributes then Some(attributes[key]) else None
  }

  /** Principal and resource attributes need their namespace; context ones may be bare. */
  function TextOf(rq: Request, scope: Scope, field: string): Option<string> {
    match scope
    case Principal => At(rq.attributes, "principal." + field)
    case Resource => At(rq.attributes, "resource." + field)
    case Context => if field in rq.attributes then At(rq.attributes, field) else At(rq.attributes, "context." + field)
  }

  function Attribute(lib: Library, rq: Request, scope: Scope, field: string, t: ValueType): Outcome {
    if Identity(scope, field) then Yields(Str(if scope.Principal? then rq.subject else rq.resource))
    else match TextOf(rq, scope, field)
      case Some(text) => ReadAs(lib, text, t)
      case None => Fails(Missing)
  }

  /** The type a compared variable is read as. */
  function Expected(op: Op, right: Expr): ValueType {
    var t := if right.Lit? then TypeOf(right.value) else StringType;
    if op.In? && t.NetType? then IpType else t
  }

  function Both(x: Outcome, y: Outcome): Outcome {
    if x.Fails? then FALSE
    else if !x.value.Bool? then Fails(Unsupported)
    else if !x.value.flag || y.Fails? then FALSE
    else if !y.value.Bool? then Fails(Unsupported)
    else y
  }

  function Either(x: Outcome, y: Outcome): Outcome {
    if x == TRUE then TRUE
    else if y.Fails? then FALSE
    else if !y.value.Bool? then Fails(Unsupported)
    else y
  }

  function Eval(lib: Library, rq: Request, e: Expr): Outcome {
    match e
    case Lit(v) => Yields(v)
    case Var(scope, field) => Attribute(lib, rq, scope, field, StringType)
    case Not(c) =>
      var x := Eval(lib, rq, c);
      if x.Fails? then x else if x.value.Bool? then Yields(Bool(!x.value.flag)) else Fails(Unsupported)
    case Neg(c) =>
      var x := Eval(lib, rq, c);
      if x.Fails? then x else if x.value.Int? then Yields(Int(Negate(x.value.number))) else Fails(Unsupported)
    case Bin(And, l, r) => Both(Eval(lib, rq, l), Eval(lib, rq, r))
    case Bin(Or, l, r) => Either(Eval(lib, rq, l), Eval(lib, rq, r))
    case Bin(op, l, r) =>
      var x := if l.Var? then Attribute(lib, rq, l.scope, l.field, Expected(op, r)) else Eval(lib, rq, l);
      Compared(lib, rq, op, x, Eval(lib, rq, r))
  }

  /** A comparison with a failed operand is false. */
  function Compared(lib: Library, rq: Request, op: Op, x: Outcome, y: Outcome): Outcome
    requires !op.And? && !op.Or?
  {
    if x.Fails? || y.Fails? then FALSE else Relate(lib, rq, op, x.value, y.value)
  }
}
