/** The Pratt parser for policy conditions, as functions on the tokens from the
    current one on, and a printer that it inverts. */
module Parser {
  import opened Basics
  import opened AddressText
  import opened Expr

  datatype Kind =
    | TokEof | TokIllegal | TokIdent | TokInt | TokString | TokIp
    | TokPermit | TokForbid | TokPrincipal | TokAction | TokResource | TokAny | TokWhen | TokUnless
    | TokObligation | TokTrue | TokFalse
    | TokOp(op: Op) | TokNot | TokDot
    | TokComma | TokColon | TokSemicolon | TokLParen | TokRParen | TokLBrace | TokRBrace

  datatype Token = Token(kind: Kind, text: string)

  /** A parsed tree; Nil stands where an error left nothing. */
  datatype Node =
    | Nil
    | Value(value: Value)
    | Variable(scope: Scope, field: string)
    | Negation(child: Node)
    | Binary(op: Op, left: Node, right: Node)

  predicate Complete(n: Node) {
    match n
    case Nil => false
    case Value(_) => true
    case Variable(_, _) => true
    case Negation(c) => Complete(c)
    case Binary(_, l, r) => Complete(l) && Complete(r)
  }

  const LOWEST: nat := 1
  const PREFIX: nat := 6

  function Precedence(op: Op): (p: nat)
    ensures LOWEST < p < PREFIX
  {
    match op
    case Or => 2
    case And => 3
    case Eq => 4
    case Ne => 4
    case _ => 5
  }

  // ----------------------------------------------------------------- tokens

  function Cur(s: seq<Token>): Kind {
    if s == [] then TokEof else s[0].kind
  }

  function Text(s: seq<Token>): string {
    if s == [] then "" else s[0].text
  }

  function Next(s: seq<Token>): (r: seq<Token>)
    ensures |r| <= |s| && (s != [] ==> |r| < |s|)
  {
    if s == [] then [] else s[1..]
  }

  function Peek(s: seq<Token>): Kind {
    Cur(Next(s))
  }

  function PeekPrecedence(s: seq<Token>): nat {
    Ahead(Next(s))
  }

  /** The precedence of the first token. */
  function Ahead(s: seq<Token>): nat {
    if Cur(s).TokOp? then Precedence(Cur(s).op) else LOWEST
  }

  // ---------------------------------------------------------------- parsing

  /** What was parsed, the tokens from its last one on, and the errors found. */
  datatype Parsed = Parsed(node: Node, rest: seq<Token>, errors: nat)

  function ParseNumber(lib: Library, s: seq<Token>): Parsed {
    var n := lib.parseInt(Text(s));
    if n.Some? then Parsed(Value(Int(n.value)), s, 0) else Parsed(Nil, s, 1)
  }

  function ParseIp(lib: Library, s: seq<Token>): Parsed {
    if lib.parseIp(Text(s)).Some? then Parsed(Value(Ip(lib.parseIp(Text(s)).value)), s, 0)
    else if lib.parseCidr(Text(s)).Some? then Parsed(Value(Net(lib.parseCidr(Text(s)).value)), s, 0)
    else Parsed(Nil, s, 1)
  }

  function ScopeOf(text: string): Option<Scope> {
    if text == "principal" then Some(Principal)
    else if text == "resource" then Some(Resource)
    else if text == "context" then Some(Context)
    else None
  }

  function ParseVariable(s: seq<Token>): (r: Parsed)
    ensures |r.rest| <= |s|
  {
    var scope := ScopeOf(Text(s));
    if scope.None? then Parsed(Nil, s, 1)
    else if Peek(s) != TokDot then Parsed(Nil, s, 1)
    else if Peek(Next(s)) != TokIdent then Parsed(Nil, Next(s), 1)
    else Parsed(Variable(scope.value, Text(Next(Next(s)))), Next(Next(s)), 0)
  }

  /** The expressions of a few tokens. */
  function ParseAtom(lib: Library, s: seq<Token>): (r: Parsed)
    ensures |r.rest| <= |s|
  {
    match Cur(s)
    case TokInt => ParseNumber(lib, s)
    case TokString => Parsed(Value(Str(Text(s))), s, 0)
    case TokIp => ParseIp(lib, s)
    case TokTrue => Parsed(Value(Bool(true)), s, 0)
    case TokFalse => Parsed(Value(Bool(false)), s, 0)
    case _ => ParseVariable(s)
  }

  /** What can begin an expression. */
  function ParsePrefix(lib: Library, s: seq<Token>): (r: Parsed)
    ensures |r.rest| <= |s|
    decreases |s|, 0
  {
    if Cur(s) == TokNot then
      var c := ParseExpression(lib, Next(s), PREFIX);
      Parsed(Negation(c.node), c.rest, c.errors)
    else if Cur(s) == TokLParen then
      var e := ParseExpression(lib, Next(s), LOWEST);
      if Peek(e.rest) == TokRParen then Parsed(e.node, Next(e.rest), e.errors)
      else Parsed(Nil, e.rest, e.errors + 1)
    else ParseAtom(lib, s)
  }

  function ParseExpression(lib: Library, s: seq<Token>, precedence: nat): (r: Parsed)
    requires LOWEST <= precedence
    ensures |r.rest| <= |s|
    decreases |s|, 2
  {
    if ParsesNothing(Cur(s)) then Parsed(Nil, s, 1)
    else ParseInfix(lib, ParsePrefix(lib, s), precedence)
  }

  /** Kinds without a prefix parser. */
  predicate ParsesNothing(k: Kind) {
    k !in {TokIdent, TokPrincipal, TokResource, TokInt, TokString, TokIp, TokTrue, TokFalse, TokNot, TokLParen}
  }

  /** While the next operator binds tighter, what was parsed becomes its left side. */
  function ParseInfix(lib: Library, left: Parsed, precedence: nat): (r: Parsed)
    requires LOWEST <= precedence
    ensures |r.rest| <= |left.rest|
    decreases |left.rest|, 1
  {
    if PeekPrecedence(left.rest) <= precedence then left
    else
      var op := Peek(left.rest).op;
      var right := ParseExpression(lib, Next(Next(left.rest)), Precedence(op));
      ParseInfix(lib, Parsed(Binary(op, left.node, right.node), right.rest, left.errors + right.errors), precedence)
  }

  lemma ExpressionStarts(lib: Library, s: seq<Token>, precedence: nat)
    requires LOWEST <= precedence
    ensures ParseExpression(lib, s, precedence)
         == if ParsesNothing(Cur(s)) then Parsed(Nil, s, 1) else ParseInfix(lib, ParsePrefix(lib, s), precedence)
  {
  }

  /** One operator and its right side read onto the left side. */
  lemma InfixOnce(lib: Library, left: Parsed, precedence: nat, right: Parsed)
    requires LOWEST <= precedence < PeekPrecedence(left.rest)
    requires right == ParseExpression(lib, Next(Next(left.rest)), Precedence(Peek(left.rest).op))
    ensures ParseInfix(lib, left, precedence)
         == ParseInfix(lib, Parsed(Binary(Peek(left.rest).op, left.node, right.node), right.rest,
                                   left.errors + right.errors), precedence)
  {
    hide ParsePrefix;
  }

  /** Without errors nothing is missing from the tree. */
  lemma {:induction false} NoErrorsNoHoles(lib: Library, s: seq<Token>, precedence: nat)
    requires LOWEST <= precedence
    ensures ParseExpression(lib, s, precedence).errors == 0 ==> Complete(ParseExpression(lib, s, precedence).node)
    decreases |s|, 2
  {
    if !ParsesNothing(Cur(s)) {
      PrefixNoHoles(lib, s);
      InfixNoHoles(lib, ParsePrefix(lib, s), precedence);
    }
  }

  lemma {:induction false} PrefixNoHoles(lib: Library, s: seq<Token>)
    ensures ParsePrefix(lib, s).errors == 0 ==> Complete(ParsePrefix(lib, s).node)
    decreases |s|, 0
  {
    if Cur(s) == TokNot {
      NoErrorsNoHoles(lib, Next(s), PREFIX);
    } else if Cur(s) == TokLParen {
      NoErrorsNoHoles(lib, Next(s), LOWEST);
    }
  }

  lemma {:induction false} InfixNoHoles(lib: Library, left: Parsed, precedence: nat)
    requires LOWEST <= precedence
    requires left.errors == 0 ==> Complete(left.node)
    ensures ParseInfix(lib, left, precedence).errors >= left.errors
    ensures ParseInfix(lib, left, precedence).errors == 0 ==> Complete(ParseInfix(lib, left, precedence).node)
    decreases |left.rest|, 1
  {
    if PeekPrecedence(left.rest) > precedence {
      var op := Peek(left.rest).op;
      NoErrorsNoHoles(lib, Next(Next(left.rest)), Precedence(op));
      var right := ParseExpression(lib, Next(Next(left.rest)), Precedence(op));
      InfixNoHoles(lib, Parsed(Binary(op, left.node, right.node), right.rest, left.errors + right.errors), precedence);
    }
  }

  // --------------------------------------------------------------- printing

  /** How literal values are written. */
  datatype Lexicon = Lexicon(number: Int64 -> string, address: Address -> string, network: Network -> string)

  /** A value the grammar can write, and that reads back as itself. */
  predicate Writable(lib: Library, lex: Lexicon, v: Value) {
    match v
    case Str(_) => true
    case Bool(_) => true
    case Int(n) => lib.parseInt(lex.number(n)) == Some(n)
    case Ip(a) => lib.parseIp(lex.address(a)) == Some(a)
    case Net(n) => lib.parseIp(lex.network(n)) == None && lib.parseCidr(lex.network(n)) == Some(n)
    case Time(_) => false
  }

  /** The trees the grammar can express: it has no unary minus. */
  predicate Expressible(lib: Library, lex: Lexicon, e: Expr) {
    match e
    case Lit(v) => Writable(lib, lex, v)
    case Var(_, _) => true
    case Not(c) => Expressible(lib, lex, c)
    case Neg(_) => false
    case Bin(_, l, r) => Expressible(lib, lex, l) && Expressible(lib, lex, r)
  }

  function NodeOf(e: Expr): Node {
    match e
    case Lit(v) => Value(v)
    case Var(scope, field) => Variable(scope, field)
    case Not(c) => Negation(NodeOf(c))
    case Neg(c) => Nil
    case Bin(op, l, r) => Binary(op, NodeOf(l), NodeOf(r))
  }

  function ShowValue(lex: Lexicon, v: Value): Token {
    match v
    case Str(text) => Token(TokString, text)
    case Bool(b) => if b then Token(TokTrue, "true") else Token(TokFalse, "false")
    case Int(n) => Token(TokInt, lex.number(n))
    case Ip(a) => Token(TokIp, lex.address(a))
    case Net(n) => Token(TokIp, lex.network(n))
    case Time(_) => Token(TokIllegal, "")
  }

  function ShowScope(scope: Scope): Token {
    match scope
    case Principal => Token(TokPrincipal, "principal")
    case Resource => Token(TokResource, "resource")
    case Context => Token(TokIdent, "context")
  }

  /** How tightly a printed expression holds together. */
  function Tightness(e: Expr): nat {
    if e.Bin? then Precedence(e.op) else PREFIX + 1
  }

  function Bare(lex: Lexicon, e: Expr): (s: seq<Token>)
    ensures s != []
    decreases e, 0
  {
    match e
    case Lit(v) => [ShowValue(lex, v)]
    case Var(scope, field) => [ShowScope(scope), Token(TokDot, "."), Token(TokIdent, field)]
    case Not(c) => [Token(TokNot, "!")] + Show(lex, c, PREFIX)
    case Neg(c) => [Token(TokIllegal, "-")] + Show(lex, c, PREFIX)
    case Bin(op, l, r) =>
      Show(lex, l, Precedence(op) - 1) + [Token(TokOp(op), "")] + Show(lex, r, Precedence(op))
  }

  /** Printed under an operator of the given precedence; parenthesised only if
      it holds together no tighter than that. */
  function Show(lex: Lexicon, e: Expr, precedence: nat): (s: seq<Token>)
    ensures s != []
    decreases e, 1
  {
    if Tightness(e) > precedence then Bare(lex, e)
    else [Token(TokLParen, "(")] + Bare(lex, e) + [Token(TokRParen, ")")]
  }

  // ------------------------------------------------------------- round trip

  /** The tokens from the last one printed on. */
  function Tail(printed: seq<Token>, t: seq<Token>): (r: seq<Token>)
    requires printed != []
    ensures Next(r) == t
  {
    [printed[|printed| - 1]] + t
  }

  lemma PrefixOfLit(lib: Library, lex: Lexicon, v: Value, t: seq<Token>)
    requires Writable(lib, lex, v)
    ensures !ParsesNothing(ShowValue(lex, v).kind)
    ensures ParsePrefix(lib, [ShowValue(lex, v)] + t) == Parsed(Value(v), [ShowValue(lex, v)] + t, 0)
  {
  }

  lemma PrefixOfVar(lib: Library, scope: Scope, field: string, t: seq<Token>)
    ensures var s := [ShowScope(scope), Token(TokDot, "."), Token(TokIdent, field)];
      ParsePrefix(lib, s + t) == Parsed(Variable(scope, field), Tail(s, t), 0) && !ParsesNothing(Cur(s + t))
  {
    hide ParseExpression;
    hide ParseIp;
    hide ParseNumber;
    var s := [ShowScope(scope), Token(TokDot, "."), Token(TokIdent, field)];
    assert Next(s + t) == s[1..] + t;
    assert Next(Next(s + t)) == s[2..] + t == Tail(s, t);
    assert Text(Next(Next(s + t))) == field;
  }

  lemma PrefixOfNot(lib: Library, s: seq<Token>, c: Parsed)
    requires ParseExpression(lib, s, PREFIX) == c
    ensures ParsePrefix(lib, [Token(TokNot, "!")] + s) == Parsed(Negation(c.node), c.rest, c.errors)
  {
    assert Next([Token(TokNot, "!")] + s) == s;
  }

  lemma PrefixOfParens(lib: Library, s: seq<Token>, e: Parsed)
    requires ParseExpression(lib, s, LOWEST) == e && Peek(e.rest) == TokRParen
    ensures ParsePrefix(lib, [Token(TokLParen, "(")] + s) == Parsed(e.node, Next(e.rest), e.errors)
  {
    assert Next([Token(TokLParen, "(")] + s) == s;
  }

  lemma InfixStep(lib: Library, left: Parsed, op: Op, s: seq<Token>, right: Parsed, precedence: nat)
    requires LOWEST <= precedence < Precedence(op)
    requires Next(left.rest) == [Token(TokOp(op), "")] + s
    requires ParseExpression(lib, s, Precedence(op)) == right
    ensures ParseInfix(lib, left, precedence)
         == ParseInfix(lib, Parsed(Binary(op, left.node, right.node), right.rest, left.errors + right.errors), precedence)
  {
    hide ParseExpression;
    hide ParseInfix;
    assert Next(Next(left.rest)) == s;
    InfixOnce(lib, left, precedence, right);
  }

  lemma InfixStops(lib: Library, left: Parsed, precedence: nat)
    requires LOWEST <= precedence && Ahead(Next(left.rest)) <= precedence
    ensures ParseInfix(lib, left, precedence) == left
  {
    hide ParseExpression;
  }

  lemma BinTokens(lex: Lexicon, op: Op, l: Expr, r: Expr, t: seq<Token>)
    ensures var left, right := Show(lex, l, Precedence(op) - 1), Show(lex, r, Precedence(op));
      && Bare(lex, Bin(op, l, r)) + t == left + ([Token(TokOp(op), "")] + (right + t))
      && Tail(Bare(lex, Bin(op, l, r)), t) == Tail(right, t)
  {
    hide Show;
    var left, right := Show(lex, l, Precedence(op) - 1), Show(lex, r, Precedence(op));
    var middle := [Token(TokOp(op), "")];
    assert Bare(lex, Bin(op, l, r)) == left + middle + right;
    assert (left + middle + right) + t == left + (middle + (right + t));
    assert (left + middle + right)[|left + middle + right| - 1] == right[|right| - 1];
  }

  lemma ParensTokens(lex: Lexicon, e: Expr, outer: nat, t: seq<Token>)
    requires Tightness(e) <= outer
    ensures var close := [Token(TokRParen, ")")] + t;
      && Show(lex, e, outer) + t == [Token(TokLParen, "(")] + (Bare(lex, e) + close)
      && Tail(Show(lex, e, outer), t) == close
  {
  }

  /** Parsing a printed tree comes to having that tree as the left side, with
      the rest of the tokens still to be read. */
  lemma {:induction false} BareParses(lib: Library, lex: Lexicon, e: Expr, t: seq<Token>, precedence: nat)
    requires Expressible(lib, lex, e)
    requires LOWEST <= precedence < Tightness(e) && Ahead(t) <= Tightness(e)
    ensures ParseExpression(lib, Bare(lex, e) + t, precedence)
         == ParseInfix(lib, Parsed(NodeOf(e), Tail(Bare(lex, e), t), 0), precedence)
    decreases e, 2
  {
    match e
    case Lit(v) => PrefixOfLit(lib, lex, v, t);
    case Var(scope, field) => PrefixOfVar(lib, scope, field, t);
    case Not(c) => BareNotParses(lib, lex, c, t, precedence);
    case Bin(op, l, r) => BareBinParses(lib, lex, op, l, r, t, precedence);
  }

  lemma {:induction false} BareNotParses(lib: Library, lex: Lexicon, c: Expr, t: seq<Token>, precedence: nat)
    requires Expressible(lib, lex, c) && LOWEST <= precedence
    ensures ParseExpression(lib, Bare(lex, Not(c)) + t, precedence)
         == ParseInfix(lib, Parsed(NodeOf(Not(c)), Tail(Bare(lex, Not(c)), t), 0), precedence)
    decreases Not(c), 1
  {
    hide ParseExpression;
    hide ParseInfix;
    hide ParsePrefix;
    var inner := Show(lex, c, PREFIX);
    var whole := Bare(lex, Not(c)) + t;
    ShowParses(lib, lex, c, t, PREFIX, PREFIX);
    InfixStops(lib, Parsed(NodeOf(c), Tail(inner, t), 0), PREFIX);
    PrefixOfNot(lib, inner + t, Parsed(NodeOf(c), Tail(inner, t), 0));
    assert whole == [Token(TokNot, "!")] + (inner + t);
    ExpressionStarts(lib, whole, precedence);
  }

  lemma {:induction false} BareBinParses(lib: Library, lex: Lexicon, op: Op, l: Expr, r: Expr, t: seq<Token>, precedence: nat)
    requires Expressible(lib, lex, l) && Expressible(lib, lex, r)
    requires LOWEST <= precedence < Precedence(op) && Ahead(t) <= Precedence(op)
    ensures ParseExpression(lib, Bare(lex, Bin(op, l, r)) + t, precedence)
         == ParseInfix(lib, Parsed(NodeOf(Bin(op, l, r)), Tail(Bare(lex, Bin(op, l, r)), t), 0), precedence)
    decreases Bin(op, l, r), 1
  {
    hide ParseExpression;
    hide ParseInfix;
    hide Bare;
    hide Show;
    var p := Precedence(op);
    var left, right := Show(lex, l, p - 1), Show(lex, r, p);
    var after := [Token(TokOp(op), "")] + (right + t);
    BinTokens(lex, op, l, r, t);
    ShowParses(lib, lex, l, after, p - 1, precedence);
    ShowParses(lib, lex, r, t, p, p);
    InfixStops(lib, Parsed(NodeOf(r), Tail(right, t), 0), p);
    InfixStep(lib, Parsed(NodeOf(l), Tail(left, after), 0), op, right + t, Parsed(NodeOf(r), Tail(right, t), 0), precedence);
  }

  lemma {:induction false} ShowParses(lib: Library, lex: Lexicon, e: Expr, t: seq<Token>, outer: nat, precedence: nat)
    requires Expressible(lib, lex, e)
    requires LOWEST <= precedence <= outer <= PREFIX && Ahead(t) <= outer + 1
    ensures ParseExpression(lib, Show(lex, e, outer) + t, precedence)
         == ParseInfix(lib, Parsed(NodeOf(e), Tail(Show(lex, e, outer), t), 0), precedence)
    decreases e, 3
  {
    if Tightness(e) > outer {
      BareParses(lib, lex, e, t, precedence);
    } else {
      var inner := Bare(lex, e);
      var close := [Token(TokRParen, ")")] + t;
      BareParses(lib, lex, e, close, LOWEST);
      InfixStops(lib, Parsed(NodeOf(e), Tail(inner, close), 0), LOWEST);
      PrefixOfParens(lib, inner + close, Parsed(NodeOf(e), Tail(inner, close), 0));
      ParensTokens(lex, e, outer, t);
    }
  }

  /** Every expressible condition, printed with parentheses only where needed
      and followed by anything that is not an operator, parses back to itself. */
  lemma RoundTrip(lib: Library, lex: Lexicon, e: Expr, t: seq<Token>)
    requires Expressible(lib, lex, e) && !Cur(t).TokOp?
    ensures ParseExpression(lib, Show(lex, e, LOWEST) + t, LOWEST)
         == Parsed(NodeOf(e), Tail(Show(lex, e, LOWEST), t), 0)
    ensures Complete(NodeOf(e))
  {
    ShowParses(lib, lex, e, t, LOWEST, LOWEST);
    NoErrorsNoHoles(lib, Show(lex, e, LOWEST) + t, LOWEST);
  }
}
