/** The grammar of conditions, written down on its own, and that the parser
    accepts exactly the texts it derives, with the trees it derives for them. */
module Grammar {
  import opened Basics
  import opened AddressText
  import opened Expr
  import opened P = Parser

  /** How a text was derived. */
  datatype Derivation =
    | Atom(tokens: seq<Token>, node: P.Node)
    | Bang(mark: Token, operand: Derivation)
    | Group(open: Token, inner: Derivation, close: Token)
    | Infix(left: Derivation, mark: Token, right: Derivation)

  // ---------------------------------------------------------------- the rules

  /** disjunction ::= conjunction | disjunction "||" conjunction */
  predicate Disjunction(lib: Library, d: Derivation)
    decreases d, 5
  {
    || Conjunction(lib, d)
    || (d.Infix? && d.mark.kind == TokOp(Or) && Disjunction(lib, d.left) && Conjunction(lib, d.right))
  }

  /** conjunction ::= equality | conjunction "&&" equality */
  predicate Conjunction(lib: Library, d: Derivation)
    decreases d, 4
  {
    || Equality(lib, d)
    || (d.Infix? && d.mark.kind == TokOp(And) && Conjunction(lib, d.left) && Equality(lib, d.right))
  }

  /** equality ::= relation | equality ("==" | "!=") relation */
  predicate Equality(lib: Library, d: Derivation)
    decreases d, 3
  {
    || Relation(lib, d)
    || (d.Infix? && d.mark.kind in {TokOp(Eq), TokOp(Ne)} && Equality(lib, d.left) && Relation(lib, d.right))
  }

  /** relation ::= unary | relation (">" | "<" | ">=" | "<=" | "in" | "contains") unary */
  predicate Relation(lib: Library, d: Derivation)
    decreases d, 2
  {
    || Unary(lib, d)
    || (&& d.Infix? && d.mark.kind in {TokOp(Gt), TokOp(Lt), TokOp(Ge), TokOp(Le), TokOp(In), TokOp(Contains)}
        && Relation(lib, d.left) && Unary(lib, d.right))
  }

  /** unary ::= "!" unary | "(" disjunction ")" | atom */
  predicate Unary(lib: Library, d: Derivation)
    decreases d, 1
  {
    match d
    case Bang(mark, operand) => mark.kind == TokNot && Unary(lib, operand)
    case Group(open, inner, close) => open.kind == TokLParen && close.kind == TokRParen && Disjunction(lib, inner)
    case Atom(tokens, node) => IsAtom(lib, tokens, node)
    case Infix(_, _, _) => false
  }

  /** atom ::= a literal | ("principal" | "resource" | "context") "." identifier */
  predicate IsAtom(lib: Library, tokens: seq<Token>, node: P.Node) {
    || (|tokens| == 1 && Literal(lib, tokens[0], node))
    || (&& |tokens| == 3 && tokens[0].kind in {TokIdent, TokPrincipal, TokResource}
        && tokens[1].kind == TokDot && tokens[2].kind == TokIdent && node.Variable? && node.field == tokens[2].text
        && (|| (tokens[0].text == "principal" && node.scope == Principal)
            || (tokens[0].text == "resource" && node.scope == Resource)
            || (tokens[0].text == "context" && node.scope == Context)))
  }

  predicate Literal(lib: Library, t: Token, node: P.Node) {
    && node.Value?
    && match t.kind
       case TokInt => node.value.Int? && lib.parseInt(t.text) == Some(node.value.number)
       case TokString => node.value == Str(t.text)
       case TokTrue => node.value == Bool(true)
       case TokFalse => node.value == Bool(false)
       case TokIp =>
         || (node.value.Ip? && lib.parseIp(t.text) == Some(node.value.address))
         || (node.value.Net? && lib.parseIp(t.text).None? && lib.parseCidr(t.text) == Some(node.value.network))
       case _ => false
  }

  /** The text derived, token by token. */
  function Tokens(d: Derivation): seq<Token> {
    match d
    case Atom(tokens, _) => tokens
    case Bang(mark, operand) => [mark] + Tokens(operand)
    case Group(open, inner, close) => [open] + (Tokens(inner) + [close])
    case Infix(left, mark, right) => Tokens(left) + ([mark] + Tokens(right))
  }

  /** The tree derived: parentheses only group. */
  function Tree(d: Derivation): P.Node {
    match d
    case Atom(_, node) => node
    case Bang(_, operand) => Negation(Tree(operand))
    case Group(_, inner, _) => Tree(inner)
    case Infix(left, mark, right) => if mark.kind.TokOp? then Binary(mark.kind.op, Tree(left), Tree(right)) else P.Nil
  }

  /** The rules once more, as equivalences. */
  lemma Rules(lib: Library, d: Derivation)
    ensures Disjunction(lib, d) <==>
            || Conjunction(lib, d)
            || (d.Infix? && d.mark.kind == TokOp(Or) && Disjunction(lib, d.left) && Conjunction(lib, d.right))
    ensures Conjunction(lib, d) <==>
            || Equality(lib, d)
            || (d.Infix? && d.mark.kind == TokOp(And) && Conjunction(lib, d.left) && Equality(lib, d.right))
    ensures Equality(lib, d) <==>
            || Relation(lib, d)
            || (d.Infix? && d.mark.kind in {TokOp(Eq), TokOp(Ne)} && Equality(lib, d.left) && Relation(lib, d.right))
    ensures Relation(lib, d) <==>
            || Unary(lib, d)
            || (&& d.Infix? && d.mark.kind in {TokOp(Gt), TokOp(Lt), TokOp(Ge), TokOp(Le), TokOp(In), TokOp(Contains)}
                && Relation(lib, d.left) && Unary(lib, d.right))
    ensures d.Infix? ==> !Unary(lib, d)
  {
  }

  // ------------------------------------------------- levels and precedences

  /** The nonterminal whose operators have precedence `k` or more. */
  predicate At(lib: Library, d: Derivation, k: nat) {
    if k <= 2 then Disjunction(lib, d)
    else if k == 3 then Conjunction(lib, d)
    else if k == 4 then Equality(lib, d)
    else if k == 5 then Relation(lib, d)
    else Unary(lib, d)
  }

  lemma AtLower(lib: Library, d: Derivation, k: nat, j: nat)
    requires At(lib, d, k) && j <= k
    ensures At(lib, d, j)
  {
    Rules(lib, d);
    hide Disjunction;
    hide Conjunction;
    hide Equality;
    hide Relation;
    hide Unary;
  }

  /** An infix derivation is one of some operator's own level. */
  lemma InfixLevel(lib: Library, d: Derivation, k: nat)
    requires At(lib, d, k) && d.Infix?
    ensures d.mark.kind.TokOp? && k <= Precedence(d.mark.kind.op)
    ensures At(lib, d.left, Precedence(d.mark.kind.op)) && At(lib, d.right, Precedence(d.mark.kind.op) + 1)
  {
    Rules(lib, d);
    hide Disjunction;
    hide Conjunction;
    hide Equality;
    hide Relation;
    hide Unary;
  }

  lemma InfixBuilds(lib: Library, left: Derivation, mark: Token, right: Derivation)
    requires mark.kind.TokOp?
    requires At(lib, left, Precedence(mark.kind.op)) && At(lib, right, Precedence(mark.kind.op) + 1)
    ensures At(lib, Infix(left, mark, right), Precedence(mark.kind.op))
  {
    Rules(lib, Infix(left, mark, right));
    hide Disjunction;
    hide Conjunction;
    hide Equality;
    hide Relation;
    hide Unary;
  }

  lemma NotInfix(lib: Library, d: Derivation, k: nat)
    requires At(lib, d, k) && !d.Infix?
    ensures Unary(lib, d)
  {
    Rules(lib, d);
    hide Disjunction;
    hide Conjunction;
    hide Equality;
    hide Relation;
    hide Unary;
  }

  lemma {:induction false} SomeTokens(lib: Library, d: Derivation, k: nat)
    requires At(lib, d, k)
    ensures Tokens(d) != [] && !ParsesNothing(Cur(Tokens(d)))
    decreases d
  {
    if d.Infix? {
      InfixLevel(lib, d, k);
      SomeTokens(lib, d.left, Precedence(d.mark.kind.op));
    } else {
      NotInfix(lib, d, k);
    }
  }

  // ------------------------------------------------------- derived is parsed

  lemma AtomParses(lib: Library, tokens: seq<Token>, node: P.Node, t: seq<Token>)
    requires IsAtom(lib, tokens, node)
    ensures tokens != [] && ParsePrefix(lib, tokens + t) == Parsed(node, Tail(tokens, t), 0)
  {
    hide ParseExpression;
    var s := tokens + t;
    if |tokens| == 3 {
      assert Next(s) == tokens[1..] + t;
      assert Next(Next(s)) == tokens[2..] + t == Tail(tokens, t);
    } else {
      assert s == Tail(tokens, t);
    }
  }

  /** What is derived at a level parses to its tree, whatever follows that binds
      no tighter than the level. */
  lemma {:induction false} DerivedParses(lib: Library, d: Derivation, k: nat, t: seq<Token>, precedence: nat)
    requires At(lib, d, k) && LOWEST <= precedence < k <= PREFIX && Ahead(t) <= k
    ensures Tokens(d) != []
    ensures ParseExpression(lib, Tokens(d) + t, precedence)
         == ParseInfix(lib, Parsed(Tree(d), Tail(Tokens(d), t), 0), precedence)
    decreases d, 1
  {
    hide ParseExpression;
    hide ParseInfix;
    hide ParsePrefix;
    SomeTokens(lib, d, k);
    if d.Infix? {
      InfixParses(lib, d, k, t, precedence);
    } else {
      assert Unary(lib, d) by { NotInfix(lib, d, k); }
      UnaryParses(lib, d, t);
      ExpressionStarts(lib, Tokens(d) + t, precedence);
    }
  }

  lemma InfixTokens(d: Derivation, t: seq<Token>)
    requires d.Infix? && Tokens(d.right) != []
    ensures Tokens(d) + t == Tokens(d.left) + ([d.mark] + (Tokens(d.right) + t))
    ensures Tail(Tokens(d), t) == Tail(Tokens(d.right), t)
  {
    var left, right := Tokens(d.left), Tokens(d.right);
    assert Tokens(d) == left + ([d.mark] + right);
    assert (left + ([d.mark] + right)) + t == left + ([d.mark] + (right + t));
  }

  lemma {:induction false} InfixParses(lib: Library, d: Derivation, k: nat, t: seq<Token>, precedence: nat)
    requires At(lib, d, k) && d.Infix? && LOWEST <= precedence < k <= PREFIX && Ahead(t) <= k && Tokens(d) != []
    ensures ParseExpression(lib, Tokens(d) + t, precedence)
         == ParseInfix(lib, Parsed(Tree(d), Tail(Tokens(d), t), 0), precedence)
    decreases d, 0
  {
    hide ParseExpression;
    hide ParseInfix;
    hide ParsePrefix;
    hide At;
    InfixLevel(lib, d, k);
    var op := d.mark.kind.op;
    var p := Precedence(op);
    SomeTokens(lib, d.right, p + 1);
    SomeTokens(lib, d.left, p);
    InfixTokens(d, t);
    var after := [d.mark] + (Tokens(d.right) + t);
    DerivedParses(lib, d.left, p, after, precedence);
    DerivedParses(lib, d.right, p + 1, t, p);
    var left := Parsed(Tree(d.left), Tail(Tokens(d.left), after), 0);
    var right := Parsed(Tree(d.right), Tail(Tokens(d.right), t), 0);
    InfixStops(lib, right, p);
    assert Next(left.rest) == after && Next(after) == Tokens(d.right) + t;
    InfixOnce(lib, left, precedence, right);
  }

  lemma {:induction false} UnaryParses(lib: Library, d: Derivation, t: seq<Token>)
    requires Unary(lib, d)
    ensures Tokens(d) != [] && ParsePrefix(lib, Tokens(d) + t) == Parsed(Tree(d), Tail(Tokens(d), t), 0)
    decreases d, 0
  {
    hide ParseExpression;
    hide ParseInfix;
    match d
    case Atom(tokens, node) => AtomParses(lib, tokens, node, t);
    case Bang(mark, operand) => BangParses(lib, mark, operand, t);
    case Group(open, inner, close) => GroupParses(lib, open, inner, close, t);
  }

  lemma PrefixBang(lib: Library, mark: Token, s: seq<Token>, c: Parsed)
    requires mark.kind == TokNot && ParseExpression(lib, s, PREFIX) == c
    ensures ParsePrefix(lib, [mark] + s) == Parsed(Negation(c.node), c.rest, c.errors)
  {
    hide ParseInfix;
    assert Next([mark] + s) == s;
  }

  lemma {:induction false} BangParses(lib: Library, mark: Token, operand: Derivation, t: seq<Token>)
    requires mark.kind == TokNot && Unary(lib, operand)
    ensures ParsePrefix(lib, Tokens(Bang(mark, operand)) + t)
         == Parsed(Tree(Bang(mark, operand)), Tail(Tokens(Bang(mark, operand)), t), 0)
    decreases operand, 2
  {
    hide ParseExpression;
    hide ParseInfix;
    hide ParsePrefix;
    var s := Tokens(operand) + t;
    UnaryParses(lib, operand, t);
    SomeTokens(lib, operand, PREFIX);
    ExpressionStarts(lib, s, PREFIX);
    InfixStops(lib, Parsed(Tree(operand), Tail(Tokens(operand), t), 0), PREFIX);
    PrefixBang(lib, mark, s, Parsed(Tree(operand), Tail(Tokens(operand), t), 0));
    assert Tokens(Bang(mark, operand)) + t == [mark] + s;
  }

  lemma {:induction false} GroupParses(lib: Library, open: Token, inner: Derivation, close: Token, t: seq<Token>)
    requires open.kind == TokLParen && close.kind == TokRParen && Disjunction(lib, inner)
    ensures ParsePrefix(lib, Tokens(Group(open, inner, close)) + t)
         == Parsed(Tree(Group(open, inner, close)), Tail(Tokens(Group(open, inner, close)), t), 0)
    decreases inner, 2
  {
    hide ParseExpression;
    hide ParseInfix;
    var after := [close] + t;
    var s := Tokens(inner) + after;
    DerivedParses(lib, inner, 2, after, LOWEST);
    InfixStops(lib, Parsed(Tree(inner), Tail(Tokens(inner), after), 0), LOWEST);
    assert Tokens(Group(open, inner, close)) + t == [open] + s;
    assert Next([open] + s) == s;
    assert Tail(Tokens(Group(open, inner, close)), t) == after;
  }

  // ------------------------------------------------------- parsed is derived

  /** The nonterminal a parse at a precedence belongs to. */
  function LevelAbove(precedence: nat): nat {
    if precedence < PREFIX then precedence + 1 else PREFIX
  }

  lemma VariableIsAtom(lib: Library, s: seq<Token>)
    requires Cur(s) in {TokIdent, TokPrincipal, TokResource} && ParseVariable(s).errors == 0
    ensures |s| >= 3 && IsAtom(lib, s[..3], ParseVariable(s).node) && Next(ParseVariable(s).rest) == s[3..]
  {
    assert Next(Next(s)) == s[2..] && Next(Next(Next(s))) == s[3..];
    hide Literal;
  }

  lemma LiteralIsAtom(lib: Library, s: seq<Token>)
    requires Cur(s) in {TokInt, TokString, TokIp, TokTrue, TokFalse} && ParseAtom(lib, s).errors == 0
    ensures s != [] && Literal(lib, s[0], ParseAtom(lib, s).node) && ParseAtom(lib, s).rest == s
  {
    hide ParseVariable;
  }

  lemma AtomDerives(lib: Library, s: seq<Token>) returns (d: Derivation)
    requires !ParsesNothing(Cur(s)) && Cur(s) != TokNot && Cur(s) != TokLParen && ParseAtom(lib, s).errors == 0
    ensures Unary(lib, d) && Tree(d) == ParseAtom(lib, s).node && s == Tokens(d) + Next(ParseAtom(lib, s).rest)
  {
    hide ParseVariable;
    hide ParseNumber;
    hide ParseIp;
    hide Literal;
    hide Disjunction;
    var r := ParseAtom(lib, s);
    if Cur(s) in {TokIdent, TokPrincipal, TokResource} {
      VariableIsAtom(lib, s);
      d := Atom(s[..3], r.node);
      assert s == s[..3] + s[3..];
    } else {
      LiteralIsAtom(lib, s);
      d := Atom([s[0]], r.node);
      assert s == [s[0]] + s[1..];
    }
  }

  /** Whatever parses without an error is derived at the level of its precedence,
      with the tree parsed, from the tokens read. */
  lemma {:induction false} ParsedDerives(lib: Library, s: seq<Token>, precedence: nat) returns (d: Derivation)
    requires LOWEST <= precedence && ParseExpression(lib, s, precedence).errors == 0
    ensures var r := ParseExpression(lib, s, precedence);
      && At(lib, d, LevelAbove(precedence)) && Tree(d) == r.node
      && s == Tokens(d) + Next(r.rest) && PeekPrecedence(r.rest) <= precedence
    decreases |s|, 2
  {
    hide ParseExpression;
    hide ParsePrefix;
    hide ParseInfix;
    ExpressionStarts(lib, s, precedence);
    var left := ParsePrefix(lib, s);
    InfixErrors(lib, left, precedence);
    var dl := PrefixDerives(lib, s);
    d := InfixDerives(lib, s, left, precedence, dl, PREFIX);
  }

  lemma InfixErrors(lib: Library, left: Parsed, precedence: nat)
    requires LOWEST <= precedence
    ensures ParseInfix(lib, left, precedence).errors >= left.errors
  {
    hide ParseInfix;
    if left.errors > 0 { InfixNoHoles(lib, left, precedence); }
  }

  lemma GroupDerives(lib: Library, s: seq<Token>, inner: Derivation) returns (d: Derivation)
    requires Cur(s) == TokLParen && ParsePrefix(lib, s).errors == 0 && Disjunction(lib, inner)
    requires var e := ParseExpression(lib, Next(s), LOWEST); Tree(inner) == e.node && Next(s) == Tokens(inner) + Next(e.rest)
    ensures Unary(lib, d) && Tree(d) == ParsePrefix(lib, s).node && s == Tokens(d) + Next(ParsePrefix(lib, s).rest)
  {
    hide ParseExpression;
    hide ParseInfix;
    hide Disjunction;
    var close := Next(ParseExpression(lib, Next(s), LOWEST).rest);
    d := Group(s[0], inner, close[0]);
    assert close == [close[0]] + Next(close);
    GroupTokens(s, inner, close);
  }

  lemma GroupTokens(s: seq<Token>, inner: Derivation, close: seq<Token>)
    requires s != [] && close != [] && Next(s) == Tokens(inner) + close
    ensures s == Tokens(Group(s[0], inner, close[0])) + Next(close)
  {
    assert close == [close[0]] + Next(close);
    assert s == [s[0]] + (Tokens(inner) + ([close[0]] + Next(close)));
    assert [s[0]] + (Tokens(inner) + ([close[0]] + Next(close))) == ([s[0]] + (Tokens(inner) + [close[0]])) + Next(close);
  }

  lemma {:induction false} PrefixDerives(lib: Library, s: seq<Token>) returns (d: Derivation)
    requires !ParsesNothing(Cur(s)) && ParsePrefix(lib, s).errors == 0
    ensures Unary(lib, d) && Tree(d) == ParsePrefix(lib, s).node && s == Tokens(d) + Next(ParsePrefix(lib, s).rest)
    decreases |s|, 0
  {
    hide ParseExpression;
    hide ParseInfix;
    hide ParseAtom;
    hide Disjunction;
    if Cur(s) == TokNot {
      var operand := ParsedDerives(lib, Next(s), PREFIX);
      d := Bang(s[0], operand);
      assert s == [s[0]] + Next(s);
    } else if Cur(s) == TokLParen {
      var inner := ParsedDerives(lib, Next(s), LOWEST);
      d := GroupDerives(lib, s, inner);
    } else {
      d := AtomDerives(lib, s);
    }
  }

  /** One operator onto the left side, its right side derived one level up. */
  lemma Joined(lib: Library, s: seq<Token>, dl: Derivation, rest: seq<Token>, dr: Derivation, after: seq<Token>)
    requires s == Tokens(dl) + rest && rest != [] && rest[0].kind.TokOp? && Next(rest) == Tokens(dr) + after
    ensures s == Tokens(Infix(dl, rest[0], dr)) + after
  {
    assert rest == [rest[0]] + (Tokens(dr) + after);
    assert Tokens(dl) + ([rest[0]] + (Tokens(dr) + after)) == (Tokens(dl) + ([rest[0]] + Tokens(dr))) + after;
  }

  lemma {:induction false} InfixDerives(lib: Library, s: seq<Token>, left: Parsed, precedence: nat, dl: Derivation, k: nat)
    returns (d: Derivation)
    requires LOWEST <= precedence && ParseInfix(lib, left, precedence).errors == 0
    requires At(lib, dl, k) && Tree(dl) == left.node && s == Tokens(dl) + Next(left.rest)
    requires LevelAbove(precedence) <= k <= PREFIX && PeekPrecedence(left.rest) <= k
    requires |left.rest| <= |s|
    ensures var r := ParseInfix(lib, left, precedence);
      && At(lib, d, LevelAbove(precedence)) && Tree(d) == r.node
      && s == Tokens(d) + Next(r.rest) && PeekPrecedence(r.rest) <= precedence
    decreases |left.rest|, 1
  {
    hide ParseExpression;
    hide ParseInfix;
    hide At;
    if PeekPrecedence(left.rest) <= precedence {
      InfixStops(lib, left, precedence);
      AtLower(lib, dl, k, LevelAbove(precedence));
      d := dl;
    } else {
      var rest := Next(left.rest);
      var op := rest[0].kind.op;
      var p := Precedence(op);
      var right := ParseExpression(lib, Next(rest), p);
      var joined := Parsed(Binary(op, left.node, right.node), right.rest, left.errors + right.errors);
      InfixOnce(lib, left, precedence, right);
      InfixErrors(lib, joined, precedence);
      var dr := ParsedDerives(lib, Next(rest), p);
      AtLower(lib, dl, k, p);
      InfixBuilds(lib, dl, rest[0], dr);
      Joined(lib, s, dl, rest, dr, Next(right.rest));
      d := InfixDerives(lib, s, joined, precedence, Infix(dl, rest[0], dr), p);
    }
  }

  // ------------------------------------------------------------- the theorems

  /** A text derived from the grammar, followed by anything that is not an
      operator, parses to the tree derived, without an error. */
  lemma GrammarParses(lib: Library, d: Derivation, t: seq<Token>)
    requires Disjunction(lib, d) && !Cur(t).TokOp?
    ensures Tokens(d) != [] && ParseExpression(lib, Tokens(d) + t, LOWEST) == Parsed(Tree(d), Tail(Tokens(d), t), 0)
  {
    hide ParseExpression;
    DerivedParses(lib, d, 2, t, LOWEST);
    InfixStops(lib, Parsed(Tree(d), Tail(Tokens(d), t), 0), LOWEST);
  }

  /** The parser accepts a text as a whole if and only if the grammar derives it. */
  lemma ParserIsGrammar(lib: Library, s: seq<Token>)
    ensures (var r := ParseExpression(lib, s, LOWEST); r.errors == 0 && Next(r.rest) == [])
       <==> exists d :: Disjunction(lib, d) && Tokens(d) == s
    ensures forall d :: Disjunction(lib, d) && Tokens(d) == s ==> ParseExpression(lib, s, LOWEST).node == Tree(d)
  {
    hide ParseExpression;
    hide Disjunction;
    var r := ParseExpression(lib, s, LOWEST);
    if r.errors == 0 && Next(r.rest) == [] {
      var d := ParsedDerives(lib, s, LOWEST);
      assert Tokens(d) + [] == Tokens(d);
    }
    forall d | Disjunction(lib, d) && Tokens(d) == s ensures r.errors == 0 && Next(r.rest) == [] && r.node == Tree(d) {
      GrammarParses(lib, d, []);
      assert Tokens(d) + [] == Tokens(d);
    }
  }

  /** No text has two trees. */
  lemma OneTree(lib: Library, d: Derivation, e: Derivation)
    requires Disjunction(lib, d) && Disjunction(lib, e) && Tokens(d) == Tokens(e)
    ensures Tree(d) == Tree(e)
  {
    GrammarParses(lib, d, []);
    GrammarParses(lib, e, []);
  }
}
