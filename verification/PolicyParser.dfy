/** Whole policy statements: the parser as an object that reads token after
    token, proved against functions, and the statement round trip. */
module PolicyParser {
  import opened Basics
  import opened Expr
  import opened PolicyTrie
  import opened P = Parser

  datatype Obligation = Obligation(kind: string, message: string)

  datatype Statement = Statement(
    effect: Effect,
    principal: ScopeNode,
    action: ScopeNode,
    resource: ScopeNode,
    condition: Option<P.Node>,
    unless: bool,
    obligations: seq<Obligation>)

  /** A stage of parsing: a value or nothing, the tokens from the current one on,
      and the errors recorded. */
  datatype Stage<T> = Stage(value: Option<T>, rest: seq<Token>, errors: nat)

  /** The end of a stage that records an error and gives up. */
  function Fail<T>(s: seq<Token>): Stage<T> {
    Stage(None, s, 1)
  }

  function ParseScope(s: seq<Token>, keyword: Kind): (r: Stage<ScopeNode>)
    ensures |r.rest| <= |s|
    ensures r.value.None? <==> r.errors > 0
  {
    if Cur(s) != keyword then Fail(s)
    else if Peek(s) != TokOp(Eq) && Peek(s) != TokOp(In) then Fail(s)
    else
      var op := if Peek(s) == TokOp(Eq) then Equals else Within;
      var v := Next(Next(s));
      if Cur(v) == TokAny then Stage(Some(ScopeNode(ScopeOp.Any, "", "")), v, 0)
      else if Cur(v) !in {TokIdent, TokPrincipal, TokAction, TokResource} then Fail(v)
      else if Peek(v) != TokColon then Fail(v)
      else if Peek(Next(v)) !in {TokString, TokIdent} then Fail(Next(v))
      else Stage(Some(ScopeNode(op, Text(v), Text(Next(Next(v))))), Next(Next(v)), 0)
  }

  /** A scope clause after the given punctuation. */
  function ParseScopeAfter(s: seq<Token>, punctuation: Kind, keyword: Kind): (r: Stage<ScopeNode>)
    ensures |r.rest| <= |s|
    ensures r.value.None? <==> r.errors > 0
  {
    if Peek(s) != punctuation then Fail(s) else ParseScope(Next(Next(s)), keyword)
  }

  /** One obligation, from its keyword on: a kind and perhaps a message. */
  function ParseObligation(s: seq<Token>): (r: Stage<Obligation>)
    ensures |r.rest| <= |s|
    ensures r.value.None? <==> r.errors > 0
  {
    if Peek(s) != TokIdent then Fail(s)
    else
      var kind := Next(s);
      if Peek(kind) == TokString then Stage(Some(Obligation(Text(kind), Text(Next(kind)))), Next(kind), 0)
      else Stage(Some(Obligation(Text(kind), "")), kind, 0)
  }

  function ParseObligations(s: seq<Token>): (r: Stage<seq<Obligation>>)
    ensures |r.rest| <= |s|
    ensures r.value.None? <==> r.errors > 0
    decreases |s|
  {
    if Peek(s) != TokObligation then Stage(Some([]), s, 0)
    else
      var o := ParseObligation(Next(s));
      if o.value.None? then Stage(None, o.rest, o.errors)
      else
        var more := ParseObligations(o.rest);
        if more.value.None? then more else more.(value := Some([o.value.value] + more.value.value))
  }

  /** An optional when or unless clause: the condition and whether it is unless. */
  function ParseClause(lib: Library, s: seq<Token>): (r: Stage<(Option<P.Node>, bool)>)
    ensures |r.rest| <= |s|
    ensures r.errors == 0 ==> r.value.Some? && (r.value.value.0.Some? ==> Complete(r.value.value.0.value))
  {
    if Peek(s) != TokWhen && Peek(s) != TokUnless then Stage(Some((None, false)), s, 0)
    else
      var w := Next(s);
      if Peek(w) != TokLBrace then Fail(w)
      else
        var e := ParseExpression(lib, Next(Next(w)), LOWEST);
        NoErrorsNoHoles(lib, Next(Next(w)), LOWEST);
        if e.node.Nil? then Stage(None, e.rest, e.errors)
        else if Peek(e.rest) != TokRBrace then Stage(None, e.rest, e.errors + 1)
        else Stage(Some((Some(e.node), Cur(w) == TokUnless)), Next(e.rest), e.errors)
  }

  /** Everything after the scope clauses. */
  function ParseTail(lib: Library, effect: Effect, p: ScopeNode, a: ScopeNode, r: ScopeNode, s: seq<Token>)
    : (q: Stage<Statement>)
    ensures |q.rest| <= |s|
    ensures q.errors == 0 ==> q.value.Some? && Sound(q.value.value)
  {
    if Peek(s) != TokRParen then Fail(s)
    else
      var clause := ParseClause(lib, Next(s));
      if clause.value.None? then Stage(None, clause.rest, clause.errors)
      else
        var more := ParseObligations(clause.rest);
        var errors := clause.errors + more.errors;
        if more.value.None? then Stage(None, more.rest, errors)
        else if Peek(more.rest) != TokSemicolon then Stage(None, more.rest, errors + 1)
        else
          var (condition, unless) := clause.value.value;
          Stage(Some(Statement(effect, p, a, r, condition, unless, more.value.value)), Next(more.rest), errors)
  }

  /** Without errors there is a statement with nothing missing from it. */
  function ParsePolicy(lib: Library, s: seq<Token>): (q: Stage<Statement>)
    ensures |q.rest| <= |s|
    ensures q.errors == 0 ==> q.value.Some? && Sound(q.value.value)
  {
    if Cur(s) != TokPermit && Cur(s) != TokForbid then Fail(s)
    else
      var p := ParseScopeAfter(s, TokLParen, TokPrincipal);
      if p.value.None? then Stage(None, p.rest, p.errors)
      else
        var a := ParseScopeAfter(p.rest, TokComma, TokAction);
        if a.value.None? then Stage(None, a.rest, a.errors)
        else
          var r := ParseScopeAfter(a.rest, TokComma, TokResource);
          if r.value.None? then Stage(None, r.rest, r.errors)
          else
            var effect := if Cur(s) == TokPermit then Permit else Forbid;
            ParseTail(lib, effect, p.value.value, a.value.value, r.value.value, r.rest)
  }

  datatype Source = Source(statements: seq<Statement>, errors: nat)

  /** A source is read to its end whatever is in it. */
  function ParseSource(lib: Library, s: seq<Token>): Source
    decreases |s|
  {
    if Cur(s) == TokEof then Source([], 0)
    else
      var q := ParsePolicy(lib, s);
      if q.rest == [] then Source(if q.value.Some? then [q.value.value] else [], q.errors)
      else
        var more := ParseSource(lib, Next(q.rest));
        Source((if q.value.Some? then [q.value.value] else []) + more.statements, q.errors + more.errors)
  }

  /** What was parsed before, and then the rest of the source. */
  function Continue(before: seq<Statement>, errors: nat, more: Source): Source {
    Source(before + more.statements, errors + more.errors)
  }

  function Found(q: Stage<Statement>): seq<Statement> {
    if q.value.Some? then [q.value.value] else []
  }

  lemma ContinueTwice(before: seq<Statement>, x: seq<Statement>, e: nat, f: nat, more: Source)
    ensures Continue(before, e, Continue(x, f, more)) == Continue(before + x, e + f, more)
  {
    assert before + (x + more.statements) == (before + x) + more.statements;
  }

  /** A source is its first policy and then the source after it. */
  lemma SourceStep(lib: Library, s: seq<Token>)
    requires Cur(s) != TokEof
    ensures var q := ParsePolicy(lib, s);
      ParseSource(lib, s) == Continue(Found(q), q.errors, ParseSource(lib, Next(q.rest)))
  {
    hide ParsePolicy;
    var q := ParsePolicy(lib, s);
    if q.rest == [] {
      assert ParseSource(lib, []) == Source([], 0);
      assert Found(q) + [] == Found(q);
    }
  }

  lemma SourceEnds(lib: Library, s: seq<Token>)
    requires Cur(s) == TokEof
    ensures ParseSource(lib, s) == Source([], 0)
  {
    hide ParsePolicy;
  }

  predicate Sound(x: Statement) {
    x.condition.Some? ==> Complete(x.condition.value)
  }

  /** A source without recorded errors gives one sound statement per policy:
      no clause and no part of a condition is missing. */
  lemma {:induction false} SourceWithoutErrors(lib: Library, s: seq<Token>)
    requires ParseSource(lib, s).errors == 0
    ensures forall i :: 0 <= i < |ParseSource(lib, s).statements| ==> Sound(ParseSource(lib, s).statements[i])
    decreases |s|
  {
    hide ParsePolicy;
    if Cur(s) != TokEof {
      var q := ParsePolicy(lib, s);
      if q.rest != [] { SourceWithoutErrors(lib, Next(q.rest)); }
    }
  }

  // ---------------------------------------------------------- the round trip

  function ShowEntity(keyword: Token, x: ScopeNode): (s: seq<Token>)
    ensures s != []
  {
    match x.op
    case Any => [keyword, Token(TokOp(Eq), "=="), Token(TokAny, "any")]
    case Equals => [keyword, Token(TokOp(Eq), "=="), Token(TokIdent, x.entityType), Token(TokColon, ":"), Token(TokString, x.entityId)]
    case Within => [keyword, Token(TokOp(In), "in"), Token(TokIdent, x.entityType), Token(TokColon, ":"), Token(TokString, x.entityId)]
  }

  predicate Plain(x: ScopeNode) {
    x.op.Any? ==> x.entityType == "" && x.entityId == ""
  }

  function ShowObligations(os: seq<Obligation>): seq<Token> {
    if os == [] then []
    else
      [Token(TokObligation, "obligation"), Token(TokIdent, os[0].kind), Token(TokString, os[0].message)]
      + ShowObligations(os[1..])
  }

  lemma AnyRoundTrip(keyword: Token, t: seq<Token>)
    ensures ParseScope([keyword, Token(TokOp(Eq), "=="), Token(TokAny, "any")] + t, keyword.kind)
         == Stage(Some(ScopeNode(ScopeOp.Any, "", "")), [Token(TokAny, "any")] + t, 0)
  {
    var s := [keyword, Token(TokOp(Eq), "=="), Token(TokAny, "any")] + t;
    assert Next(Next(s)) == [Token(TokAny, "any")] + t;
  }

  lemma EntityRoundTrip(keyword: Token, op: Token, entity: Token, id: Token, t: seq<Token>)
    requires op.kind == TokOp(Eq) || op.kind == TokOp(In)
    requires entity.kind == TokIdent && id.kind == TokString
    ensures ParseScope([keyword, op, entity, Token(TokColon, ":"), id] + t, keyword.kind)
         == Stage(Some(ScopeNode(if op.kind == TokOp(Eq) then Equals else Within, entity.text, id.text)), [id] + t, 0)
  {
    var s := [keyword, op, entity, Token(TokColon, ":"), id] + t;
    var v := Next(Next(s));
    assert v == [entity, Token(TokColon, ":"), id] + t;
    assert Next(v) == [Token(TokColon, ":"), id] + t;
    assert Next(Next(v)) == [id] + t;
  }

  lemma ScopeRoundTrip(keyword: Token, x: ScopeNode, t: seq<Token>)
    requires Plain(x)
    ensures ParseScope(ShowEntity(keyword, x) + t, keyword.kind)
         == Stage(Some(x), P.Tail(ShowEntity(keyword, x), t), 0)
  {
    hide ParseScope;
    match x.op
    case Any => AnyRoundTrip(keyword, t);
    case Equals =>
      EntityRoundTrip(keyword, Token(TokOp(Eq), "=="), Token(TokIdent, x.entityType), Token(TokString, x.entityId), t);
    case Within =>
      EntityRoundTrip(keyword, Token(TokOp(In), "in"), Token(TokIdent, x.entityType), Token(TokString, x.entityId), t);
  }

  lemma ScopeAfterRoundTrip(before: seq<Token>, punctuation: Token, keyword: Token, x: ScopeNode, t: seq<Token>)
    requires Plain(x) && Next(before) == [punctuation] + (ShowEntity(keyword, x) + t)
    ensures ParseScopeAfter(before, punctuation.kind, keyword.kind)
         == Stage(Some(x), P.Tail(ShowEntity(keyword, x), t), 0)
  {
    hide ParseScope;
    hide ShowEntity;
    ScopeRoundTrip(keyword, x, t);
    assert Next(Next(before)) == ShowEntity(keyword, x) + t;
  }

  lemma ObligationRoundTrip(at: seq<Token>, o: Obligation, more: seq<Token>)
    requires at == [Token(TokObligation, "obligation"), Token(TokIdent, o.kind), Token(TokString, o.message)] + more
    ensures ParseObligation(at) == Stage(Some(o), [Token(TokString, o.message)] + more, 0)
  {
    assert Next(at) == [Token(TokIdent, o.kind), Token(TokString, o.message)] + more;
    assert Next(Next(at)) == [Token(TokString, o.message)] + more;
  }

  lemma {:induction false} ObligationsRoundTrip(before: seq<Token>, os: seq<Obligation>, t: seq<Token>)
    requires Next(before) == ShowObligations(os) + t && before != [] && Cur(t) != TokObligation
    ensures var r := ParseObligations(before); r.value == Some(os) && r.errors == 0 && r.rest != [] && Next(r.rest) == t
    decreases |os|
  {
    hide ParseObligation;
    if os != [] {
      var o := os[0];
      var more := ShowObligations(os[1..]) + t;
      assert Next(before) == [Token(TokObligation, "obligation"), Token(TokIdent, o.kind), Token(TokString, o.message)] + more;
      ObligationRoundTrip(Next(before), o, more);
      var last := [Token(TokString, o.message)] + more;
      assert Next(last) == more;
      ObligationsRoundTrip(last, os[1..], t);
      assert os == [o] + os[1..];
    }
  }

  function ShowClause(lex: Lexicon, condition: Option<Expr>, unless: bool): seq<Token> {
    if condition.None? then []
    else
      [if unless then Token(TokUnless, "unless") else Token(TokWhen, "when"), Token(TokLBrace, "{")]
      + (Show(lex, condition.value, LOWEST) + [Token(TokRBrace, "}")])
  }

  function NodeIn(condition: Option<Expr>): Option<P.Node> {
    if condition.Some? then Some(NodeOf(condition.value)) else None
  }

  lemma ClauseRoundTrip(lib: Library, lex: Lexicon, before: seq<Token>, condition: Option<Expr>, unless: bool, t: seq<Token>)
    requires Next(before) == ShowClause(lex, condition, unless) + t && before != []
    requires condition.Some? ==> Expressible(lib, lex, condition.value)
    requires condition.None? ==> !unless && Cur(t) != TokWhen && Cur(t) != TokUnless
    ensures var r := ParseClause(lib, before);
      r.value == Some((NodeIn(condition), unless)) && r.errors == 0 && r.rest != [] && Next(r.rest) == t
  {
    hide Show;
    hide ParseExpression;
    if condition.Some? {
      var e := condition.value;
      var brace := [Token(TokRBrace, "}")] + t;
      var w := Next(before);
      assert w == [if unless then Token(TokUnless, "unless") else Token(TokWhen, "when"), Token(TokLBrace, "{")]
                  + (Show(lex, e, LOWEST) + brace);
      assert Next(Next(w)) == Show(lex, e, LOWEST) + brace;
      RoundTrip(lib, lex, e, brace);
    }
  }

  /** A printable policy and the statement it should parse to. */
  datatype Written = Written(
    effect: Effect, principal: ScopeNode, action: ScopeNode, resource: ScopeNode,
    condition: Option<Expr>, unless: bool, obligations: seq<Obligation>)

  predicate WellWritten(lib: Library, lex: Lexicon, w: Written) {
    && Plain(w.principal) && Plain(w.action) && Plain(w.resource)
    && (w.condition.Some? ==> Expressible(lib, lex, w.condition.value))
    && (w.condition.None? ==> !w.unless)
  }

  function StatementOf(w: Written): Statement {
    Statement(w.effect, w.principal, w.action, w.resource, NodeIn(w.condition), w.unless, w.obligations)
  }

  const COMMA := Token(TokComma, ",")
  const SEMICOLON := Token(TokSemicolon, ";")
  const PRINCIPAL := Token(TokPrincipal, "principal")
  const ACTION := Token(TokAction, "action")
  const RESOURCE := Token(TokResource, "resource")

  function ShowEnd(lex: Lexicon, w: Written, t: seq<Token>): seq<Token> {
    [Token(TokRParen, ")")]
    + (ShowClause(lex, w.condition, w.unless) + (ShowObligations(w.obligations) + ([SEMICOLON] + t)))
  }

  /** A policy followed by more tokens. */
  function ShowPolicy(lex: Lexicon, w: Written, t: seq<Token>): seq<Token> {
    [if w.effect.Permit? then Token(TokPermit, "permit") else Token(TokForbid, "forbid")]
    + ([Token(TokLParen, "(")]
       + (ShowEntity(PRINCIPAL, w.principal)
          + ([COMMA] + (ShowEntity(ACTION, w.action)
             + ([COMMA] + (ShowEntity(RESOURCE, w.resource) + ShowEnd(lex, w, t)))))))
  }

  lemma TailRoundTrip(lib: Library, lex: Lexicon, w: Written, before: seq<Token>, t: seq<Token>)
    requires WellWritten(lib, lex, w) && Next(before) == ShowEnd(lex, w, t)
    ensures ParseTail(lib, w.effect, w.principal, w.action, w.resource, before)
         == Stage(Some(StatementOf(w)), [SEMICOLON] + t, 0)
  {
    hide ParseClause;
    hide ParseObligations;
    hide ShowClause;
    var end := [SEMICOLON] + t;
    var os := ShowObligations(w.obligations) + end;
    var at := Next(before);
    assert Next(at) == ShowClause(lex, w.condition, w.unless) + os;
    assert Cur(os) == TokObligation || Cur(os) == TokSemicolon by {
      if w.obligations == [] { assert os == end; }
    }
    ClauseRoundTrip(lib, lex, at, w.condition, w.unless, os);
    var clause := ParseClause(lib, at);
    ObligationsRoundTrip(clause.rest, w.obligations, end);
  }

  /** Every well-written policy, printed, parses back to itself. */
  lemma PolicyRoundTrip(lib: Library, lex: Lexicon, w: Written, t: seq<Token>)
    requires WellWritten(lib, lex, w)
    ensures ParsePolicy(lib, ShowPolicy(lex, w, t)) == Stage(Some(StatementOf(w)), [SEMICOLON] + t, 0)
  {
    hide ParseScope;
    hide ParseScopeAfter;
    hide ParseTail;
    hide ShowEntity;
    hide ShowEnd;
    var s := ShowPolicy(lex, w, t);
    var end := ShowEnd(lex, w, t);
    var res := ShowEntity(RESOURCE, w.resource) + end;
    var act := ShowEntity(ACTION, w.action) + ([COMMA] + res);
    ScopeAfterRoundTrip(s, Token(TokLParen, "("), PRINCIPAL, w.principal, [COMMA] + act);
    var p := P.Tail(ShowEntity(PRINCIPAL, w.principal), [COMMA] + act);
    ScopeAfterRoundTrip(p, COMMA, ACTION, w.action, [COMMA] + res);
    var a := P.Tail(ShowEntity(ACTION, w.action), [COMMA] + res);
    ScopeAfterRoundTrip(a, COMMA, RESOURCE, w.resource, end);
    var r := P.Tail(ShowEntity(RESOURCE, w.resource), end);
    TailRoundTrip(lib, lex, w, r, t);
  }

  /** Policies one after the other. */
  function ShowSource(lex: Lexicon, ws: seq<Written>): seq<Token> {
    if ws == [] then [] else ShowPolicy(lex, ws[0], ShowSource(lex, ws[1..]))
  }

  function StatementsOf(ws: seq<Written>): seq<Statement> {
    if ws == [] then [] else [StatementOf(ws[0])] + StatementsOf(ws[1..])
  }

  /** Every list of well-written policies, printed, parses back to those policies
      and no others, without an error. */
  lemma {:induction false} SourceRoundTrip(lib: Library, lex: Lexicon, ws: seq<Written>)
    requires forall i :: 0 <= i < |ws| ==> WellWritten(lib, lex, ws[i])
    ensures ParseSource(lib, ShowSource(lex, ws)) == Source(StatementsOf(ws), 0)
    decreases |ws|
  {
    hide ParsePolicy;
    hide ParseSource;
    hide StatementOf;
    if ws == [] {
      SourceEnds(lib, []);
    } else {
      var t := ShowSource(lex, ws[1..]);
      var s := ShowPolicy(lex, ws[0], t);
      PolicyRoundTrip(lib, lex, ws[0], t);
      assert Cur(s) != TokEof;
      SourceStep(lib, s);
      assert Next([SEMICOLON] + t) == t;
      SourceRoundTrip(lib, lex, ws[1..]);
    }
  }

  // -------------------------------------------------------------- the parser

  function Prepend(found: seq<Obligation>, r: Stage<seq<Obligation>>): Stage<seq<Obligation>> {
    if r.value.None? then r else Stage(Some(found + r.value.value), r.rest, r.errors)
  }

  lemma PrependNothing(r: Stage<seq<Obligation>>)
    ensures Prepend([], r) == r
    ensures r.value == Some([]) ==> forall xs :: Prepend(xs, r) == Stage(Some(xs), r.rest, r.errors)
  {
    if r.value.Some? { assert [] + r.value.value == r.value.value; }
    forall xs: seq<Obligation> ensures xs + [] == xs {}
  }

  lemma PrependTwice(xs: seq<Obligation>, ys: seq<Obligation>, r: Stage<seq<Obligation>>)
    ensures Prepend(xs, Prepend(ys, r)) == Prepend(xs + ys, r)
  {
    if r.value.Some? { assert xs + (ys + r.value.value) == (xs + ys) + r.value.value; }
  }

  /** The parser object: the tokens from the current one on, and its errors. */
  class TokenParser {
    const lib: Library
    var rest: seq<Token>
    var errors: nat

    constructor (lib: Library, tokens: seq<Token>)
      ensures this.lib == lib && rest == tokens && errors == 0
    {
      this.lib := lib;
      rest, errors := tokens, 0;
    }

    method NextToken()
      modifies this`rest
      ensures rest == Next(old(rest))
    {
      rest := Next(rest);
    }

    method ExpectPeek(k: Kind) returns (ok: bool)
      modifies this
      ensures ok <==> Peek(old(rest)) == k
      ensures ok ==> rest == Next(old(rest)) && errors == old(errors)
      ensures !ok ==> rest == old(rest) && errors == old(errors) + 1
    {
      if Peek(rest) == k {
        NextToken();
        return true;
      }
      errors := errors + 1;
      ok := false;
    }

    method ParsePrefixExpression() returns (n: P.Node)
      requires !ParsesNothing(Cur(rest))
      modifies this
      ensures Parsed(n, rest, errors) == ParsePrefix(lib, old(rest)).(errors := old(errors) + ParsePrefix(lib, old(rest)).errors)
      decreases |rest|, 0
    {
      if Cur(rest) == TokNot {
        NextToken();
        var c := ParseExpression(PREFIX);
        n := Negation(c);
      } else if Cur(rest) == TokLParen {
        NextToken();
        n := ParseExpression(LOWEST);
        var ok := ExpectPeek(TokRParen);
        if !ok { n := P.Nil; }
      } else {
        var a := ParseAtom(lib, rest);
        n, rest, errors := a.node, a.rest, errors + a.errors;
      }
    }

    method ParseExpression(precedence: nat) returns (n: P.Node)
      requires LOWEST <= precedence
      modifies this
      ensures var q := P.ParseExpression(lib, old(rest), precedence);
        n == q.node && rest == q.rest && errors == old(errors) + q.errors
      decreases |rest|, 1
    {
      hide P.ParsePrefix;
      hide P.ParseExpression;
      hide P.ParseInfix;
      hide ParsesNothing;
      ExpressionStarts(lib, rest, precedence);
      if ParsesNothing(Cur(rest)) {
        errors := errors + 1;
        return P.Nil;
      }
      ghost var start := P.ParsePrefix(lib, rest);
      n := ParsePrefixExpression();
      while PeekPrecedence(rest) > precedence
        invariant |rest| <= |old(rest)| && errors >= old(errors)
        invariant ParseInfix(lib, Parsed(n, rest, errors - old(errors)), precedence)
               == ParseInfix(lib, start, precedence)
        decreases |rest|
      {
        ghost var left := Parsed(n, rest, errors - old(errors));
        NextToken();
        var op := Cur(rest).op;
        NextToken();
        InfixOnce(lib, left, precedence, P.ParseExpression(lib, rest, Precedence(op)));
        var right := ParseExpression(Precedence(op));
        n := Binary(op, n, right);
      }
      InfixStops(lib, Parsed(n, rest, errors - old(errors)), precedence);
    }

    method ParseScopeClause(keyword: Kind) returns (x: Option<ScopeNode>)
      modifies this
      ensures var q := ParseScope(old(rest), keyword);
        x == q.value && rest == q.rest && errors == old(errors) + q.errors
    {
      if Cur(rest) != keyword {
        errors := errors + 1;
        return None;
      }
      var op: ScopeOp;
      if Peek(rest) == TokOp(Eq) {
        op := Equals;
      } else if Peek(rest) == TokOp(In) {
        op := Within;
      } else {
        errors := errors + 1;
        return None;
      }
      NextToken();
      NextToken();
      if Cur(rest) == TokAny { return Some(ScopeNode(ScopeOp.Any, "", "")); }
      if Cur(rest) !in {TokIdent, TokPrincipal, TokAction, TokResource} {
        errors := errors + 1;
        return None;
      }
      var entityType := Text(rest);
      var ok := ExpectPeek(TokColon);
      if !ok { return None; }
      if Peek(rest) !in {TokString, TokIdent} {
        errors := errors + 1;
        return None;
      }
      NextToken();
      x := Some(ScopeNode(op, entityType, Text(rest)));
    }

    method ParseScopeAfterPeek(punctuation: Kind, keyword: Kind) returns (x: Option<ScopeNode>)
      modifies this
      ensures var q := ParseScopeAfter(old(rest), punctuation, keyword);
        x == q.value && rest == q.rest && errors == old(errors) + q.errors
    {
      var ok := ExpectPeek(punctuation);
      if !ok { return None; }
      NextToken();
      x := ParseScopeClause(keyword);
    }

    method ParseConditionClause() returns (x: Option<(Option<P.Node>, bool)>)
      modifies this
      ensures var q := ParseClause(lib, old(rest));
        x == q.value && rest == q.rest && errors == old(errors) + q.errors
    {
      if Peek(rest) != TokWhen && Peek(rest) != TokUnless { return Some((None, false)); }
      NextToken();
      var unless := Cur(rest) == TokUnless;
      var ok := ExpectPeek(TokLBrace);
      if !ok { return None; }
      NextToken();
      var n := ParseExpression(LOWEST);
      if n.Nil? { return None; }
      ok := ExpectPeek(TokRBrace);
      if !ok { return None; }
      x := Some((Some(n), unless));
    }

    method ParseObligationClause() returns (x: Option<Obligation>)
      modifies this
      ensures var q := ParseObligation(old(rest));
        x == q.value && rest == q.rest && errors == old(errors) + q.errors
    {
      var ok := ExpectPeek(TokIdent);
      if !ok { return None; }
      var kind, message := Text(rest), "";
      if Peek(rest) == TokString {
        NextToken();
        message := Text(rest);
      }
      x := Some(Obligation(kind, message));
    }

    method ParseObligationClauses() returns (x: Option<seq<Obligation>>)
      modifies this
      ensures var q := ParseObligations(old(rest));
        x == q.value && rest == q.rest && errors == old(errors) + q.errors
    {
      hide ParseObligation;
      var found: seq<Obligation> := [];
      ghost var all := ParseObligations(rest);
      PrependNothing(all);
      while Peek(rest) == TokObligation
        invariant errors == old(errors)
        invariant all == Prepend(found, ParseObligations(rest))
        decreases |rest|
      {
        ghost var now := ParseObligations(rest);
        NextToken();
        var o := ParseObligationClause();
        if o.None? { return None; }
        assert now == Prepend([o.value], ParseObligations(rest));
        PrependTwice(found, [o.value], ParseObligations(rest));
        found := found + [o.value];
      }
      PrependNothing(ParseObligations(rest));
      x := Some(found);
    }

    method ParseStatement() returns (x: Option<Statement>)
      modifies this
      ensures var q := ParsePolicy(lib, old(rest));
        x == q.value && rest == q.rest && errors == old(errors) + q.errors
    {
      if Cur(rest) != TokPermit && Cur(rest) != TokForbid {
        errors := errors + 1;
        return None;
      }
      var effect := if Cur(rest) == TokPermit then Permit else Forbid;
      var p := ParseScopeAfterPeek(TokLParen, TokPrincipal);
      if p.None? { return None; }
      var a := ParseScopeAfterPeek(TokComma, TokAction);
      if a.None? { return None; }
      var r := ParseScopeAfterPeek(TokComma, TokResource);
      if r.None? { return None; }
      var ok := ExpectPeek(TokRParen);
      if !ok { return None; }
      var clause := ParseConditionClause();
      if clause.None? { return None; }
      var obligations := ParseObligationClauses();
      if obligations.None? { return None; }
      ok := ExpectPeek(TokSemicolon);
      if !ok { return None; }
      x := Some(Statement(effect, p.value, a.value, r.value, clause.value.0, clause.value.1, obligations.value));
    }

    method Parse() returns (statements: seq<Statement>)
      modifies this
      ensures var q := ParseSource(lib, old(rest));
        statements == q.statements && errors == old(errors) + q.errors
      ensures errors == old(errors) ==> forall i :: 0 <= i < |statements| ==> Sound(statements[i])
    {
      hide ParsePolicy;
      hide ParseSource;
      hide Cur;
      statements := [];
      ghost var all := ParseSource(lib, rest);
      if all.errors == 0 { SourceWithoutErrors(lib, rest); }
      assert [] + all.statements == all.statements;
      while Cur(rest) != TokEof
        invariant errors >= old(errors)
        invariant all == Continue(statements, errors - old(errors), ParseSource(lib, rest))
        decreases |rest|
      {
        ghost var q := ParsePolicy(lib, rest);
        SourceStep(lib, rest);
        ContinueTwice(statements, Found(q), errors - old(errors), q.errors, ParseSource(lib, Next(q.rest)));
        var x := ParseStatement();
        assert statements + [] == statements;
        if x.Some? { statements := statements + [x.value]; }
        NextToken();
      }
      SourceEnds(lib, rest);
      assert statements + [] == statements;
    }
  }
}
