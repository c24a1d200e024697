/** The allocation-free evaluator: attribute values live in 64 reused slots and
    64 reused address buffers, and every result still equals pure evaluation. */
module ScratchEvaluator {
  import opened Basics
  import opened AddressText
  import opened Expr

  const SLOTS: nat := 64

  /** A value node: its own payload, or an address that sits in a buffer. */
  datatype Node = Plain(value: Value) | AddressIn(buffer: nat)

  /** Where a result is: in the tree or a shared constant, in a slot, or on the heap. */
  datatype Ref = Shared(value: Value) | Slot(index: nat) | Heap(node: Node)

  datatype Answer = Found(ref: Ref) | Failed(why: Failure)

  const YES := Found(Shared(Bool(true)))
  const NO := Found(Shared(Bool(false)))

  class EvalContext {
    const lib: Library
    const request: Request
    const nodes: array<Node>
    const buffers: array<Address>
    var count: nat

    ghost predicate Valid()
      reads this
    {
      nodes.Length == SLOTS && buffers.Length == SLOTS && count <= SLOTS
    }

    function Load(r: Ref): Value
      requires Valid()
      reads this, nodes, buffers
    {
      match r
      case Shared(v) => v
      case Slot(i) => if i < SLOTS then Resolve(nodes[i]) else Bool(false)
      case Heap(n) => Resolve(n)
    }

    function Resolve(n: Node): Value
      requires Valid()
      reads this, buffers
    {
      match n
      case Plain(v) => v
      case AddressIn(b) => Ip(if b < SLOTS then buffers[b] else [])
    }

    /** No later evaluation can overwrite what the reference denotes. */
    ghost predicate Settled(r: Ref)
      requires Valid()
      reads this, nodes
    {
      match r
      case Shared(_) => true
      case Slot(i) => i < count && nodes[i].Plain?
      case Heap(n) => n.Plain?
    }

    ghost predicate Agrees(a: Answer, o: Outcome)
      requires Valid()
      reads this, nodes, buffers
    {
      match a
      case Found(r) => o == Yields(Load(r))
      case Failed(w) => o == Fails(w)
    }

    /** Slots taken so far are never written again. */
    twostate predicate Extends()
      requires old(Valid()) && Valid()
      reads this, nodes
    {
      old(count) <= count && forall i :: 0 <= i < old(count) ==> nodes[i] == old(nodes[i])
    }

    constructor (lib: Library, request: Request)
      ensures Valid() && this.lib == lib && this.request == request && count == 0
      ensures fresh(nodes) && fresh(buffers)
    {
      this.lib := lib;
      this.request := request;
      nodes := new Node[SLOTS](_ => Plain(Bool(false)));
      buffers := new Address[SLOTS](_ => []);
      count := 0;
    }

    /** A slot, or none when all are taken and the node goes to the heap. */
    method Alloc() returns (slot: Option<nat>)
      requires Valid()
      modifies this`count
      ensures Valid() && 0 < count && old(count) <= count
      ensures slot == if old(count) < SLOTS then Some(old(count)) else None
      ensures slot.Some? ==> slot.value < count
    {
      if count < SLOTS {
        slot := Some(count);
        count := count + 1;
      } else {
        slot := None;
      }
    }

    method Fill(slot: Option<nat>, n: Node) returns (r: Ref)
      requires Valid() && (slot.Some? ==> slot.value < count)
      modifies nodes
      ensures Load(r) == Resolve(n)
      ensures n.Plain? ==> Settled(r)
      ensures forall i :: 0 <= i < SLOTS && slot != Some(i) ==> nodes[i] == old(nodes[i])
    {
      if slot.Some? {
        nodes[slot.value] := n;
        r := Slot(slot.value);
      } else {
        r := Heap(n);
      }
    }

    /** Addresses go to the buffer of the newest slot, which past the last slot
        is always the last buffer. */
    method ParseStringValue(text: string, t: ValueType) returns (a: Answer)
      requires Valid()
      modifies this`count, nodes, buffers
      ensures Valid() && Extends()
      ensures Agrees(a, ReadAs(lib, text, t))
      ensures a.Found? && !t.IpType? ==> Settled(a.ref)
    {
      var slot := Alloc();
      if t.IpType? {
        var address := ParseIPv4Fast(lib.parseIp, text);
        if address.None? { return Failed(Malformed); }
        buffers[count - 1] := address.value;
        var r := Fill(slot, AddressIn(count - 1));
        return Found(r);
      }
      var o := ReadAs(lib, text, t);
      if o.Fails? { return Failed(o.why); }
      var r := Fill(slot, Plain(o.value));
      a := Found(r);
    }

    method GetAttribute(scope: Scope, field: string, t: ValueType) returns (a: Answer)
      requires Valid()
      modifies this`count, nodes, buffers
      ensures Valid() && Extends()
      ensures Agrees(a, Attribute(lib, request, scope, field, t))
      ensures a.Found? && !t.IpType? ==> Settled(a.ref)
    {
      if Identity(scope, field) {
        var slot := Alloc();
        var r := Fill(slot, Plain(Str(if scope.Principal? then request.subject else request.resource)));
        return Found(r);
      }
      match TextOf(request, scope, field) {
        case Some(text) => a := ParseStringValue(text, t);
        case None => a := Failed(Missing);
      }
    }

    method Evaluate(e: Expr) returns (a: Answer)
      requires Valid()
      modifies this`count, nodes, buffers
      ensures Valid() && Extends()
      ensures Agrees(a, Eval(lib, request, e))
      ensures a.Found? ==> Settled(a.ref)
      ensures e.Lit? ==> count == old(count) && nodes[..] == old(nodes[..]) && buffers[..] == old(buffers[..])
      decreases e, 1
    {
      match e {
        case Lit(v) => a := Found(Shared(v));
        case Var(scope, field) => a := GetAttribute(scope, field, StringType);
        case Not(c) => a := EvaluateNot(c);
        case Neg(c) => a := EvaluateNeg(c);
        case Bin(op, l, r) =>
          if op.And? {
            a := EvaluateAnd(l, r);
          } else if op.Or? {
            a := EvaluateOr(l, r);
          } else {
            a := EvaluateComparison(op, l, r);
          }
      }
    }

    method EvaluateNot(c: Expr) returns (a: Answer)
      requires Valid()
      modifies this`count, nodes, buffers
      ensures Valid() && Extends()
      ensures Agrees(a, Eval(lib, request, Not(c)))
      ensures a.Found? ==> Settled(a.ref)
      decreases Not(c), 0
    {
      var x := Evaluate(c);
      if x.Failed? { return x; }
      var v := Load(x.ref);
      if !v.Bool? { return Failed(Unsupported); }
      a := if v.flag then NO else YES;
    }

    method EvaluateNeg(c: Expr) returns (a: Answer)
      requires Valid()
      modifies this`count, nodes, buffers
      ensures Valid() && Extends()
      ensures Agrees(a, Eval(lib, request, Neg(c)))
      ensures a.Found? ==> Settled(a.ref)
      decreases Neg(c), 0
    {
      var x := Evaluate(c);
      if x.Failed? { return x; }
      var v := Load(x.ref);
      if !v.Int? { return Failed(Unsupported); }
      var slot := Alloc();
      var r := Fill(slot, Plain(Int(Negate(v.number))));
      a := Found(r);
    }

    method EvaluateAnd(l: Expr, r: Expr) returns (a: Answer)
      requires Valid()
      modifies this`count, nodes, buffers
      ensures Valid() && Extends()
      ensures Agrees(a, Eval(lib, request, Bin(And, l, r)))
      ensures a.Found? ==> Settled(a.ref)
      decreases Bin(And, l, r), 0
    {
      var x := Evaluate(l);
      if x.Failed? { return NO; }
      var v := Load(x.ref);
      if !v.Bool? { return Failed(Unsupported); }
      if !v.flag { return NO; }
      a := Evaluate(r);
      if a.Failed? { return NO; }
      var w := Load(a.ref);
      if !w.Bool? { return Failed(Unsupported); }
    }

    method EvaluateOr(l: Expr, r: Expr) returns (a: Answer)
      requires Valid()
      modifies this`count, nodes, buffers
      ensures Valid() && Extends()
      ensures Agrees(a, Eval(lib, request, Bin(Or, l, r)))
      ensures a.Found? ==> Settled(a.ref)
      decreases Bin(Or, l, r), 0
    {
      var x := Evaluate(l);
      if x.Found? {
        var v := Load(x.ref);
        if v == Bool(true) { return YES; }
      }
      a := Evaluate(r);
      if a.Failed? { return NO; }
      var w := Load(a.ref);
      if !w.Bool? { return Failed(Unsupported); }
    }

    /** The left value survives the reading of the right one: an address is only
        ever read to be compared with a literal, which takes no buffer. */
    /** A comparison reads its left side as its right side suggests. */
    lemma ComparisonIsEval(op: Op, l: Expr, r: Expr)
      requires !op.And? && !op.Or?
      ensures Eval(lib, request, Bin(op, l, r))
           == Compared(lib, request, op,
                       if l.Var? then Attribute(lib, request, l.scope, l.field, Expected(op, r)) else Eval(lib, request, l),
                       Eval(lib, request, r))
    {
    }

    method EvaluateComparison(op: Op, l: Expr, r: Expr) returns (a: Answer)
      requires Valid() && !op.And? && !op.Or?
      modifies this`count, nodes, buffers
      ensures Valid() && Extends()
      ensures Agrees(a, Eval(lib, request, Bin(op, l, r)))
      ensures a.Found? ==> Settled(a.ref)
      decreases Bin(op, l, r), 0
    {
      hide Attribute;
      hide Relate;
      ComparisonIsEval(op, l, r);
      hide Eval;
      var x: Answer;
      if l.Var? {
        x := GetAttribute(l.scope, l.field, Expected(op, r));
      } else {
        x := Evaluate(l);
      }
      if x.Failed? { return NO; }
      ghost var left := Load(x.ref);
      label Read:
      var y := Evaluate(r);
      assert Load(x.ref) == left by {
        assert r.Lit? || old@Read(Settled(x.ref));
      }
      if y.Failed? { return NO; }
      match Relate(lib, request, op, Load(x.ref), Load(y.ref)) {
        case Yields(v) => a := Found(Shared(v));
        case Fails(w) => a := Failed(w);
      }
    }
  }
}
