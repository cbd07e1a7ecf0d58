/**
 * The activation-swap rewrite `change_relu_to_selu`: a depth-first walk over the
 * named children of a module tree that replaces every child which is a ReLU by a
 * fresh SELU and recurses into every other child.
 *
 * `Swap` is the rewrite on tree values; `Module.ChangeReluToSelu` is the same
 * rewrite performed in place on a tree of objects, and is proved to produce `Swap`
 * of the tree it started from.
 */
module ActivationSwap {
  import opened Wrappers

  /** A module of the network, as a value: an activation, or any other module with its named children. */
  datatype Layer = ReLU | SELU | Other(typeName: string, children: seq<(string, Layer)>)

  /** The tree left behind by `change_relu_to_selu(l)`: the root is kept; each child that is a
      ReLU becomes a SELU and each other child is rewritten recursively. */
  function Swap(l: Layer): (r: Layer)
    ensures r.ReLU? == l.ReLU? && r.SELU? == l.SELU?
    ensures l.Other? ==> r.typeName == l.typeName && |r.children| == |l.children|
    ensures l.Other? ==> forall i :: 0 <= i < |l.children| ==> r.children[i].0 == l.children[i].0
    decreases l
  {
    match l
    case Other(t, cs) =>
      Other(t, seq(|cs|, i requires 0 <= i < |cs| =>
        (cs[i].0, if cs[i].1.ReLU? then SELU else Swap(cs[i].1))))
    case _ => l
  }

  /** No ReLU anywhere in the tree, the root included. */
  predicate ReluFree(l: Layer)
    decreases l
  {
    match l
    case ReLU => false
    case SELU => true
    case Other(_, cs) => forall i :: 0 <= i < |cs| ==> ReluFree(cs[i].1)
  }

  /** No ReLU anywhere strictly below the root. */
  predicate ReluFreeBelowRoot(l: Layer)
  {
    l.Other? ==> forall i :: 0 <= i < |l.children| ==> ReluFree(l.children[i].1)
  }

  /** Reference definition: every ReLU of the tree, the root included, replaced by a SELU. */
  function ReplaceAll(l: Layer): Layer
    decreases l
  {
    match l
    case ReLU => SELU
    case SELU => SELU
    case Other(t, cs) => Other(t, seq(|cs|, i requires 0 <= i < |cs| => (cs[i].0, ReplaceAll(cs[i].1))))
  }

  /** Number of ReLU nodes (if `relu`) or SELU nodes (otherwise) in the tree. */
  function Count(l: Layer, relu: bool): nat
    decreases l, 1
  {
    match l
    case ReLU => if relu then 1 else 0
    case SELU => if relu then 0 else 1
    case Other(_, cs) => CountBelow(l, |cs|, relu)
  }

  /** `Count` summed over the first `n` children of `l`. */
  function CountBelow(l: Layer, n: nat, relu: bool): nat
    requires l.Other? && n <= |l.children|
    decreases l, 0, n
  {
    if n == 0 then 0 else CountBelow(l, n - 1, relu) + Count(l.children[n - 1].1, relu)
  }

  /** The node at a path of child positions, if the path exists. */
  function At(l: Layer, path: seq<nat>): (r: Option<Layer>)
    decreases path
  {
    if path == [] then Some(l)
    else if l.Other? && path[0] < |l.children| then At(l.children[path[0]].1, path[1..])
    else None
  }

  /** Below the root, `Swap` agrees with the reference rewrite `ReplaceAll`. */
  lemma {:induction false} SwapIsReplaceAllBelowRoot(l: Layer)
    ensures Swap(l) == if l.ReLU? then l else ReplaceAll(l)
    decreases l
  {
    match l
    case Other(t, cs) =>
      forall i | 0 <= i < |cs|
        ensures Swap(l).children[i] == ReplaceAll(l).children[i]
      {
        if !cs[i].1.ReLU? { SwapIsReplaceAllBelowRoot(cs[i].1); }
      }
    case _ =>
  }

  lemma {:induction false} ReplaceAllIsReluFree(l: Layer)
    ensures ReluFree(ReplaceAll(l))
    decreases l
  {
    match l
    case Other(t, cs) =>
      forall i | 0 <= i < |cs| ensures ReluFree(ReplaceAll(l).children[i].1) {
        ReplaceAllIsReluFree(cs[i].1);
      }
    case _ =>
  }

  /** After the rewrite no ReLU is left anywhere below the root. */
  lemma SwapRemovesRelu(l: Layer)
    ensures ReluFreeBelowRoot(Swap(l))
  {
    SwapIsReplaceAllBelowRoot(l);
    ReplaceAllIsReluFree(l);
  }

  /** On a tree with no ReLU below the root the rewrite changes nothing. */
  lemma {:induction false} SwapWithoutReluIsNoOp(l: Layer)
    requires ReluFreeBelowRoot(l)
    ensures Swap(l) == l
    decreases l
  {
    match l
    case Other(t, cs) =>
      forall i | 0 <= i < |cs| ensures Swap(l).children[i] == cs[i] {
        var c := cs[i].1;
        assert ReluFree(c);
        if c.Other? {
          forall j | 0 <= j < |c.children| ensures ReluFree(c.children[j].1) { }
        }
        SwapWithoutReluIsNoOp(c);
      }
    case _ =>
  }

  /** Applying the rewrite twice is the same as applying it once. */
  lemma SwapIdempotent(l: Layer)
    ensures Swap(Swap(l)) == Swap(l)
  {
    SwapRemovesRelu(l);
    SwapWithoutReluIsNoOp(Swap(l));
  }

  /** The rewrite keeps the shape, every name and every non-activation module: the two trees
      are equal once all activations are identified. */
  lemma {:induction false} SwapKeepsShape(l: Layer)
    ensures ReplaceAll(Swap(l)) == ReplaceAll(l)
  {
    SwapIsReplaceAllBelowRoot(l);
    if !l.ReLU? { ReplaceAllIdempotent(l); }
  }

  lemma {:induction false} ReplaceAllIdempotent(l: Layer)
    ensures ReplaceAll(ReplaceAll(l)) == ReplaceAll(l)
    decreases l
  {
    match l
    case Other(t, cs) =>
      forall i | 0 <= i < |cs| ensures ReplaceAll(ReplaceAll(l)).children[i] == ReplaceAll(l).children[i] {
        ReplaceAllIdempotent(cs[i].1);
      }
    case _ =>
  }

  /** Each position below the root holds the reference rewrite of what it held before; in
      particular a position that held a ReLU now holds a SELU, and the same paths exist. */
  lemma SwapAt(l: Layer, path: seq<nat>)
    requires path != []
    ensures At(Swap(l), path).Some? == At(l, path).Some?
    ensures At(l, path).Some? ==> At(Swap(l), path) == Some(ReplaceAll(At(l, path).value))
    ensures At(l, path) == Some(ReLU) ==> At(Swap(l), path) == Some(SELU)
  {
    SwapIsReplaceAllBelowRoot(l);
    if l.ReLU? {
      assert At(l, path) == None;
    } else {
      ReplaceAllAt(l, path);
    }
  }

  lemma {:induction false} ReplaceAllAt(l: Layer, path: seq<nat>)
    ensures At(ReplaceAll(l), path).Some? == At(l, path).Some?
    ensures At(l, path).Some? ==> At(ReplaceAll(l), path) == Some(ReplaceAll(At(l, path).value))
    decreases path
  {
    if path != [] && l.Other? && path[0] < |l.children| {
      ReplaceAllAt(l.children[path[0]].1, path[1..]);
    }
  }

  /** Counting after the rewrite: the ReLUs below the root have all become SELUs. */
  lemma SwapCounts(l: Layer)
    ensures Count(Swap(l), true) == if l.ReLU? then 1 else 0
    ensures Count(Swap(l), false) == Count(l, false) + (if l.ReLU? then 0 else Count(l, true))
  {
    SwapIsReplaceAllBelowRoot(l);
    ReplaceAllCounts(l);
  }

  lemma {:induction false} ReplaceAllCounts(l: Layer)
    ensures Count(ReplaceAll(l), true) == 0
    ensures Count(ReplaceAll(l), false) == Count(l, false) + Count(l, true)
    decreases l, 1
  {
    if l.Other? { ReplaceAllCountsBelow(l, |l.children|); }
  }

  lemma {:induction false} ReplaceAllCountsBelow(l: Layer, n: nat)
    requires l.Other? && n <= |l.children|
    ensures CountBelow(ReplaceAll(l), n, true) == 0
    ensures CountBelow(ReplaceAll(l), n, false) == CountBelow(l, n, false) + CountBelow(l, n, true)
    decreases l, 0, n
  {
    if n > 0 {
      ReplaceAllCountsBelow(l, n - 1);
      ReplaceAllCounts(l.children[n - 1].1);
    }
  }

  /** The runtime type of a module object. */
  datatype Kind = ReLUKind | SELUKind | OtherKind(typeName: string)

  /** What a child becomes in one step of the walk: a ReLU is replaced, anything else rewritten. */
  function SwapChild(c: Layer): Layer
  {
    if c.ReLU? then SELU else Swap(c)
  }

  /** A module object of the network: its type, and its named children, which
      `ChangeReluToSelu` reassigns in place. */
  class Module {
    const kind: Kind
    var names: seq<string>
    var children: seq<Module>
    /** The objects that make up this module and everything below it. */
    ghost var Repr: set<object>
    /** The tree that this object and its descendants currently form. */
    ghost var Tree: Layer

    /** Every child is a valid module owned by this one, and no two children share an object. */
    ghost predicate ChildrenValid()
      reads this, Repr
      decreases Repr, 0
    {
      this in Repr &&
      |names| == |children| &&
      (forall i :: 0 <= i < |children| ==>
        children[i] in Repr && children[i].Repr <= Repr && this !in children[i].Repr &&
        children[i].Valid()) &&
      (forall i, j :: 0 <= i < j < |children| ==> children[i].Repr !! children[j].Repr)
    }

    ghost predicate Valid()
      reads this, Repr
      ensures Valid() ==> this in Repr
      decreases Repr, 1
    {
      ChildrenValid() &&
      match kind
      case ReLUKind => children == [] && Tree == ReLU
      case SELUKind => children == [] && Tree == SELU
      case OtherKind(t) =>
        Tree.Other? && Tree.typeName == t && |Tree.children| == |children| &&
        forall i :: 0 <= i < |children| ==> Tree.children[i] == (names[i], children[i].Tree)
    }

    /** A fresh activation module (`nn.ReLU()` or `nn.SELU()`). */
    constructor Activation(relu: bool)
      ensures Valid() && fresh(Repr)
      ensures Tree == if relu then ReLU else SELU
    {
      kind := if relu then ReLUKind else SELUKind;
      names, children := [], [];
      Repr := {this};
      Tree := if relu then ReLU else SELU;
    }

    /** A fresh container module of the given type, with no children yet. */
    constructor Container(typeName: string)
      ensures Valid() && fresh(Repr)
      ensures names == [] && children == [] && Tree == Other(typeName, [])
    {
      kind := OtherKind(typeName);
      names, children := [], [];
      Repr := {this};
      Tree := Other(typeName, []);
    }

    /** `add_module(name, c)` for a name not yet registered: `c` becomes the last named child. */
    method AddChild(name: string, c: Module)
      requires Valid() && kind.OtherKind? && c.Valid() && Repr !! c.Repr
      requires name !in names
      modifies this
      ensures Valid() && Repr == old(Repr) + c.Repr
      ensures names == old(names) + [name] && children == old(children) + [c]
      ensures Tree == Other(old(Tree).typeName, old(Tree).children + [(name, c.Tree)])
    {
      names, children := names + [name], children + [c];
      Repr := Repr + c.Repr;
      Tree := Other(Tree.typeName, Tree.children + [(name, c.Tree)]);
    }

    /** `change_relu_to_selu(self)`: every child that is a ReLU is replaced by a fresh SELU,
        every other child is rewritten in the same way; the module itself is kept. */
    method ChangeReluToSelu()
      requires Valid()
      modifies Repr
      ensures Valid() && fresh(Repr - old(Repr))
      ensures Tree == Swap(old(Tree))
      ensures ReluFreeBelowRoot(Tree)
      ensures |children| == old(|children|) && names == old(names)
      ensures forall j :: 0 <= j < |children| ==>
        if old(children[j].Tree).ReLU? then fresh(children[j]) else children[j] == old(children[j])
      decreases Repr, 1
    {
      var i := 0;
      while i < |children|
        invariant 0 <= i <= |children| == old(|children|)
        invariant names == old(names) && Tree == old(Tree)
        invariant ChildrenValid() && old(Repr) <= Repr && fresh(Repr - old(Repr))
        invariant forall j :: i <= j < |children| ==>
          children[j] == old(children[j]) && children[j].Repr == old(children[j].Repr) &&
          children[j].Tree == old(children[j].Tree)
        invariant forall j :: 0 <= j < i ==> children[j].Tree == SwapChild(old(children[j].Tree))
        invariant forall j :: 0 <= j < i ==>
          if old(children[j].Tree).ReLU? then fresh(children[j]) else children[j] == old(children[j])
      {
        RewriteChildAt(i);
        i := i + 1;
      }
      Tree := Swap(Tree);
      SwapRemovesRelu(old(Tree));
    }

    /** The body of the walk for the child at position `i`: `setattr(self, name, nn.SELU())`
        when that child is a ReLU, the recursive call on it otherwise. */
    method RewriteChildAt(i: nat)
      requires ChildrenValid() && i < |children|
      modifies this, children[i].Repr
      ensures ChildrenValid() && old(Repr) <= Repr && fresh(Repr - old(Repr))
      ensures names == old(names) && Tree == old(Tree) && |children| == old(|children|)
      ensures forall j :: 0 <= j < |children| && j != i ==>
        children[j] == old(children[j]) && children[j].Repr == old(children[j].Repr) &&
        children[j].Tree == old(children[j].Tree)
      ensures children[i].Tree == SwapChild(old(children[i].Tree))
      ensures old(children[i].Tree).ReLU? ==> fresh(children[i])
      ensures !old(children[i].Tree).ReLU? ==> children[i] == old(children[i])
      decreases children[i].Repr, 3
    {
      label Step:
      var r := RewriteChild(children[i]);
      children, Repr := children[i := r], Repr + r.Repr;
      forall j | 0 <= j < |children| && j != i
        ensures children[j].Valid() && children[j].Repr == old@Step(children[j].Repr)
        ensures children[j].Tree == old@Step(children[j].Tree)
      {
        UntouchedStaysValid@Step(children[j]);
      }
    }
  }

  /** Whether `c` is a ReLU decides its fate: replaced by a fresh SELU, or rewritten in place
      and kept. */
  method RewriteChild(c: Module) returns (r: Module)
    requires c.Valid()
    modifies c.Repr
    ensures r.Valid() && fresh(r.Repr - old(c.Repr))
    ensures r.Tree == SwapChild(old(c.Tree))
    ensures old(c.Tree).ReLU? ==> fresh(r)
    ensures !old(c.Tree).ReLU? ==> r == c
    decreases c.Repr, 2
  {
    if c.kind == ReLUKind {
      r := new Module.Activation(false);
    } else {
      c.ChangeReluToSelu();
      r := c;
    }
  }

  /** A module none of whose objects changed is still valid and still forms the same tree. */
  twostate lemma UntouchedStaysValid(m: Module)
    requires old(m.Valid())
    requires unchanged(old(m.Repr))
    ensures m.Valid() && m.Repr == old(m.Repr) && m.Tree == old(m.Tree)
  {
  }
}
