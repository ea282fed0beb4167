/**
 * A node decorator made of other node decorators. It keeps them in the
 * reverse of the order it was given them, so that decorating applies the
 * last one given first and the first one given last (outermost); closing it
 * tries to close every decorator that can be closed, whatever fails.
 */
module CompositeDecorator {
  import opened Common

  /** A decorator, known by name; whether it can be closed is part of its type. */
  datatype NodeDecorator = NodeDecorator(name: string, closeable: bool)

  /** A graph node: a plain function node, or one wrapped by a decorator. */
  datatype Node =
    | FunctionNode(name: string)
    | DecoratedNode(decorator: NodeDecorator, delegate: Node)

  /** The reverse of a list. */
  function Reverse<T>(s: seq<T>): (r: seq<T>)
    ensures |r| == |s|
  {
    if s == [] then [] else [s[|s| - 1]] + Reverse(s[..|s| - 1])
  }

  lemma {:induction false} ReverseAt<T>(s: seq<T>, k: nat)
    requires k < |s|
    ensures Reverse(s)[k] == s[|s| - 1 - k]
    decreases |s|
  {
    if k > 0 {
      ReverseAt(s[..|s| - 1], k - 1);
    }
  }

  /** Reversing twice gives the list back. */
  lemma ReverseReverse<T>(s: seq<T>)
    ensures Reverse(Reverse(s)) == s
  {
    forall k | 0 <= k < |s| ensures Reverse(Reverse(s))[k] == s[k] {
      ReverseAt(Reverse(s), k);
      ReverseAt(s, |s| - 1 - k);
    }
  }

  /**
   * The node `decorate` makes of `node` under decorators [d1, ..., dk]:
   * d1(d2(... dk(node) ...)).
   */
  function Compose(decorate: (NodeDecorator, Node) -> Node, decorators: seq<NodeDecorator>, node: Node): (r: Node)
    ensures decorators == [] ==> r == node
    ensures |decorators| == 1 ==> r == decorate(decorators[0], node)
    decreases |decorators|
  {
    if decorators == [] then node else decorate(decorators[0], Compose(decorate, decorators[1..], node))
  }

  /** Composing two lists of decorators nests the first around the second. */
  lemma {:induction false} ComposeAppend(decorate: (NodeDecorator, Node) -> Node, a: seq<NodeDecorator>,
                                         b: seq<NodeDecorator>, node: Node)
    ensures Compose(decorate, a + b, node) == Compose(decorate, a, Compose(decorate, b, node))
    decreases |a|
  {
    if a == [] {
      assert a + b == b;
    } else {
      assert (a + b)[1..] == a[1..] + b;
      ComposeAppend(decorate, a[1..], b, node);
    }
  }

  /** The decorators wrapped around a node, outermost first. */
  function Layers(node: Node): seq<NodeDecorator> {
    match node
    case FunctionNode(_) => []
    case DecoratedNode(d, inner) => [d] + Layers(inner)
  }

  /**
   * With decorators that simply wrap the node, the composed node carries each
   * decorator exactly once, in the order given, the first outermost.
   */
  lemma {:induction false} ComposeWrapsEachOnce(decorators: seq<NodeDecorator>, name: string)
    ensures Layers(Compose((d, n) => DecoratedNode(d, n), decorators, FunctionNode(name))) == decorators
    decreases |decorators|
  {
    if decorators != [] {
      ComposeWrapsEachOnce(decorators[1..], name);
    }
  }

  /** The decorators, in order, that satisfy `keep`. */
  function Filter(decorators: seq<NodeDecorator>, keep: NodeDecorator -> bool): (r: seq<NodeDecorator>)
    ensures |r| <= |decorators|
  {
    if decorators == [] then []
    else if keep(decorators[|decorators| - 1]) then Filter(decorators[..|decorators| - 1], keep) + [decorators[|decorators| - 1]]
    else Filter(decorators[..|decorators| - 1], keep)
  }

  /** A decorator is kept exactly when it is in the list and satisfies `keep`. */
  lemma {:induction false} FilterMembership(decorators: seq<NodeDecorator>, keep: NodeDecorator -> bool, d: NodeDecorator)
    ensures d in Filter(decorators, keep) <==> d in decorators && keep(d)
    decreases |decorators|
  {
    if decorators != [] {
      var init := decorators[..|decorators| - 1];
      FilterMembership(init, keep, d);
      assert decorators == init + [decorators[|decorators| - 1]];
    }
  }

  /** Whether the decorator can be closed (implements AutoCloseable). */
  predicate IsCloseable(d: NodeDecorator) {
    d.closeable
  }

  class CompositeNodeDecorator {
    /** The decorators in the order the constructor was given them. */
    ghost const given: seq<NodeDecorator>
    /** The decorators as stored: the reverse of that order. */
    const decorators: seq<NodeDecorator>

    ghost predicate Valid() {
      decorators == Reverse(given)
    }

    /** From a list: the same as from an array holding the same elements. */
    constructor FromList(list: seq<NodeDecorator>)
      ensures Valid() && given == list
    {
      var reversed := ReversedCopy(list);
      given := list;
      decorators := reversed;
    }

    /** From an array of decorators. */
    constructor (elements: seq<NodeDecorator>)
      ensures Valid() && given == elements
    {
      var reversed := ReversedCopy(elements);
      given := elements;
      decorators := reversed;
    }

    /** A null array is rejected. */
    static method Create(elements: Option<seq<NodeDecorator>>) returns (r: Result<CompositeNodeDecorator>)
      ensures elements.None? <==> r.Failure?
      ensures elements.None? ==> r.error == NullArgument("decorators")
      ensures r.Success? ==> fresh(r.value) && r.value.Valid() && r.value.given == elements.value
    {
      if elements.None? {
        return Failure(NullArgument("decorators"));
      }
      var composite := new CompositeNodeDecorator(elements.value);
      r := Success(composite);
    }

    /** Copies the list and reverses the copy in place. */
    static method ReversedCopy(list: seq<NodeDecorator>) returns (r: seq<NodeDecorator>)
      ensures r == Reverse(list)
    {
      var a := new NodeDecorator[|list|](i requires 0 <= i < |list| => list[i]);
      var lo, hi := 0, a.Length - 1;
      while lo < hi
        invariant 0 <= lo && hi == a.Length - 1 - lo && lo <= a.Length
        invariant forall k :: 0 <= k < lo ==> a[k] == list[a.Length - 1 - k] && a[a.Length - 1 - k] == list[k]
        invariant forall k :: lo <= k <= hi ==> a[k] == list[k]
      {
        a[lo], a[hi] := a[hi], a[lo];
        lo, hi := lo + 1, hi - 1;
      }
      r := a[..];
      forall k | 0 <= k < |list| ensures r[k] == Reverse(list)[k] {
        ReverseAt(list, k);
      }
    }

    /**
     * Applies the stored decorators in turn, so the node comes out as
     * d1(d2(... dk(node) ...)) for decorators given as [d1, ..., dk].
     */
    method DecorateNode(decorate: (NodeDecorator, Node) -> Node, node: Node) returns (wrapped: Node)
      requires Valid()
      ensures wrapped == Compose(decorate, given, node)
      ensures given == [] ==> wrapped == node
    {
      wrapped := node;
      var n := |decorators|;
      for i := 0 to n
        invariant wrapped == Compose(decorate, given[n - i..], node)
      {
        ReverseAt(given, i);
        assert given[n - (i + 1)..][1..] == given[n - i..];
        wrapped := decorate(decorators[i], wrapped);
      }
      assert given[0..] == given;
    }

    /**
     * Closes the closeable decorators in stored order. `closeFails` says which
     * of them throw on closing; a failure is logged and the loop goes on.
     * Returns the decorators whose close was attempted and those that failed.
     */
    method Close(closeFails: NodeDecorator -> bool) returns (attempted: seq<NodeDecorator>, failed: seq<NodeDecorator>)
      ensures attempted == Filter(decorators, IsCloseable)
      ensures failed == Filter(attempted, closeFails)
    {
      attempted, failed := [], [];
      for i := 0 to |decorators|
        invariant attempted == Filter(decorators[..i], IsCloseable)
        invariant failed == Filter(attempted, closeFails)
      {
        var decorator := decorators[i];
        ghost var done := decorators[..i + 1];
        assert done[..|done| - 1] == decorators[..i] && done[|done| - 1] == decorator;
        if IsCloseable(decorator) {
          ghost var before := attempted;
          attempted := attempted + [decorator];
          assert attempted[..|attempted| - 1] == before && attempted[|attempted| - 1] == decorator;
          if closeFails(decorator) {
            failed := failed + [decorator];
          }
        }
      }
      assert decorators[..|decorators|] == decorators;
    }
  }
}
