/**
  The LIFO stack of src/c/stack.c: a linked list that push prepends to and
  pop takes from the front of. The list root is NULL whenever the stack is
  empty: it is created by the first push and released by the pop that takes
  the last element.
 */
module Stack {
  import opened Wrappers

  /** The contents after pushing each of `xs` in turn onto `c` (front = top). */
  function PushAll<T>(c: seq<T>, xs: seq<T>): seq<T>
    decreases |xs|
  {
    if xs == [] then c else PushAll([xs[0]] + c, xs[1..])
  }

  /** The values `n` pops return, in order, and the contents left. */
  function PopN<T>(c: seq<T>, n: nat): (seq<T>, seq<T>)
    requires n <= |c|
  {
    if n == 0 then ([], c)
    else
      var (rest, left) := PopN(c[1..], n - 1);
      ([c[0]] + rest, left)
  }

  function Reverse<T>(xs: seq<T>): (r: seq<T>)
    ensures |r| == |xs|
  {
    if xs == [] then [] else Reverse(xs[1..]) + [xs[0]]
  }

  lemma {:induction false} PushAllIsReversePrefix<T>(c: seq<T>, xs: seq<T>)
    ensures PushAll(c, xs) == Reverse(xs) + c
    decreases |xs|
  {
    if xs != [] {
      PushAllIsReversePrefix([xs[0]] + c, xs[1..]);
      assert Reverse(xs[1..]) + ([xs[0]] + c) == (Reverse(xs[1..]) + [xs[0]]) + c;
    }
  }

  lemma {:induction false} PopNOfPrefix<T>(top: seq<T>, c: seq<T>)
    ensures PopN(top + c, |top|) == (top, c)
  {
    if top != [] {
      var all := top + c;
      assert all[1..] == top[1..] + c;
      PopNOfPrefix(top[1..], c);
      assert PopN(all, |top|) == ([all[0]] + PopN(all[1..], |top| - 1).0, PopN(all[1..], |top| - 1).1);
      assert [top[0]] + top[1..] == top;
    } else {
      assert top + c == c;
    }
  }

  /** Pushing a1..an and then popping n times yields an..a1 and leaves the
      stack as it was. */
  lemma PushThenPopIsReversed<T>(c: seq<T>, xs: seq<T>)
    ensures |xs| <= |PushAll(c, xs)|
    ensures PopN(PushAll(c, xs), |xs|) == (Reverse(xs), c)
  {
    PushAllIsReversePrefix(c, xs);
    PopNOfPrefix(Reverse(xs), c);
  }

  class Stack<T> {
    /** The list root: None for NULL, otherwise the list, top first. */
    var root: Option<seq<T>>

    /** A root is only ever allocated holding at least one element. */
    ghost predicate Valid()
      reads this
    {
      root.Some? ==> root.value != []
    }

    /** The elements, top first. */
    function Contents(): (c: seq<T>)
      reads this
      ensures Valid() ==> (c == [] <==> root.None?)
    {
      if root.None? then [] else root.value
    }

    /** stack_create: an empty stack with no root. */
    constructor ()
      ensures Valid() && root.None? && Contents() == []
    {
      root := None;
    }

    /** stack_push: allocates the root if needed and prepends. */
    method Push(x: T)
      requires Valid()
      modifies this
      ensures Valid() && Contents() == [x] + old(Contents())
    {
      var list := if root.None? then [] else root.value;
      root := Some([x] + list);
    }

    /** stack_pop: None (NULL) on an empty stack, which stays empty;
        otherwise the top element, and the root is released when that was
        the last one. */
    method Pop() returns (r: Option<T>)
      requires Valid()
      modifies this
      ensures Valid()
      ensures old(Contents()) == [] ==> r.None? && Contents() == []
      ensures old(Contents()) != [] ==> r == Some(old(Contents())[0]) && Contents() == old(Contents())[1..]
    {
      if root.None? {
        return None;
      }
      var list := root.value;
      r := Some(list[0]);
      list := list[1..];
      if list == [] {
        root := None;
      } else {
        root := Some(list);
      }
    }

    /** stack_peek: the most recently pushed element still present, which
        stays on the stack. */
    method Peek() returns (r: Option<T>)
      requires Valid()
      ensures Contents() == [] <==> r.None?
      ensures r.Some? ==> r.value == Contents()[0]
    {
      r := if root.None? then None else Some(root.value[0]);
    }

    /** stack_destroy: the list is released. */
    method Destroy()
      modifies this
      ensures Valid() && Contents() == []
    {
      root := None;
    }
  }

  /** A client of the stack: a push followed by a pop gives the value back
      and the stack its previous contents. */
  method PushPop<T>(s: Stack<T>, x: T) returns (r: Option<T>)
    requires s.Valid()
    modifies s
    ensures r == Some(x)
    ensures s.Valid() && s.Contents() == old(s.Contents())
  {
    s.Push(x);
    r := s.Pop();
  }

  /** A client pushing each of `xs` in turn. */
  method PushEach<T>(s: Stack<T>, xs: seq<T>)
    requires s.Valid()
    modifies s
    ensures s.Valid() && s.Contents() == PushAll(old(s.Contents()), xs)
  {
    for i := 0 to |xs|
      invariant s.Valid() && PushAll(s.Contents(), xs[i..]) == PushAll(old(s.Contents()), xs)
    {
      assert xs[i..][1..] == xs[i + 1..];
      s.Push(xs[i]);
    }
  }

  /** A client popping `n` times, collecting the values in the order they
      come. */
  method PopEach<T>(s: Stack<T>, n: nat) returns (ys: seq<T>)
    requires s.Valid() && n <= |s.Contents()|
    modifies s
    ensures s.Valid() && (ys, s.Contents()) == PopN(old(s.Contents()), n)
  {
    ys := [];
    assert [] + PopN(s.Contents(), n).0 == PopN(s.Contents(), n).0;
    for i := 0 to n
      invariant s.Valid() && n - i <= |s.Contents()|
      invariant (ys + PopN(s.Contents(), n - i).0, PopN(s.Contents(), n - i).1) == PopN(old(s.Contents()), n)
    {
      ghost var c := s.Contents();
      var x := s.Pop();
      assert ys + PopN(c, n - i).0 == (ys + [x.value]) + PopN(s.Contents(), n - i - 1).0;
      ys := ys + [x.value];
    }
    assert ys + PopN(s.Contents(), 0).0 == ys;
  }

  /** Pushing `xs` and then popping as many times gives them back reversed
      and leaves the stack as it was. */
  method PushThenPop<T>(s: Stack<T>, xs: seq<T>) returns (ys: seq<T>)
    requires s.Valid()
    modifies s
    ensures ys == Reverse(xs)
    ensures s.Valid() && s.Contents() == old(s.Contents())
  {
    PushEach(s, xs);
    PushThenPopIsReversed(old(s.Contents()), xs);
    ys := PopEach(s, |xs|);
  }
}
