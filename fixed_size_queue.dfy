/**
 * The bounded history queue the chat processor keeps (`utils/FixedSizeQueue.js`).
 * That file is not part of this model: its behaviour is ASSUMED to be the
 * sliding window below (append, then drop the oldest items while there are
 * more than `capacity`), which is what the processor relies on.
 */
module FixedSizeQueue {

  /** The last min(n, |s|) items of s, in order. */
  function LastN<T>(s: seq<T>, n: nat): (r: seq<T>)
    ensures |r| <= n && |r| <= |s|
    ensures |r| == if |s| <= n then |s| else n
    ensures r == s[|s| - |r|..]
  {
    if |s| <= n then s else s[|s| - n..]
  }

  /** The assumed effect of one `push(x)` on the contents `items`. */
  function Pushed<T>(items: seq<T>, capacity: nat, x: T): (r: seq<T>)
    requires |items| <= capacity
    ensures |r| == if |items| < capacity then |items| + 1 else capacity
    ensures capacity > 0 ==> r[|r| - 1] == x
    ensures capacity == 0 ==> r == []
  {
    LastN(items + [x], capacity)
  }

  /** A push keeps the newest capacity - 1 of the old items, in order, before the new one. */
  lemma PushedEvictsOldest<T>(items: seq<T>, capacity: nat, x: T)
    requires |items| <= capacity && capacity > 0
    ensures var r := Pushed(items, capacity, x);
      r[..|r| - 1] == LastN(items, capacity - 1)
  {
    var r := Pushed(items, capacity, x);
    var w := items + [x];
    assert r == w[|w| - |r|..];
    assert r[..|r| - 1] == items[|items| - (|r| - 1)..];
  }

  /** The contents after pushing every element of xs in turn. */
  function PushedAll<T>(items: seq<T>, capacity: nat, xs: seq<T>): (r: seq<T>)
    requires |items| <= capacity
    ensures |r| <= capacity
    decreases |xs|
  {
    if xs == [] then items else PushedAll(Pushed(items, capacity, xs[0]), capacity, xs[1..])
  }

  /** Sliding window: after any run of pushes the queue holds the last
      `capacity` of everything pushed (older contents first), in push order. */
  lemma {:induction false} PushedAllIsWindow<T>(items: seq<T>, capacity: nat, xs: seq<T>)
    requires |items| <= capacity
    ensures PushedAll(items, capacity, xs) == LastN(items + xs, capacity)
    decreases |xs|
  {
    if xs != [] {
      var x, t := xs[0], xs[1..];
      assert xs == [x] + t;
      var next := LastN(items + [x], capacity);
      PushedAllIsWindow(next, capacity, t);
      LastNOfLastN(items + [x], t, capacity);
      assert items + [x] + t == items + xs;
    }
  }

  /** Taking the window early does not change the final window. */
  lemma LastNOfLastN<T>(s: seq<T>, t: seq<T>, n: nat)
    ensures LastN(LastN(s, n) + t, n) == LastN(s + t, n)
  {
    var w := LastN(s, n);
    var k := |LastN(s + t, n)|;
    assert (s + t)[|s + t| - k..] == (w + t)[|w + t| - k..];
  }

  /** The queue of a chat session, as a value: its capacity and its contents,
      oldest first. Each session owns its queue alone, so a value with the three
      operations below is observably the same as the object the source mutates. */
  datatype Queue<T> = Queue(capacity: nat, items: seq<T>)
  {
    predicate Valid()
    {
      |items| <= capacity
    }

    /** `push(x)`: append x, evicting the oldest item when full. */
    function Push(x: T): (q: Queue<T>)
      requires Valid()
      ensures q.Valid() && q.capacity == capacity
      ensures q.items == Pushed(items, capacity, x)
    {
      Queue(capacity, LastN(items + [x], capacity))
    }

    /** `list()`: the current contents, oldest first (a value, so later pushes do not alter it). */
    function List(): (l: seq<T>)
      requires Valid()
      ensures |l| <= capacity && l == items
    {
      items
    }

    /** `clear()`: empty the queue. */
    function Clear(): (q: Queue<T>)
      ensures q.Valid() && q.capacity == capacity && q.items == []
    {
      Queue(capacity, [])
    }
  }

  /** `new FixedSizeQueue(size)`: an empty queue of that capacity. */
  function NewQueue<T>(capacity: nat): (q: Queue<T>)
    ensures q.Valid() && q.capacity == capacity && q.items == []
  {
    Queue(capacity, [])
  }

  /** With room for four, pushing A, B, C, D, E, F leaves C, D, E, F. */
  lemma WindowOfFour<T>(a: T, b: T, c: T, d: T, e: T, f: T)
    ensures PushedAll([], 4, [a, b, c, d, e, f]) == [c, d, e, f]
  {
    var xs := [a, b, c, d, e, f];
    PushedAllIsWindow([], 4, xs);
    assert [] + xs == xs;
    assert xs[2..] == [c, d, e, f];
  }
}
