/** The sorted-buffer median filter of main/utils/MedianFilter.hpp.

    The buffer is kept in ascending order; a new value goes after every equal
    element (std::upper_bound). In batch mode the filter answers once per
    window and then empties; in moving mode it answers on every value and an
    over-full buffer loses its smallest element. */
module MedianFilter {

  const MinWindowSize: nat := 3
  const MaxWindowSize: nat := 21
  /** The "no value yet" answer of addValue. */
  const NotReady: real := -1.0

  datatype Filter = Filter(
    windowSize: nat,
    middleIndex: nat,
    movingMode: bool,
    values: seq<real>,
    calculated: real)

  /** The result of one addValue call: the new filter and the returned value. */
  datatype Step = Step(filter: Filter, output: real)

  predicate Sorted(s: seq<real>) {
    forall i, j :: 0 <= i < j < |s| ==> s[i] <= s[j]
  }

  /** What the class keeps true whatever its callers do: setWindowSize has
      run and the buffer is ordered. */
  predicate WellFormed(f: Filter) {
    && MinWindowSize <= f.windowSize <= MaxWindowSize
    && f.windowSize % 2 == 1
    && f.middleIndex == f.windowSize / 2
    && Sorted(f.values)
  }

  /** The buffer also fits the window: at most windowSize values in moving
      mode, fewer than windowSize in batch mode. */
  predicate Valid(f: Filter) {
    && WellFormed(f)
    && |f.values| <= f.windowSize
    && (!f.movingMode ==> |f.values| < f.windowSize)
  }

  /** The window size setWindowSize stores for a requested size. */
  function WindowSizeFor(size: nat): (ws: nat)
    ensures ws % 2 == 1
    ensures MinWindowSize <= ws <= MaxWindowSize
    ensures MinWindowSize <= size <= MaxWindowSize && size % 2 == 1 ==> ws == size
    ensures MinWindowSize <= size < MaxWindowSize && size % 2 == 0 ==> ws == size + 1
    ensures size > MaxWindowSize ==> ws == MaxWindowSize
    ensures size < MinWindowSize ==> ws == MinWindowSize
  {
    var odd := if size % 2 == 0 then size + 1 else size;
    var capped := if odd < MaxWindowSize then odd else MaxWindowSize;
    if capped > MinWindowSize then capped else MinWindowSize
  }

  function SetWindowSize(f: Filter, size: nat): (g: Filter)
    ensures g.windowSize == WindowSizeFor(size)
    ensures g.middleIndex == g.windowSize / 2
    ensures g.values == f.values && g.movingMode == f.movingMode && g.calculated == f.calculated
    ensures Sorted(f.values) ==> WellFormed(g)
  {
    var ws := WindowSizeFor(size);
    f.(windowSize := ws, middleIndex := ws / 2)
  }

  /** The constructor: an empty buffer and a cached value of -1. */
  function New(size: nat, movingMode: bool): (f: Filter)
    ensures Valid(f)
    ensures f.values == [] && f.calculated == NotReady
    ensures f.windowSize == WindowSizeFor(size) && f.movingMode == movingMode
  {
    SetWindowSize(Filter(0, 0, movingMode, [], NotReady), size)
  }

  /** Scans from index `from` for the first element strictly greater than v. */
  function FirstAbove(s: seq<real>, v: real, from: nat): (k: nat)
    requires from <= |s|
    requires forall i :: 0 <= i < from ==> s[i] <= v
    ensures from <= k <= |s|
    ensures forall i :: 0 <= i < k ==> s[i] <= v
    ensures k == |s| || v < s[k]
    decreases |s| - from
  {
    if from == |s| || v < s[from] then from else FirstAbove(s, v, from + 1)
  }

  /** Index of the first element strictly greater than v: every element
      before it is at most v and, the buffer being sorted, every element from
      it on is greater. */
  function UpperBound(s: seq<real>, v: real): (k: nat)
    requires Sorted(s)
    ensures k <= |s|
    ensures forall i :: 0 <= i < k ==> s[i] <= v
    ensures forall i :: k <= i < |s| ==> v < s[i]
  {
    FirstAbove(s, v, 0)
  }

  /** std::upper_bound's binary search; it finds the same split point. */
  method UpperBoundSearch(s: seq<real>, v: real) returns (k: nat)
    requires Sorted(s)
    ensures k <= |s|
    ensures forall i :: 0 <= i < k ==> s[i] <= v
    ensures forall i :: k <= i < |s| ==> v < s[i]
  {
    var lo, hi := 0, |s|;
    while lo < hi
      invariant 0 <= lo <= hi <= |s|
      invariant forall i :: 0 <= i < lo ==> s[i] <= v
      invariant forall i :: hi <= i < |s| ==> v < s[i]
      decreases hi - lo
    {
      var mid := lo + (hi - lo) / 2;
      if v < s[mid] {
        hi := mid;
      } else {
        lo := mid + 1;
      }
    }
    k := lo;
  }

  /** values.insert(upper_bound(...), v): the value lands after every
      element that is at most v and before every greater one, so it follows
      any equal elements. */
  function Insert(s: seq<real>, v: real): (r: seq<real>)
    requires Sorted(s)
    ensures Sorted(r)
    ensures |r| == |s| + 1
    ensures multiset(r) == multiset(s) + multiset{v}
    ensures r[UpperBound(s, v)] == v
    ensures forall i :: 0 <= i < UpperBound(s, v) ==> r[i] <= v
    ensures forall i :: UpperBound(s, v) < i < |r| ==> v < r[i]
  {
    var k := UpperBound(s, v);
    InsertAt(s, v, k);
    s[..k] + [v] + s[k..]
  }

  lemma InsertAt(s: seq<real>, v: real, k: nat)
    requires Sorted(s) && k <= |s|
    requires forall i :: 0 <= i < k ==> s[i] <= v
    requires forall i :: k <= i < |s| ==> v < s[i]
    ensures Sorted(s[..k] + [v] + s[k..])
    ensures multiset(s[..k] + [v] + s[k..]) == multiset(s) + multiset{v}
  {
    var r := s[..k] + [v] + s[k..];
    assert |r| == |s| + 1 && r[k] == v;
    assert forall i :: 0 <= i < k ==> r[i] == s[i];
    assert forall i :: k < i < |r| ==> r[i] == s[i - 1];
    forall i, j | 0 <= i < j < |r|
      ensures r[i] <= r[j]
    {
      if j < k {
        assert r[i] == s[i] && r[j] == s[j];
      } else if j == k {
        assert r[i] == s[i];
      } else if i < k {
        assert r[i] == s[i] && r[j] == s[j - 1];
      } else if i == k {
        assert r[j] == s[j - 1];
      } else {
        assert r[i] == s[i - 1] && r[j] == s[j - 1];
      }
    }
    calc {
      multiset(r);
      multiset(s[..k] + [v]) + multiset(s[k..]);
      multiset(s[..k]) + multiset{v} + multiset(s[k..]);
      { assert s == s[..k] + s[k..]; }
      multiset(s) + multiset{v};
    }
  }

  lemma SortedTail(s: seq<real>)
    requires Sorted(s) && |s| > 0
    ensures Sorted(s[1..])
    ensures forall x :: x in s[1..] ==> s[0] <= x
    ensures multiset(s[1..]) + multiset{s[0]} == multiset(s)
  {
    assert s == [s[0]] + s[1..];
  }

  /** `after` is what remains of the values `before` once one smallest
      element has been taken out. */
  ghost predicate DropsSmallest(before: multiset<real>, after: seq<real>) {
    exists d :: d in before && multiset(after) + multiset{d} == before
      && (forall x :: x in after ==> d <= x)
  }

  lemma DropHead(s: seq<real>)
    requires Sorted(s) && |s| > 0
    ensures Sorted(s[1..])
    ensures DropsSmallest(multiset(s), s[1..])
  {
    SortedTail(s);
    assert s[0] in multiset(s);
  }

  /** m is the middle element of the values in ms once they are sorted. */
  ghost predicate IsMiddleOf(m: real, ms: multiset<real>) {
    exists w :: Sorted(w) && multiset(w) == ms && |w| > 0 && m == w[|w| / 2]
  }

  /** addValue in moving mode: the value joins the buffer, an over-full
      buffer loses its smallest element, and the answer is always given. */
  function MovingAdd(f: Filter, v: real): (r: Step)
    requires WellFormed(f) && f.movingMode
    ensures WellFormed(r.filter)
    ensures r.filter == f.(values := r.filter.values, calculated := r.output)
    ensures Valid(f) ==> Valid(r.filter)
    ensures |f.values| < f.windowSize ==>
      multiset(r.filter.values) == multiset(f.values) + multiset{v}
    ensures |f.values| >= f.windowSize ==>
      |r.filter.values| == |f.values| && DropsSmallest(multiset(f.values) + multiset{v}, r.filter.values)
    ensures r.output in r.filter.values
    ensures Valid(f) ==> r.output == r.filter.values[|r.filter.values| / 2]
  {
    var ins := Insert(f.values, v);
    var kept := if |ins| > f.windowSize then DropHead(ins); ins[1..] else ins;
    var at := if |ins| >= f.windowSize then f.middleIndex else |ins| / 2;
    assert Valid(f) ==> |kept| == if |ins| > f.windowSize then f.windowSize else |ins|;
    assert Valid(f) ==> at == |kept| / 2;
    Step(f.(values := kept, calculated := kept[at]), kept[at])
  }

  /** addValue in batch mode: -1 until the window is full, then the middle
      value of the window and an empty buffer. */
  function BatchAdd(f: Filter, v: real): (r: Step)
    requires WellFormed(f) && !f.movingMode
    ensures WellFormed(r.filter)
    ensures r.filter.windowSize == f.windowSize && r.filter.middleIndex == f.middleIndex
    ensures r.filter.movingMode == f.movingMode
    ensures Valid(f) ==> Valid(r.filter)
    ensures |f.values| + 1 != f.windowSize ==>
      && r.output == NotReady && r.filter.calculated == f.calculated
      && multiset(r.filter.values) == multiset(f.values) + multiset{v}
    ensures |f.values| + 1 == f.windowSize ==>
      && r.filter.values == [] && r.filter.calculated == r.output
      && IsMiddleOf(r.output, multiset(f.values) + multiset{v})
  {
    var ins := Insert(f.values, v);
    if |ins| == f.windowSize then
      Step(f.(values := [], calculated := ins[f.middleIndex]), ins[f.middleIndex])
    else
      Step(f.(values := ins), NotReady)
  }

  /** addValue: both modes insert in order first. */
  function AddValue(f: Filter, v: real): (r: Step)
    requires WellFormed(f)
    ensures WellFormed(r.filter)
    ensures r.filter.windowSize == f.windowSize && r.filter.movingMode == f.movingMode
    ensures Valid(f) ==> Valid(r.filter)
    ensures r.output != NotReady ==> r.filter.calculated == r.output
    ensures r.output == NotReady ==> r.filter.calculated == f.calculated || r.filter.calculated == NotReady
  {
    if f.movingMode then MovingAdd(f, v) else BatchAdd(f, v)
  }

  /** reset. */
  function Reset(f: Filter): (g: Filter)
    ensures g.values == [] && g.calculated == NotReady
    ensures g.windowSize == f.windowSize && g.middleIndex == f.middleIndex && g.movingMode == f.movingMode
    ensures WellFormed(f) ==> Valid(g)
  {
    f.(values := [], calculated := NotReady)
  }

  /** Feeds a sequence of values one addValue at a time, collecting the answers. */
  function Feed(f: Filter, xs: seq<real>): (r: (Filter, seq<real>))
    requires WellFormed(f)
    ensures WellFormed(r.0) && |r.1| == |xs|
    ensures r.0.windowSize == f.windowSize && r.0.movingMode == f.movingMode
    decreases |xs|
  {
    if |xs| == 0 then (f, [])
    else
      var s := AddValue(f, xs[0]);
      var rest := Feed(s.filter, xs[1..]);
      (rest.0, [s.output] + rest.1)
  }

  lemma SortedHeadIsLeast(s: seq<real>, x: real)
    requires Sorted(s) && x in s
    ensures s[0] <= x
  {
    var i :| 0 <= i < |s| && s[i] == x;
    if i > 0 {
      assert s[0] <= s[i];
    }
  }

  /** Two ordered arrangements of the same values are the same sequence, so
      "the middle of the sorted values" names one value. */
  lemma {:induction false} SortedUnique(a: seq<real>, b: seq<real>)
    requires Sorted(a) && Sorted(b) && multiset(a) == multiset(b)
    ensures a == b
    decreases |a|
  {
    if |a| == 0 {
      assert |b| == |multiset(b)| == 0;
    } else {
      assert |b| == |multiset(b)| == |multiset(a)| == |a|;
      assert a[0] in multiset(b) && b[0] in multiset(a);
      SortedHeadIsLeast(b, a[0]);
      SortedHeadIsLeast(a, b[0]);
      var h := a[0];
      assert b[0] == h;
      SortedTail(a);
      SortedTail(b);
      var ta, tb := a[1..], b[1..];
      assert multiset(ta) + multiset{h} == multiset(tb) + multiset{h};
      assert multiset(ta) == (multiset(ta) + multiset{h}) - multiset{h};
      assert multiset(tb) == (multiset(tb) + multiset{h}) - multiset{h};
      SortedUnique(ta, tb);
      assert a == [h] + ta && b == [h] + tb;
    }
  }

  /** The batch answer is the middle of ANY sorted arrangement of the window. */
  lemma MiddleIsUnique(m: real, ms: multiset<real>, w: seq<real>)
    requires IsMiddleOf(m, ms)
    requires Sorted(w) && multiset(w) == ms
    ensures m == w[|w| / 2]
  {
    var w' :| Sorted(w') && multiset(w') == ms && |w'| > 0 && m == w'[|w'| / 2];
    SortedUnique(w', w);
  }

  /** Batch mode while the window fills: the buffer holds exactly the values
      fed so far ... */
  lemma {:induction false} BatchFilling(f: Filter, xs: seq<real>)
    requires WellFormed(f) && !f.movingMode
    requires |f.values| + |xs| < f.windowSize
    ensures multiset(Feed(f, xs).0.values) == multiset(f.values) + multiset(xs)
    decreases |xs|
  {
    if |xs| > 0 {
      var s := BatchAdd(f, xs[0]);
      assert |s.filter.values| == |multiset(s.filter.values)| == |f.values| + 1;
      BatchFilling(s.filter, xs[1..]);
      assert multiset(xs) == multiset{xs[0]} + multiset(xs[1..]) by {
        assert xs == [xs[0]] + xs[1..];
      }
    }
  }

  /** ... and every answer is -1. */
  lemma {:induction false} BatchFillingSilent(f: Filter, xs: seq<real>)
    requires WellFormed(f) && !f.movingMode
    requires |f.values| + |xs| < f.windowSize
    ensures forall i :: 0 <= i < |xs| ==> Feed(f, xs).1[i] == NotReady
    decreases |xs|
  {
    if |xs| > 0 {
      var s := BatchAdd(f, xs[0]);
      assert |s.filter.values| == |multiset(s.filter.values)| == |f.values| + 1;
      BatchFillingSilent(s.filter, xs[1..]);
    }
  }

  /** A full window fed into an empty batch filter: -1 for the first
      windowSize-1 values, then the median of the window, and the buffer is
      empty again. */
  lemma BatchWindow(f: Filter, xs: seq<real>, sorted: seq<real>)
    requires WellFormed(f) && !f.movingMode && f.values == []
    requires |xs| == f.windowSize
    requires Sorted(sorted) && multiset(sorted) == multiset(xs)
    ensures forall i :: 0 <= i < |xs| - 1 ==> Feed(f, xs).1[i] == NotReady
    ensures Feed(f, xs).1[|xs| - 1] == sorted[|sorted| / 2]
    ensures Feed(f, xs).0.values == []
  {
    var n := |xs| - 1;
    var front, last := xs[..n], xs[n];
    assert xs == front + [last];
    BatchFilling(f, front);
    BatchFillingSilent(f, front);
    FeedSplit(f, front, last);
    var g := Feed(f, front).0;
    assert multiset(g.values) + multiset{last} == multiset(xs) by {
      assert multiset(xs) == multiset(front) + multiset{last};
    }
    assert |g.values| == |multiset(g.values)| == |front|;
    BatchCompletes(g, last, sorted);
    var outs := Feed(f, xs).1;
    assert outs == Feed(f, front).1 + [AddValue(g, last).output];
    forall i | 0 <= i < n
      ensures outs[i] == NotReady
    {
      assert outs[i] == Feed(f, front).1[i];
    }
    assert outs[n] == AddValue(g, last).output;
  }

  /** The value that fills a batch window yields the window's median. */
  lemma BatchCompletes(g: Filter, last: real, sorted: seq<real>)
    requires WellFormed(g) && !g.movingMode && |g.values| + 1 == g.windowSize
    requires Sorted(sorted) && multiset(sorted) == multiset(g.values) + multiset{last}
    ensures AddValue(g, last).filter.values == []
    ensures AddValue(g, last).output == sorted[|sorted| / 2]
  {
    var r := BatchAdd(g, last);
    MiddleIsUnique(r.output, multiset(g.values) + multiset{last}, sorted);
  }

  /** Feeding front and then one more value. */
  lemma {:induction false} FeedSplit(f: Filter, front: seq<real>, last: real)
    requires WellFormed(f)
    ensures Feed(f, front + [last]).0 == AddValue(Feed(f, front).0, last).filter
    ensures Feed(f, front + [last]).1 == Feed(f, front).1 + [AddValue(Feed(f, front).0, last).output]
    decreases |front|
  {
    if |front| == 0 {
      assert front + [last] == [last];
    } else {
      var s := AddValue(f, front[0]);
      var xs := front + [last];
      assert xs[0] == front[0] && xs[1..] == front[1..] + [last];
      FeedSplit(s.filter, front[1..], last);
      var rest := Feed(s.filter, front[1..]);
      var o := AddValue(rest.0, last).output;
      calc {
        Feed(f, xs).1;
        [s.output] + Feed(s.filter, front[1..] + [last]).1;
        [s.output] + (rest.1 + [o]);
        { AppendAssoc([s.output], rest.1, [o]); }
        ([s.output] + rest.1) + [o];
        Feed(f, front).1 + [o];
      }
    }
  }

  lemma AppendAssoc(a: seq<real>, b: seq<real>, c: seq<real>)
    ensures a + (b + c) == (a + b) + c
  {
  }

  /** In moving mode the buffer grows by one per value until it holds a full
      window, and then stays at exactly windowSize values. */
  lemma {:induction false} MovingBufferFills(f: Filter, xs: seq<real>)
    requires Valid(f) && f.movingMode
    ensures Valid(Feed(f, xs).0)
    ensures |Feed(f, xs).0.values| == if |f.values| + |xs| < f.windowSize then |f.values| + |xs| else f.windowSize
    decreases |xs|
  {
    if |xs| > 0 {
      var s := MovingAdd(f, xs[0]);
      MovingBufferFills(s.filter, xs[1..]);
    }
  }

  /** After reset a batch filter again needs a whole window before it answers. */
  lemma ResetRestartsWindow(f: Filter, xs: seq<real>)
    requires WellFormed(f) && !f.movingMode
    requires |xs| < f.windowSize
    ensures forall i :: 0 <= i < |xs| ==> Feed(Reset(f), xs).1[i] == NotReady
  {
    BatchFillingSilent(Reset(f), xs);
  }
}
