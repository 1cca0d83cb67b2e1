/** Audio frames and the two buffers that hold them: the bounded pre-roll
    deque (`collections.deque(maxlen=...)`) and the growing main list. */
module Frames {

  /** One sample (a `float32` in the source, modelled as a real). */
  type Sample = real

  /** One frame: the mono samples delivered by one stream callback. */
  type Frame = seq<Sample>

  /** `sum(len(buf) for buf in buffers)`. */
  function TotalSamples(buffers: seq<Frame>): nat
  {
    if buffers == [] then 0
    else TotalSamples(buffers[..|buffers| - 1]) + |buffers[|buffers| - 1]|
  }

  /** `np.concatenate(buffers)`: all samples, frame after frame. */
  function Concat(buffers: seq<Frame>): (r: seq<Sample>)
    ensures |r| == TotalSamples(buffers)
  {
    if buffers == [] then []
    else Concat(buffers[..|buffers| - 1]) + buffers[|buffers| - 1]
  }

  /** Concatenation distributes over appending lists of frames. */
  lemma {:induction false} ConcatAppend(a: seq<Frame>, b: seq<Frame>)
    ensures Concat(a + b) == Concat(a) + Concat(b)
    decreases |b|
  {
    if b == [] {
      assert a + b == a;
    } else {
      var b' := b[..|b| - 1];
      assert (a + b)[..|a + b| - 1] == a + b';
      ConcatAppend(a, b');
    }
  }

  /** The deque's contents after `append(x)` with `maxlen = cap`: once full,
      the oldest frame is evicted, so at most the newest `cap` frames stay. */
  function BoundedAppend(s: seq<Frame>, x: Frame, cap: nat): (r: seq<Frame>)
    ensures |r| == if |s| < cap then |s| + 1 else cap
    ensures r == (s + [x])[|s| + 1 - |r|..]
  {
    if |s| < cap then s + [x]
    else (s + [x])[|s| + 1 - cap..]
  }

  /** Appending the first of `xs` leaves the rest of `xs` lined up with the
      tail of everything appended. */
  lemma BoundedAppendThen(s: seq<Frame>, xs: seq<Frame>, cap: nat)
    requires |s| <= cap && xs != []
    ensures var r := BoundedAppend(s, xs[0], cap);
            r + xs[1..] == (s + xs)[|s| + 1 - |r|..]
  {
    var r := BoundedAppend(s, xs[0], cap);
    var k := |s| + 1 - |r|;
    var all := s + xs;
    assert s + [xs[0]] == all[..|s| + 1];
    assert r == all[k..|s| + 1];
    assert xs[1..] == all[|s| + 1..];
  }

  /** The deque's contents after appending each of `xs` in turn. */
  function AppendAll(s: seq<Frame>, xs: seq<Frame>, cap: nat): (r: seq<Frame>)
    ensures |s| <= cap ==> |r| <= cap
    decreases |xs|
  {
    if xs == [] then s else AppendAll(BoundedAppend(s, xs[0], cap), xs[1..], cap)
  }

  /** Dropping `i` elements and then `j` more drops `i + j`. */
  lemma DropDrop<T>(a: seq<T>, i: nat, j: nat)
    requires i + j <= |a|
    ensures a[i..][j..] == a[i + j..]
  {
  }

  /** Oldest-first eviction: after any appends the deque holds exactly the
      last `cap` frames of everything appended (all of them if fewer). */
  lemma {:induction false} AppendAllKeepsNewest(s: seq<Frame>, xs: seq<Frame>, cap: nat)
    requires |s| <= cap
    ensures var n := if |s| + |xs| < cap then |s| + |xs| else cap;
            AppendAll(s, xs, cap) == (s + xs)[|s| + |xs| - n..]
    decreases |xs|
  {
    if xs == [] {
      assert s + xs == s;
    } else {
      var s' := BoundedAppend(s, xs[0], cap);
      var rest := xs[1..];
      var n := if |s| + |xs| < cap then |s| + |xs| else cap;
      var k := |s| + 1 - |s'|;
      assert |s'| + |rest| - n + k == |s| + |xs| - n;
      AppendAllKeepsNewest(s', rest, cap);
      BoundedAppendThen(s, xs, cap);
      DropDrop(s + xs, k, |s'| + |rest| - n);
    }
  }

  /** The pre-roll buffer: a `collections.deque` with a maximum length. */
  class FrameDeque {
    const maxLen: nat
    var frames: seq<Frame>

    ghost predicate Valid()
      reads this
    {
      |frames| <= maxLen
    }

    constructor (maxLen: nat)
      ensures Valid() && this.maxLen == maxLen && frames == []
    {
      this.maxLen := maxLen;
      frames := [];
    }

    /** `deque.append(x)`. */
    method Append(x: Frame)
      requires Valid()
      modifies this
      ensures Valid()
      ensures frames == BoundedAppend(old(frames), x, maxLen)
    {
      if maxLen == 0 {
        frames := [];
      } else if |frames| < maxLen {
        frames := frames + [x];
      } else {
        frames := frames[1..] + [x];
      }
    }

    /** `deque.clear()`. */
    method Clear()
      modifies this
      ensures Valid() && frames == []
    {
      frames := [];
    }
  }

  /** The main buffer: a Python list of frames. */
  class FrameList {
    var frames: seq<Frame>

    constructor ()
      ensures frames == []
    {
      frames := [];
    }

    /** `list.append(x)`. */
    method Append(x: Frame)
      modifies this
      ensures frames == old(frames) + [x]
    {
      frames := frames + [x];
    }

    /** `list.clear()`. */
    method Clear()
      modifies this
      ensures frames == []
    {
      frames := [];
    }
  }
}
