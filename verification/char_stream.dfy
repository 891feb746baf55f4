/** `CharStream`: the lazily filled source of the interactive mode. Characters
    are pulled from a producer on demand; once the producer answers `None`
    the stream is stopped for good. The producer is modelled as the list of
    chunks it will hand out, after which it answers `None`. */
module CharStreams {
  import opened Base

  /** The observable state of a stream: what has been read so far, whether
      the producer has run dry, and what the producer still has to give. */
  datatype StreamState = StreamState(buffer: string, stop: bool, feed: seq<string>)

  /** Every character the stream will ever deliver from this state on. */
  function Total(st: StreamState): string
  {
    if st.stop then st.buffer else st.buffer + Concat(st.feed)
  }

  /** The state after `_get(i)`'s loop: chunks are appended until offset `i`
      is buffered or the producer answers `None`. */
  function Fill(st: StreamState, i: nat): (r: StreamState)
    ensures i < |r.buffer| || r.stop
    decreases |st.feed|
  {
    if i < |st.buffer| || st.stop then st
    else if st.feed == [] then st.(stop := true)
    else Fill(StreamState(st.buffer + st.feed[0], false, st.feed[1..]), i)
  }

  /** What `_get(i)` returns once the buffer is filled: the character, or "" past the end. */
  function CharAt(st: StreamState, i: nat): (r: string)
    ensures |r| <= 1
    ensures r != [] <==> i < |st.buffer|
  {
    if i < |st.buffer| then [st.buffer[i]] else ""
  }

  /** Filling only appends: the buffer grows by a prefix of what the producer
      still had, a stopped stream stays stopped and is left alone, and the
      characters still to come are the same. */
  lemma {:induction false} FillExtends(st: StreamState, i: nat)
    ensures st.buffer <= Fill(st, i).buffer
    ensures st.stop ==> Fill(st, i) == st
    ensures Total(Fill(st, i)) == Total(st)
    decreases |st.feed|
  {
    if i < |st.buffer| || st.stop {
    } else if st.feed == [] {
      assert Concat(st.feed) == [];
      assert st.buffer + [] == st.buffer;
    } else {
      var next := StreamState(st.buffer + st.feed[0], false, st.feed[1..]);
      FillExtends(next, i);
      assert Total(next) == st.buffer + st.feed[0] + Concat(st.feed[1..]);
      assert Total(st) == st.buffer + (st.feed[0] + Concat(st.feed[1..]));
    }
  }

  /** `_get(i)` delivers the `i`-th character of everything the producer ever
      hands out, or "" when that is shorter: whatever was buffered before. */
  lemma GetIsTotalAt(st: StreamState, i: nat)
    requires st.buffer <= Total(st)
    ensures CharAt(Fill(st, i), i) == if i < |Total(st)| then [Total(st)[i]] else ""
  {
    var r := Fill(st, i);
    FillExtends(st, i);
    FillCompleteWhenStopped(st, i);
    if i < |r.buffer| {
      assert r.buffer <= Total(r);
    }
  }

  /** After a fill that stopped the stream the whole of `Total` is buffered;
      otherwise the buffer is a prefix of it. */
  lemma {:induction false} FillCompleteWhenStopped(st: StreamState, i: nat)
    requires st.buffer <= Total(st)
    ensures Fill(st, i).buffer <= Total(Fill(st, i))
    ensures Fill(st, i).stop ==> Fill(st, i).buffer == Total(Fill(st, i))
    decreases |st.feed|
  {
    if i < |st.buffer| || st.stop {
    } else if st.feed == [] {
    } else {
      var next := StreamState(st.buffer + st.feed[0], false, st.feed[1..]);
      assert Total(next) == st.buffer + st.feed[0] + Concat(st.feed[1..]);
      FillCompleteWhenStopped(next, i);
    }
  }

  /** The prefix test the engine relies on: `s` occurs in `code` at `start`.
      The empty string occurs everywhere, even past the end, since the stream
      compares no character for it. */
  predicate StartsAt(code: string, s: string, start: nat)
  {
    s == [] || (start + |s| <= |code| && code[start..start + |s|] == s)
  }

  /** `startswith`'s character-by-character comparison from `s[k]` on, with the
      fills it causes: the answer and the state it leaves. */
  function StartsFrom(st: StreamState, s: string, start: nat, k: nat): (r: (bool, StreamState))
    decreases |s| - k
  {
    if k >= |s| then (true, st)
    else
      var st' := Fill(st, start + k);
      if CharAt(st', start + k) != [s[k]] then (false, st')
      else StartsFrom(st', s, start, k + 1)
  }

  /** On a stopped stream, `startswith` is the plain prefix test on the buffer
      and reads nothing. */
  lemma {:induction false} StartsFromStopped(st: StreamState, s: string, start: nat, k: nat)
    requires st.stop
    requires k <= |s|
    requires start + k <= |st.buffer| && st.buffer[start..start + k] == s[..k]
    ensures StartsFrom(st, s, start, k) == (StartsAt(st.buffer, s, start), st)
    decreases |s| - k
  {
    if k < |s| {
      if start + k < |st.buffer| && st.buffer[start + k] == s[k] {
        assert st.buffer[start..start + k + 1] == st.buffer[start..start + k] + [st.buffer[start + k]];
        assert s[..k + 1] == s[..k] + [s[k]];
        StartsFromStopped(st, s, start, k + 1);
      } else {
        assert !StartsAt(st.buffer, s, start);
      }
    } else {
      assert s[..k] == s;
    }
  }

  /** A stream whose producer is exhausted agrees with the engine's prefix
      test over its buffer. */
  lemma StoppedStartsWith(st: StreamState, s: string, start: nat)
    requires st.stop
    ensures StartsFrom(st, s, start, 0) == (StartsAt(st.buffer, s, start), st)
  {
    if start <= |st.buffer| {
      StartsFromStopped(st, s, start, 0);
    } else if s != [] {
      assert Fill(st, start) == st;
      assert CharAt(st, start) == "";
      assert StartsFrom(st, s, start, 0) == (false, st);
    }
  }

  /** A `CharStream` with its producer. */
  class CharStream {
    var buffer: string
    var stop: bool
    var feed: seq<string>

    function State(): StreamState
      reads this
    {
      StreamState(buffer, stop, feed)
    }

    /** `CharStream(ask_input)`: nothing read yet. */
    constructor (feed: seq<string>)
      ensures State() == StreamState("", false, feed)
    {
      buffer, stop, this.feed := "", false, feed;
    }

    /** `_get(i)`: pull chunks until offset `i` is buffered or the producer is dry. */
    method Get(i: nat) returns (r: string)
      modifies this
      ensures State() == Fill(old(State()), i)
      ensures r == CharAt(State(), i)
    {
      while i >= |buffer|
        invariant Fill(State(), i) == Fill(old(State()), i)
        decreases |feed|
      {
        if stop {
          return "";
        }
        if feed == [] {
          stop := true;
          return "";
        }
        buffer, feed := buffer + feed[0], feed[1..];
      }
      r := [buffer[i]];
    }

    /** `self[a:b]`: bounds are clamped to what is already buffered, so no
        chunk is pulled. */
    method GetSlice(a: nat, b: nat) returns (r: string)
      ensures r == Slice(buffer, a, b)
    {
      var lo, hi := Min(a, |buffer|), Min(b, |buffer|);
      r := "";
      var j := lo;
      while j < hi
        invariant lo <= j && (j <= hi || hi <= lo)
        invariant r == buffer[lo..Max(lo, Min(j, hi))]
      {
        r := r + [buffer[j]];
        j := j + 1;
      }
    }

    /** `len(self)`: only what is buffered. */
    function Length(): (n: nat)
      reads this
      ensures n == |State().buffer|
    {
      |buffer|
    }

    /** `rfind(char, start, end)`: fill up to `end`, then search the buffer. */
    method RFind(c: char, start: nat, end: nat) returns (j: int)
      modifies this
      ensures State() == Fill(old(State()), end)
      ensures j == if LastIndexOf(buffer, c, end) >= start then LastIndexOf(buffer, c, end) else -1
    {
      var _ := Get(end);
      j := LastIndexOf(buffer, c, end);
      if j < start {
        j := -1;
      }
    }

    /** `startswith(string, start)`: compare one character at a time, pulling
        chunks as needed and giving up at the first mismatch. */
    method StartsWith(s: string, start: nat) returns (b: bool)
      modifies this
      ensures (b, State()) == StartsFrom(old(State()), s, start, 0)
    {
      var k := 0;
      while k < |s|
        invariant k <= |s|
        invariant StartsFrom(State(), s, start, k) == StartsFrom(old(State()), s, start, 0)
        decreases |s| - k
      {
        var ch := Get(start + k);
        if ch != [s[k]] {
          return false;
        }
        k := k + 1;
      }
      b := true;
    }
  }
}
