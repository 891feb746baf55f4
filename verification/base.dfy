/** Shared helpers: an optional value, a result carrying an error, and the few
    string queries the engines use (counting a character, finding its last
    occurrence in a range, clamped slicing) written as Python's `str` has them. */
module Base {

  datatype Option<+T> = None | Some(value: T)

  datatype Result<+T, +E> = Ok(value: T) | Err(error: E)

  function Max(a: int, b: int): int { if a < b then b else a }

  function Min(a: int, b: int): int { if a < b then a else b }

  /** Number of occurrences of `c` in `s` (Python's `s.count(c)` for one character). */
  function CountOf(s: string, c: char): (n: nat)
    ensures n <= |s|
  {
    if s == [] then 0 else CountOf(s[..|s| - 1], c) + (if s[|s| - 1] == c then 1 else 0)
  }

  /** No occurrence is counted exactly when no position holds `c`. */
  lemma {:induction false} CountOfZero(s: string, c: char)
    ensures CountOf(s, c) == 0 <==> forall k :: 0 <= k < |s| ==> s[k] != c
  {
    if s != [] {
      var init := s[..|s| - 1];
      CountOfZero(init, c);
      assert forall k :: 0 <= k < |init| ==> init[k] == s[k];
    }
  }

  lemma {:induction false} CountOfAppend(a: string, b: string, c: char)
    ensures CountOf(a + b, c) == CountOf(a, c) + CountOf(b, c)
    decreases |b|
  {
    if b == [] {
      assert a + b == a;
    } else {
      assert (a + b)[..|a + b| - 1] == a + b[..|b| - 1];
      CountOfAppend(a, b[..|b| - 1], c);
    }
  }

  /** Python's slice `s[a:b]` for non-negative bounds: both ends are clamped to the length. */
  function Slice(s: string, a: nat, b: nat): (r: string)
    ensures |r| == Max(0, Min(b, |s|) - Min(a, |s|))
    ensures a <= b <= |s| ==> r == s[a..b]
  {
    var lo := Min(a, |s|);
    var hi := Min(b, |s|);
    if hi <= lo then [] else s[lo..hi]
  }

  /** Python's `s.rfind(c, 0, end)`: the largest index `j < end` with `s[j] == c`, or -1. */
  function LastIndexOf(s: string, c: char, end: nat): (j: int)
    ensures -1 <= j < Min(end, |s|)
    ensures j >= 0 ==> s[j] == c
    decreases end
  {
    if end == 0 then -1
    else if end > |s| then LastIndexOf(s, c, |s|)
    else if s[end - 1] == c then end - 1
    else LastIndexOf(s, c, end - 1)
  }

  /** Nothing between the index found and `end` holds `c`. */
  lemma {:induction false} LastIndexOfIsLast(s: string, c: char, end: nat)
    ensures forall k :: LastIndexOf(s, c, end) < k < Min(end, |s|) ==> s[k] != c
    decreases end
  {
    if end == 0 {
    } else if end > |s| {
      LastIndexOfIsLast(s, c, |s|);
    } else if s[end - 1] != c {
      LastIndexOfIsLast(s, c, end - 1);
    }
  }

  /** `LastIndexOf` is the only index with its two properties: an occurrence of
      `c` (or -1) with none after it before `end`. */
  lemma {:induction false} LastIndexOfUnique(s: string, c: char, end: nat, j: int)
    requires -1 <= j < Min(end, |s|)
    requires j >= 0 ==> s[j] == c
    requires forall k :: j < k < Min(end, |s|) ==> s[k] != c
    ensures LastIndexOf(s, c, end) == j
    decreases end
  {
    if end > |s| {
      LastIndexOfUnique(s, c, |s|, j);
    } else if end > 0 && s[end - 1] != c {
      LastIndexOfUnique(s, c, end - 1, j);
    }
  }

  /** The last occurrence in `s[..end]` lies inside `s[from..end]` exactly when that part holds one. */
  lemma {:induction false} LastIndexOfInRange(s: string, c: char, from: nat, end: nat)
    requires from <= end
    ensures (LastIndexOf(s, c, end) >= from) <==> CountOf(Slice(s, from, end), c) > 0
  {
    var r := Slice(s, from, end);
    var j := LastIndexOf(s, c, end);
    CountOfZero(r, c);
    LastIndexOfIsLast(s, c, end);
    if j >= from {
      assert r[j - from] == c;
    }
  }

  /** With no occurrence in `s[from..end]`, the last occurrence before `end` is the last one before `from`. */
  lemma LastIndexOfSkips(s: string, c: char, from: nat, end: nat)
    requires from <= end
    requires CountOf(Slice(s, from, end), c) == 0
    ensures LastIndexOf(s, c, end) == LastIndexOf(s, c, from)
  {
    LastIndexOfInRange(s, c, from, end);
    LastIndexOfIsLast(s, c, end);
    LastIndexOfIsLast(s, c, from);
  }

  function Concat(parts: seq<string>): (r: string)
    ensures parts == [] ==> r == []
  {
    if parts == [] then [] else parts[0] + Concat(parts[1..])
  }
}
