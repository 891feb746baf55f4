/** `SequenceStruct.extract` and `Repeat.extract` as the source writes them:
    a running token counter `i`, a growing result, and the separator loop;
    each proved to compute what `OldStructs.Extract` defines. */
module OldStructLoops {
  import opened Base
  import opened Lexer
  import opened OldStructs

  /** `SequenceStruct.extract`: before each part skip separators while they
      match, then extract the part from the remaining tokens, saving its
      result under its savename; any failing part gives `(None, 0)`. */
  method RunSequenceStruct(fuel: nat, s: OStruct, toks: seq<CharToken>, m: StructMap) returns (o: XOutcome)
    requires s.SequenceStruct?
    ensures o == Extract(fuel, s, toks, m)
  {
    var kws: map<string, Ast> := map[];
    var i: nat := 0;
    var k := 0;
    while k < |s.parts|
      invariant k <= |s.parts| && i <= |toks|
      invariant SeqFrom(fuel, s, k, toks, i, kws, m) == Extract(fuel, s, toks, m)
    {
      if s.sep.Some? {
        while true
          invariant i <= |toks|
          invariant SkipSeps(fuel, s, k, toks, i, kws, m) == Extract(fuel, s, toks, m)
          decreases |toks| - i
        {
          var r := Extract(fuel, s.sep.value, toks[i..], m);
          if !r.Got? {
            return r;
          }
          if r.value.None? {
            break;
          }
          if r.used == 0 {
            return Hangs;
          }
          i := i + r.used;
        }
      }
      assert SeqPart(fuel, s, k, toks, i, kws, m) == Extract(fuel, s, toks, m);
      var part := s.parts[k];
      var r := Extract(fuel, part, toks[i..], m);
      if !r.Got? {
        return r;
      }
      if r.value.None? {
        return Got(None, 0);
      }
      i := i + r.used;
      if SaveName(part).Some? {
        kws := kws[SaveName(part).value := r.value.value];
      }
      k := k + 1;
    }
    o := Got(Some(Node(kws)), i);
  }

  /** `Repeat.extract`: `mini` matches are required, then at most
      `maxi - mini` more are taken until one fails. */
  method RunRepeat(fuel: nat, s: OStruct, toks: seq<CharToken>, m: StructMap) returns (o: XOutcome)
    requires s.Repeat?
    ensures o == Extract(fuel, s, toks, m)
  {
    var extracted: seq<Ast> := [];
    var i: nat := 0;
    for j := 0 to s.mini
      invariant i <= |toks| && |extracted| == j
      invariant RepeatRequired(fuel, s, toks, i, extracted, m) == Extract(fuel, s, toks, m)
    {
      var r := Extract(fuel, s.item, toks[i..], m);
      if !r.Got? {
        return r;
      }
      if r.value.None? {
        return Got(None, 0);
      }
      i := i + r.used;
      extracted := extracted + [r.value.value];
    }
    var n: nat := 0;
    while s.maxi.Inf? || n < s.maxi.n - s.mini
      invariant i <= |toks| && |extracted| == s.mini + n
      invariant s.maxi.Finite? ==> n <= Max(s.maxi.n - s.mini, 0)
      invariant RepeatOptional(fuel, s, toks, i, n, extracted, m) == Extract(fuel, s, toks, m)
      decreases if s.maxi.Finite? then Max(s.maxi.n - s.mini, 0) - n else 0, |toks| - i
    {
      var r := Extract(fuel, s.item, toks[i..], m);
      if !r.Got? {
        return r;
      }
      if r.value.None? {
        break;
      }
      if s.maxi.Inf? && r.used == 0 {
        return Hangs;
      }
      i := i + r.used;
      extracted := extracted + [r.value.value];
      n := n + 1;
    }
    o := Got(Some(Items(extracted, s.kwargs)), i);
  }
}
