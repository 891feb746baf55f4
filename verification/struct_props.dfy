/** What the combinators of the older engine promise, proved over `Extract`. */
module OldStructProps {
  import opened Base
  import opened Lexer
  import opened OldStructs

  /** `FirstStruct` tried from its `k+1`-th alternative is `FirstStruct` of
      the remaining alternatives tried from the `k`-th. */
  lemma {:induction false} FirstFromShift(fuel: nat, a: OStruct, rest: seq<OStruct>, sv: Option<string>,
                                          k: nat, toks: seq<CharToken>, m: StructMap)
    requires k <= |rest|
    ensures FirstFrom(fuel, FirstStruct([a] + rest, sv), k + 1, toks, m) == FirstFrom(fuel, FirstStruct(rest, sv), k, toks, m)
    decreases |rest| - k
  {
    if k < |rest| {
      assert ([a] + rest)[k + 1] == rest[k];
      FirstFromShift(fuel, a, rest, sv, k + 1, toks, m);
    }
  }

  /** `FirstStruct` is ordered choice: the first alternative that succeeds
      (or raises) decides; after a failure the next ones are tried on the
      same tokens; with none left it fails with `(None, 0)`. */
  lemma FirstOrderedChoice(fuel: nat, a: OStruct, rest: seq<OStruct>, sv: Option<string>,
                           toks: seq<CharToken>, m: StructMap)
    ensures Extract(fuel, FirstStruct([a] + rest, sv), toks, m)
         == if Extract(fuel, a, toks, m).Got? && Extract(fuel, a, toks, m).value.None?
            then Extract(fuel, FirstStruct(rest, sv), toks, m)
            else Extract(fuel, a, toks, m)
    ensures Extract(fuel, FirstStruct([], sv), toks, m) == Got(None, 0)
  {
    assert ([a] + rest)[0] == a;
    FirstFromShift(fuel, a, rest, sv, 0, toks, m);
  }

  /** A successful `SequenceStruct` builds an `AST` holding exactly the
      savenames of its parts (a later part with the same savename wins). */
  lemma SequenceSavesNamedParts(fuel: nat, s: OStruct, toks: seq<CharToken>, m: StructMap)
    requires s.SequenceStruct?
    ensures var o := Extract(fuel, s, toks, m);
            o.Got? && o.value.Some? ==> o.value.value.Node? && o.value.value.attrs.Keys == SavedNames(s.parts)
  {
    assert s.parts[0..] == s.parts;
  }

  /** A separator that matches without consuming a token makes the separator
      loop run for ever, so the sequence never answers. */
  lemma ZeroWidthSeparatorHangs(fuel: nat, s: OStruct, toks: seq<CharToken>, m: StructMap)
    requires s.SequenceStruct? && s.sep.Some? && s.parts != []
    requires var r := Extract(fuel, s.sep.value, toks, m); r.Got? && r.value.Some? && r.used == 0
    ensures Extract(fuel, s, toks, m) == Hangs
  {
    assert toks[0..] == toks;
    assert Extract(fuel, s, toks, m) == SeqFrom(fuel, s, 0, toks, 0, map[], m)
                                     == SkipSeps(fuel, s, 0, toks, 0, map[], m);
  }

  /** `Repeat` bounds: a success holds at least `mini` items and, with a
      finite `maxi`, no more than `max(mini, maxi)`; a count given alone
      means exactly that many. */
  lemma RepeatBounds(fuel: nat, s: OStruct, toks: seq<CharToken>, m: StructMap)
    requires s.Repeat?
    ensures var o := Extract(fuel, s, toks, m);
            o.Got? && o.value.Some? ==>
              o.value.value.Items? && o.value.value.attrs == s.kwargs
              && s.mini <= |o.value.value.items|
              && (s.maxi.Finite? ==> |o.value.value.items| <= Max(s.mini, s.maxi.n))
  {
  }

  /** `Repeat(x, n)`, a count alone, matches exactly `n` times or fails. */
  lemma RepeatCountIsExact(fuel: nat, x: OStruct, n: nat, toks: seq<CharToken>, m: StructMap)
    ensures var o := Extract(fuel, NewRepeat(x, Count(n), None, None, map[]).value, toks, m);
            o.Got? && o.value.Some? ==> |o.value.value.items| == n
  {
    RepeatBounds(fuel, NewRepeat(x, Count(n), None, None, map[]).value, toks, m);
  }

  /** A required match that fails makes the whole repetition fail with `(None, 0)`. */
  lemma RepeatNeedsMini(fuel: nat, s: OStruct, toks: seq<CharToken>, m: StructMap)
    requires s.Repeat? && s.mini > 0
    requires var r := Extract(fuel, s.item, toks, m); r.Got? && r.value.None?
    ensures Extract(fuel, s, toks, m) == Got(None, 0)
  {
    assert toks[0..] == toks;
  }

  /** An unbounded `Repeat` whose item matches without consuming runs for ever. */
  lemma UnboundedZeroWidthRepeatHangs(fuel: nat, s: OStruct, toks: seq<CharToken>, m: StructMap)
    requires s.Repeat? && s.maxi.Inf? && s.mini == 0
    requires var r := Extract(fuel, s.item, toks, m); r.Got? && r.value.Some? && r.used == 0
    ensures Extract(fuel, s, toks, m) == Hangs
  {
    assert toks[0..] == toks;
    assert Extract(fuel, s, toks, m) == RepeatRequired(fuel, s, toks, 0, [], m)
                                     == RepeatOptional(fuel, s, toks, 0, 0, [], m);
  }

  /** `StructGetter` resolves its name when extraction reaches it: a missing
      name is a `KeyError`, a present one delegates to what it names. */
  lemma GetterLooksUpAtExtraction(fuel: nat, name: string, sv: Option<string>, toks: seq<CharToken>, m: StructMap)
    ensures Some(name) !in m ==> Extract(fuel, StructGetter(name, sv), toks, m) == XRaise(KeyError)
    ensures Some(name) in m && fuel > 0 ==>
              Extract(fuel, StructGetter(name, sv), toks, m) == Extract(fuel - 1, m[Some(name)], toks, m)
  {
  }

  /** A `Structure` extracts as the combinator it wraps, whether given as a
      string, a combinator, or another `Structure` (which is unwrapped). */
  lemma StructureDelegates(fuel: nat, data: Interface, name: Option<string>, sv: Option<string>,
                           toks: seq<CharToken>, m: StructMap)
    requires !data.IOther?
    ensures Extract(fuel, NewStructure(data, name, sv).value, toks, m) == Extract(fuel, CastInterface(data).value, toks, m)
  {
  }
}
