/** What `SequenceStruct.extract` computes, part by part: the separator loop,
    then the first part on the tokens left, then the rest of the sequence
    after it; the savenames collect the parts' results, a later part winning. */
module OldSeqProps {
  import opened Base
  import opened Lexer
  import opened OldStructs

  /** The attribute a part's result is saved under: none without a savename. */
  function Saved(part: OStruct, v: Ast): (r: map<string, Ast>)
    ensures r.Keys == if SaveName(part).Some? then {SaveName(part).value} else {}
    ensures SaveName(part).Some? ==> r[SaveName(part).value] == v
  {
    if SaveName(part).Some? then map[SaveName(part).value := v] else map[]
  }

  /** A sequence's result with `kws` saved before its own attributes, which win. */
  function WithKws(kws: map<string, Ast>, o: XOutcome): (r: XOutcome)
    ensures o.Got? && o.value.Some? && o.value.value.Node? ==>
              r == Got(Some(Node(kws + o.value.value.attrs)), o.used)
    ensures !(o.Got? && o.value.Some? && o.value.value.Node?) ==> r == o
  {
    if o.Got? && o.value.Some? && o.value.value.Node? then Got(Some(Node(kws + o.value.value.attrs)), o.used) else o
  }

  /** A result read on `toks[i:]`, counted from the start of `toks`; a
      failure stays `(None, 0)`. */
  function Off(i: nat, o: XOutcome): (r: XOutcome)
    ensures o.Got? && o.value.Some? ==> r == Got(o.value, i + o.used)
    ensures !(o.Got? && o.value.Some?) ==> r == o
  {
    if o.Got? && o.value.Some? then Got(o.value, i + o.used) else o
  }

  /** How the separator loop ends: at the offset where the separator stops
      matching, or with what stopped it otherwise. */
  datatype Lead = Landed(at: nat) | Stopped(o: XOutcome)

  /** The separator loop of `SequenceStruct.extract` on its own, from offset `i`. */
  function SepRun(fuel: nat, sep: Option<OStruct>, toks: seq<CharToken>, i: nat, m: StructMap): (r: Lead)
    requires i <= |toks|
    ensures r.Landed? ==> i <= r.at <= |toks|
    ensures sep.None? ==> r == Landed(i)
    ensures r.Stopped? ==> !r.o.Got?
    decreases |toks| - i
  {
    if sep.None? then Landed(i)
    else
      match Extract(fuel, sep.value, toks[i..], m)
      case Got(None, _) => Landed(i)
      case Got(Some(_), used) => if used == 0 then Stopped(Hangs) else SepRun(fuel, sep, toks, i + used, m)
      case o => Stopped(o)
  }

  /** `SepRun` on the tokens left after `i0`, counted from the start. */
  function LeadFrom(i0: nat, l: Lead): Lead
  {
    if l.Landed? then Landed(i0 + l.at) else l
  }

  /** The separator loop of the sequence is `SepRun`, and part `k` is read
      where it lands. */
  lemma {:induction false} SkipSepsIsSepRun(fuel: nat, s: OStruct, k: nat, toks: seq<CharToken>, i: nat,
                                            kws: map<string, Ast>, m: StructMap)
    requires s.SequenceStruct? && s.sep.Some? && k < |s.parts| && i <= |toks|
    ensures var l := SepRun(fuel, s.sep, toks, i, m);
            SkipSeps(fuel, s, k, toks, i, kws, m) == if l.Landed? then SeqPart(fuel, s, k, toks, l.at, kws, m) else l.o
    decreases |toks| - i
  {
    match Extract(fuel, s.sep.value, toks[i..], m)
    case Got(Some(_), used) =>
      if used > 0 {
        SkipSepsIsSepRun(fuel, s, k, toks, i + used, kws, m);
      }
    case _ =>
  }

  /** The separator loop read on `toks[i0:]` lands at the same place. */
  lemma {:induction false} SepRunOffset(fuel: nat, sep: Option<OStruct>, toks: seq<CharToken>, i0: nat, i: nat, m: StructMap)
    requires i0 <= i <= |toks|
    ensures SepRun(fuel, sep, toks, i, m) == LeadFrom(i0, SepRun(fuel, sep, toks[i0..], i - i0, m))
    decreases |toks| - i
  {
    assert toks[i0..][i - i0..] == toks[i..];
    if sep.Some? {
      match Extract(fuel, sep.value, toks[i..], m)
      case Got(Some(_), used) =>
        if used > 0 {
          SepRunOffset(fuel, sep, toks, i0, i + used, m);
        }
      case _ =>
    }
  }

  /** The attributes saved before part `k` come first in the result, the
      later ones winning. */
  lemma {:induction false} SeqFromKws(fuel: nat, s: OStruct, k: nat, toks: seq<CharToken>, i: nat,
                                      kws: map<string, Ast>, m: StructMap)
    requires s.SequenceStruct? && k <= |s.parts| && i <= |toks|
    ensures SeqFrom(fuel, s, k, toks, i, kws, m) == WithKws(kws, SeqFrom(fuel, s, k, toks, i, map[], m))
    decreases |s.parts| - k
  {
    if k == |s.parts| {
      assert kws + map[] == kws;
    } else {
      var j := i;
      if s.sep.Some? {
        SkipSepsIsSepRun(fuel, s, k, toks, i, kws, m);
        SkipSepsIsSepRun(fuel, s, k, toks, i, map[], m);
        if SepRun(fuel, s.sep, toks, i, m).Stopped? {
          return;
        }
        j := SepRun(fuel, s.sep, toks, i, m).at;
      }
      SeqPartKws(fuel, s, k, toks, j, kws, m);
    }
  }

  /** Part `k` read at offset `j`, with or without the earlier attributes. */
  lemma {:induction false} SeqPartKws(fuel: nat, s: OStruct, k: nat, toks: seq<CharToken>, j: nat,
                                      kws: map<string, Ast>, m: StructMap)
    requires s.SequenceStruct? && k < |s.parts| && j <= |toks|
    ensures SeqPart(fuel, s, k, toks, j, kws, m) == WithKws(kws, SeqPart(fuel, s, k, toks, j, map[], m))
    decreases |s.parts| - k, 0
  {
    var part := s.parts[k];
    match Extract(fuel, part, toks[j..], m)
    case Got(Some(v), used) =>
      var sv := Saved(part, v);
      SavedIsUpdate(kws, part, v);
      SeqFromKws(fuel, s, k + 1, toks, j + used, kws + sv, m);
      SeqFromKws(fuel, s, k + 1, toks, j + used, sv, m);
      WithKwsTwice(kws, sv, SeqFrom(fuel, s, k + 1, toks, j + used, map[], m));
    case _ =>
  }

  /** Saving a part's result updates the attributes with `Saved`. */
  lemma SavedIsUpdate(kws: map<string, Ast>, part: OStruct, v: Ast)
    ensures (if SaveName(part).Some? then kws[SaveName(part).value := v] else kws) == kws + Saved(part, v)
    ensures (if SaveName(part).Some? then map[][SaveName(part).value := v] else map[]) == Saved(part, v)
  {
  }

  /** Attributes saved in two rounds are saved once, the later round winning. */
  lemma WithKwsTwice(kws: map<string, Ast>, sv: map<string, Ast>, o: XOutcome)
    ensures WithKws(kws + sv, o) == WithKws(kws, WithKws(sv, o))
  {
    if o.Got? && o.value.Some? && o.value.value.Node? {
      assert (kws + sv) + o.value.value.attrs == kws + (sv + o.value.value.attrs);
    }
  }

  /** Reading the sequence on `toks[i0:]` gives the same result, counted
      from the start of `toks`. */
  lemma {:induction false} SeqFromOffset(fuel: nat, s: OStruct, k: nat, toks: seq<CharToken>, i0: nat, i: nat,
                                         kws: map<string, Ast>, m: StructMap)
    requires s.SequenceStruct? && k <= |s.parts| && i0 <= i <= |toks|
    ensures SeqFrom(fuel, s, k, toks, i, kws, m) == Off(i0, SeqFrom(fuel, s, k, toks[i0..], i - i0, kws, m))
    decreases |s.parts| - k, 2
  {
    var rest := toks[i0..];
    if k == |s.parts| {
      assert SeqFrom(fuel, s, k, toks, i, kws, m) == Got(Some(Node(kws)), i);
      assert SeqFrom(fuel, s, k, rest, i - i0, kws, m) == Got(Some(Node(kws)), i - i0);
    } else if s.sep.Some? {
      assert SeqFrom(fuel, s, k, toks, i, kws, m) == SkipSeps(fuel, s, k, toks, i, kws, m);
      assert SeqFrom(fuel, s, k, rest, i - i0, kws, m) == SkipSeps(fuel, s, k, rest, i - i0, kws, m);
      SkipSepsOffset(fuel, s, k, toks, i0, i, kws, m);
    } else {
      assert SeqFrom(fuel, s, k, toks, i, kws, m) == SeqPart(fuel, s, k, toks, i, kws, m);
      assert SeqFrom(fuel, s, k, rest, i - i0, kws, m) == SeqPart(fuel, s, k, rest, i - i0, kws, m);
      SeqPartOffset(fuel, s, k, toks, i0, i, kws, m);
    }
  }

  /** The separator loop before part `k`, read on `toks` or on `toks[i0:]`. */
  lemma {:induction false} SkipSepsOffset(fuel: nat, s: OStruct, k: nat, toks: seq<CharToken>, i0: nat, i: nat,
                                          kws: map<string, Ast>, m: StructMap)
    requires s.SequenceStruct? && s.sep.Some? && k < |s.parts| && i0 <= i <= |toks|
    ensures SkipSeps(fuel, s, k, toks, i, kws, m) == Off(i0, SkipSeps(fuel, s, k, toks[i0..], i - i0, kws, m))
    decreases |s.parts| - k, 1
  {
    SkipSepsIsSepRun(fuel, s, k, toks, i, kws, m);
    SkipSepsIsSepRun(fuel, s, k, toks[i0..], i - i0, kws, m);
    SepRunOffset(fuel, s.sep, toks, i0, i, m);
    var l := SepRun(fuel, s.sep, toks, i, m);
    if l.Landed? {
      SeqPartOffset(fuel, s, k, toks, i0, l.at, kws, m);
    }
  }

  /** Part `k` read at offset `j` of `toks` or of `toks[i0:]`. */
  lemma {:induction false} SeqPartOffset(fuel: nat, s: OStruct, k: nat, toks: seq<CharToken>, i0: nat, j: nat,
                                         kws: map<string, Ast>, m: StructMap)
    requires s.SequenceStruct? && k < |s.parts| && i0 <= j <= |toks|
    ensures SeqPart(fuel, s, k, toks, j, kws, m) == Off(i0, SeqPart(fuel, s, k, toks[i0..], j - i0, kws, m))
    decreases |s.parts| - k, 0
  {
    assert toks[i0..][j - i0..] == toks[j..];
    var part := s.parts[k];
    match Extract(fuel, part, toks[j..], m)
    case Got(Some(v), used) =>
      SeqFromOffset(fuel, s, k + 1, toks, i0, j + used, kws + Saved(part, v), m);
      SavedIsUpdate(kws, part, v);
    case _ =>
  }

  /** Dropping the first part of a sequence shifts the part index by one. */
  lemma {:induction false} SeqFromTail(fuel: nat, p: OStruct, qs: seq<OStruct>, sep: Option<OStruct>, sv: Option<string>,
                                       k: nat, toks: seq<CharToken>, i: nat, kws: map<string, Ast>, m: StructMap)
    requires k <= |qs| && i <= |toks|
    ensures SeqFrom(fuel, SequenceStruct([p] + qs, sep, sv), k + 1, toks, i, kws, m)
         == SeqFrom(fuel, SequenceStruct(qs, sep, sv), k, toks, i, kws, m)
    decreases |qs| - k, 1
  {
    var s, t := SequenceStruct([p] + qs, sep, sv), SequenceStruct(qs, sep, sv);
    if k < |qs| {
      if sep.Some? {
        SkipSepsIsSepRun(fuel, s, k + 1, toks, i, kws, m);
        SkipSepsIsSepRun(fuel, t, k, toks, i, kws, m);
        var l := SepRun(fuel, sep, toks, i, m);
        if l.Landed? {
          SeqPartTail(fuel, p, qs, sep, sv, k, toks, l.at, kws, m);
        }
      } else {
        SeqPartTail(fuel, p, qs, sep, sv, k, toks, i, kws, m);
      }
    }
  }

  /** Part `k + 1` of `[p] + qs` is part `k` of `qs`. */
  lemma {:induction false} SeqPartTail(fuel: nat, p: OStruct, qs: seq<OStruct>, sep: Option<OStruct>, sv: Option<string>,
                                       k: nat, toks: seq<CharToken>, j: nat, kws: map<string, Ast>, m: StructMap)
    requires k < |qs| && j <= |toks|
    ensures SeqPart(fuel, SequenceStruct([p] + qs, sep, sv), k + 1, toks, j, kws, m)
         == SeqPart(fuel, SequenceStruct(qs, sep, sv), k, toks, j, kws, m)
    decreases |qs| - k, 0
  {
    assert ([p] + qs)[k + 1] == qs[k];
    match Extract(fuel, qs[k], toks[j..], m)
    case Got(Some(v), used) =>
      SeqFromTail(fuel, p, qs, sep, sv, k + 1, toks, j + used, kws + Saved(qs[k], v), m);
      SavedIsUpdate(kws, qs[k], v);
    case _ =>
  }

  /** The first part read at offset `j`, then the sequence of `qs` on the
      tokens after it. */
  function PartThenRest(fuel: nat, p: OStruct, qs: seq<OStruct>, sep: Option<OStruct>, sv: Option<string>,
                        toks: seq<CharToken>, j: nat, m: StructMap): XOutcome
    requires j <= |toks|
  {
    match Extract(fuel, p, toks[j..], m)
    case Got(None, _) => Got(None, 0)
    case Got(Some(v), u) =>
      WithKws(Saved(p, v), Off(j + u, Extract(fuel, SequenceStruct(qs, sep, sv), toks[j + u..], m)))
    case o => o
  }

  /** A sequence read one part at a time: the separator loop, the part `p`
      where it lands, then the sequence of `qs` on the tokens after it. */
  function FirstThenRest(fuel: nat, p: OStruct, qs: seq<OStruct>, sep: Option<OStruct>, sv: Option<string>,
                         toks: seq<CharToken>, m: StructMap): XOutcome
  {
    match SepRun(fuel, sep, toks, 0, m)
    case Stopped(o) => o
    case Landed(j) => PartThenRest(fuel, p, qs, sep, sv, toks, j, m)
  }

  /** The first part of `[p] + qs`, read at offset `j`. */
  lemma SeqPartFirst(fuel: nat, p: OStruct, qs: seq<OStruct>, sep: Option<OStruct>, sv: Option<string>,
                     toks: seq<CharToken>, j: nat, m: StructMap)
    requires j <= |toks|
    ensures SeqPart(fuel, SequenceStruct([p] + qs, sep, sv), 0, toks, j, map[], m) == PartThenRest(fuel, p, qs, sep, sv, toks, j, m)
  {
    var s, t := SequenceStruct([p] + qs, sep, sv), SequenceStruct(qs, sep, sv);
    assert s.parts[0] == p;
    match Extract(fuel, p, toks[j..], m)
    case Got(Some(v), u) =>
      var kws := Saved(p, v);
      SavedIsUpdate(map[], p, v);
      SeqFromTail(fuel, p, qs, sep, sv, 0, toks, j + u, kws, m);
      SeqFromKws(fuel, t, 0, toks, j + u, kws, m);
      SeqFromOffset(fuel, t, 0, toks, j + u, j + u, map[], m);
    case _ =>
  }

  /** `SequenceStruct.extract`, one part at a time: the empty sequence gives
      an empty `AST` using nothing. Otherwise the separator loop runs, the
      first part is read where it lands, and the rest of the sequence is read
      after that. The result saves the first part under its savename, then
      the rest's attributes, which win on a shared name. It uses the
      separators, the part and the rest. It is `(None, 0)` exactly when the
      first part or the rest fails. */
  lemma SequenceCons(fuel: nat, p: OStruct, qs: seq<OStruct>, sep: Option<OStruct>, sv: Option<string>,
                     toks: seq<CharToken>, m: StructMap)
    ensures Extract(fuel, SequenceStruct([], sep, sv), toks, m) == Got(Some(Node(map[])), 0)
    ensures Extract(fuel, SequenceStruct([p] + qs, sep, sv), toks, m) == FirstThenRest(fuel, p, qs, sep, sv, toks, m)
  {
    var s := SequenceStruct([p] + qs, sep, sv);
    if sep.Some? {
      SkipSepsIsSepRun(fuel, s, 0, toks, 0, map[], m);
      var l := SepRun(fuel, sep, toks, 0, m);
      if l.Landed? {
        SeqPartFirst(fuel, p, qs, sep, sv, toks, l.at, m);
      }
    } else {
      SeqPartFirst(fuel, p, qs, sep, sv, toks, 0, m);
    }
  }

  /** A part that fails where it is read fails the whole sequence with
      `(None, 0)`, whatever comes after it. */
  lemma FailingFirstPartFailsSequence(fuel: nat, p: OStruct, qs: seq<OStruct>, sv: Option<string>,
                                      toks: seq<CharToken>, m: StructMap)
    requires var r := Extract(fuel, p, toks, m); r.Got? && r.value.None?
    ensures Extract(fuel, SequenceStruct([p] + qs, None, sv), toks, m) == Got(None, 0)
  {
    SequenceCons(fuel, p, qs, None, sv, toks, m);
    assert toks[0..] == toks;
  }
}
