/** The combinators of the older `parser/` engine. Each works on the tokens
    that remain (`tokens[i:]`) and answers `(value, used)`: what it built and
    how many tokens it consumed, or `(None, 0)`. */
module OldStructs {
  import opened Base
  import opened Lexer

  /** What an extraction builds: a matched string, an `AST` node holding the
      saved parts of a sequence, or the `ast.List` of a repetition (its items
      and the extra attributes it was configured with). */
  datatype Ast =
    | Text(s: string)
    | Node(attrs: map<string, Ast>)
    | Items(items: seq<Ast>, attrs: map<string, Ast>)

  /** An upper repetition bound, `float('inf')` included. */
  datatype Bound = Finite(n: nat) | Inf

  /** A combinator of the older engine. `name` is what a `Structure` is
      registered under, `getName` what a `StructGetter` looks up. */
  datatype OStruct =
    | Structure(name: Option<string>, data: OStruct, savename: Option<string>)
    | String(str: string)
    | Char(chars: set<char>, excluded: bool, noescape: bool)
    | SequenceStruct(parts: seq<OStruct>, sep: Option<OStruct>, savename: Option<string>)
    | FirstStruct(alts: seq<OStruct>, savename: Option<string>)
    | StructGetter(getName: string, savename: Option<string>)
    | Repeat(item: OStruct, mini: nat, maxi: Bound, savename: Option<string>, kwargs: map<string, Ast>)

  /** The parser's `struct_map`, keyed by `struct.name` (which may be `None`). */
  type StructMap = map<Option<string>, OStruct>

  /** The exceptions of the older engine. */
  datatype OErr = TypeError | KeyError | ValueError | AttributeError | LexFailed

  /** What a constructor is handed where a combinator is expected. */
  datatype Interface = IText(s: string) | IStruct(st: OStruct) | IOther

  /** `cast_interface`: a string becomes `String`, a combinator stays, anything else is refused. */
  function CastInterface(x: Interface): (r: Result<OStruct, OErr>)
    ensures x.IText? ==> r == Ok(String(x.s))
    ensures x.IStruct? ==> r == Ok(x.st)
    ensures x.IOther? ==> r == Err(TypeError)
  {
    match x
    case IText(s) => Ok(String(s))
    case IStruct(st) => Ok(st)
    case IOther => Err(TypeError)
  }

  /** `getattr(part, "savename", None)` taken as a key only when truthy:
      `String` and `Char` have none. */
  function SaveName(s: OStruct): (r: Option<string>)
    ensures r.Some? ==> r.value != []
  {
    if s.String? || s.Char? then None
    else if s.savename.Some? && s.savename.value != [] then s.savename
    else None
  }

  /** The keys a sequence of these parts saves its results under. */
  function SavedNames(parts: seq<OStruct>): set<string>
    decreases |parts|
  {
    if parts == [] then {}
    else (if SaveName(parts[0]).Some? then {SaveName(parts[0]).value} else {}) + SavedNames(parts[1..])
  }

  /** `Structure(data, name, savename=...)`: a `Structure` handed as data is
      unwrapped one level. */
  function NewStructure(data: Interface, name: Option<string>, savename: Option<string>): (r: Result<OStruct, OErr>)
    ensures r.Ok? <==> !data.IOther?
    ensures r.Ok? ==> r.value.Structure? && r.value.name == name && r.value.savename == savename
    ensures data.IStruct? && data.st.Structure? ==> r == Ok(Structure(name, data.st.data, savename))
    ensures data.IStruct? && !data.st.Structure? ==> r == Ok(Structure(name, data.st, savename))
    ensures data.IText? ==> r == Ok(Structure(name, String(data.s), savename))
  {
    match CastInterface(data)
    case Err(e) => Err(e)
    case Ok(d) => Ok(Structure(name, if d.Structure? then d.data else d, savename))
  }

  /** The separator argument of `SequenceStruct`: none, a group of
      alternatives (a list, set or tuple) or a single one. */
  datatype SepSpec = NoSep | SepGroup(alts: seq<Interface>) | SepOne(one: Interface)

  /** Each interface cast in order; the first refusal wins. */
  function CastAll(xs: seq<Interface>): (r: Result<seq<OStruct>, OErr>)
    ensures r.Ok? ==> |r.value| == |xs| && forall k :: 0 <= k < |xs| ==> CastInterface(xs[k]) == Ok(r.value[k])
    ensures r.Err? <==> exists k :: 0 <= k < |xs| && xs[k].IOther?
    decreases |xs|
  {
    if xs == [] then Ok([])
    else
      match CastInterface(xs[0])
      case Err(e) => Err(e)
      case Ok(s) =>
        match CastAll(xs[1..])
        case Err(e) =>
          assert exists k :: 0 <= k < |xs[1..]| && xs[1..][k].IOther?;
          var k :| 0 <= k < |xs[1..]| && xs[1..][k].IOther?;
          assert xs[k + 1].IOther?;
          Err(e)
        case Ok(rest) => Ok([s] + rest)
  }

  /** The parts a `SequenceStruct` keeps: a `SequenceStruct` handed as a part
      contributes its own parts, anything else is cast and kept as one part. */
  function FlattenParts(xs: seq<Interface>): (r: Result<seq<OStruct>, OErr>)
    ensures r.Err? <==> exists k :: 0 <= k < |xs| && xs[k].IOther?
    decreases |xs|
  {
    if xs == [] then Ok([])
    else
      var head: Result<seq<OStruct>, OErr> :=
        if xs[0].IStruct? && xs[0].st.SequenceStruct? then Ok(xs[0].st.parts)
        else match CastInterface(xs[0]) case Err(e) => Err(e) case Ok(s) => Ok([s]);
      match head
      case Err(e) => Err(e)
      case Ok(h) =>
        match FlattenParts(xs[1..])
        case Err(e) =>
          assert exists k :: 0 <= k < |xs[1..]| && xs[1..][k].IOther?;
          var k :| 0 <= k < |xs[1..]| && xs[1..][k].IOther?;
          assert xs[k + 1].IOther?;
          Err(e)
        case Ok(rest) => Ok(h + rest)
  }

  /** Whether the separator argument is one `SequenceStruct` accepts:
      every alternative of a group, or the single one, casts. */
  predicate SepAccepted(sep: SepSpec)
  {
    match sep
    case NoSep => true
    case SepGroup(alts) => forall k :: 0 <= k < |alts| ==> !alts[k].IOther?
    case SepOne(one) => !one.IOther?
  }

  /** `SequenceStruct(*parts, savename=..., sep=...)`: no separator, a
      `FirstStruct` of a group's alternatives, or the single one cast. */
  function NewSequence(xs: seq<Interface>, sep: SepSpec, savename: Option<string>): (r: Result<OStruct, OErr>)
    ensures r.Ok? ==> r.value.SequenceStruct? && r.value.savename == savename
    ensures r.Ok? ==> FlattenParts(xs) == Ok(r.value.parts)
    ensures r.Ok? <==> FlattenParts(xs).Ok? && SepAccepted(sep)
    ensures r.Ok? && sep.NoSep? ==> r.value.sep == None
    ensures r.Ok? && sep.SepGroup? ==> r.value.sep == Some(FirstStruct(CastAll(sep.alts).value, None))
    ensures r.Ok? && sep.SepOne? ==> r.value.sep == Some(CastInterface(sep.one).value)
  {
    var sepStruct: Result<Option<OStruct>, OErr> :=
      match sep
      case NoSep => Ok(None)
      case SepGroup(alts) =>
        (match CastAll(alts) case Err(e) => Err(e) case Ok(ss) => Ok(Some(FirstStruct(ss, None))))
      case SepOne(one) =>
        (match CastInterface(one) case Err(e) => Err(e) case Ok(s) => Ok(Some(s)));
    match sepStruct
    case Err(e) => Err(e)
    case Ok(sp) =>
      match FlattenParts(xs)
      case Err(e) => Err(e)
      case Ok(parts) => Ok(SequenceStruct(parts, sp, savename))
  }

  /** Nesting sequences at construction is flattening: `(a + b) + c` keeps
      the three parts side by side, so its parts are `a`'s, then `b`'s. */
  lemma {:induction false} FlattenAppends(xs: seq<Interface>, ys: seq<Interface>)
    requires FlattenParts(xs).Ok? && FlattenParts(ys).Ok?
    ensures FlattenParts(xs + ys) == Ok(FlattenParts(xs).value + FlattenParts(ys).value)
    decreases |xs|
  {
    if xs == [] {
      assert xs + ys == ys;
      assert [] + FlattenParts(ys).value == FlattenParts(ys).value;
    } else {
      assert (xs + ys)[0] == xs[0];
      assert (xs + ys)[1..] == xs[1..] + ys;
      FlattenAppends(xs[1..], ys);
      var h := if xs[0].IStruct? && xs[0].st.SequenceStruct? then xs[0].st.parts else [CastInterface(xs[0]).value];
      assert FlattenParts(xs).value == h + FlattenParts(xs[1..]).value;
      assert h + (FlattenParts(xs[1..]).value + FlattenParts(ys).value)
          == (h + FlattenParts(xs[1..]).value) + FlattenParts(ys).value;
    }
  }

  /** `FirstStruct(*parts, savename=...)`. */
  function NewFirst(xs: seq<Interface>, savename: Option<string>): (r: Result<OStruct, OErr>)
    ensures r.Ok? <==> CastAll(xs).Ok?
    ensures r.Ok? ==> r == Ok(FirstStruct(CastAll(xs).value, savename))
  {
    match CastAll(xs)
    case Err(e) => Err(e)
    case Ok(ss) => Ok(FirstStruct(ss, savename))
  }

  /** The repetition count handed to `Repeat`: an integer, or a `(mini, maxi)`
      pair (what `MINI0` and `MINI1` carry). */
  datatype RepeatArg = Count(n: nat) | Range(lo: nat, hi: Bound)

  const Mini0: RepeatArg := Range(0, Inf)
  const Mini1: RepeatArg := Range(1, Inf)

  /** `Repeat(data, mini, maxi=None, savename=..., kwargs=...)`: without
      `maxi`, an integer means exactly that many and a pair is unpacked; a
      pair next to an explicit `maxi` is not a count. */
  function NewRepeat(data: OStruct, mini: RepeatArg, maxi: Option<Bound>, savename: Option<string>,
                     kwargs: map<string, Ast>): (r: Result<OStruct, OErr>)
    ensures maxi.None? && mini.Count? ==> r == Ok(Repeat(data, mini.n, Finite(mini.n), savename, kwargs))
    ensures maxi.None? && mini.Range? ==> r == Ok(Repeat(data, mini.lo, mini.hi, savename, kwargs))
    ensures maxi.Some? && mini.Count? ==> r == Ok(Repeat(data, mini.n, maxi.value, savename, kwargs))
    ensures maxi.Some? && mini.Range? ==> r.Err?
  {
    match maxi
    case None =>
      (match mini
       case Count(n) => Ok(Repeat(data, n, Finite(n), savename, kwargs))
       case Range(lo, hi) => Ok(Repeat(data, lo, hi, savename, kwargs)))
    case Some(b) =>
      if mini.Count? then Ok(Repeat(data, mini.n, b, savename, kwargs)) else Err(TypeError)
  }

  /** The parts a combinator contributes to a sequence built around it:
      a sequence's own parts, anything else itself. */
  function PartsOf(s: OStruct): seq<OStruct>
  {
    if s.SequenceStruct? then s.parts else [s]
  }

  /** Building a sequence of two: the first's parts, then the second's. */
  lemma FlattenPair(a: OStruct, b: Interface)
    ensures !b.IOther? ==> FlattenParts([IStruct(a), b]) == Ok(PartsOf(a) + PartsOf(CastInterface(b).value))
    ensures !b.IOther? ==> FlattenParts([b, IStruct(a)]) == Ok(PartsOf(CastInterface(b).value) + PartsOf(a))
  {
    if !b.IOther? {
      var pa, pb := PartsOf(a), PartsOf(CastInterface(b).value);
      assert [IStruct(a), b][1..] == [b] && [b, IStruct(a)][1..] == [IStruct(a)];
      assert [b][1..] == [] && [IStruct(a)][1..] == [];
      assert FlattenParts([b]) == Ok(pb + []) && pb + [] == pb;
      assert FlattenParts([IStruct(a)]) == Ok(pa + []) && pa + [] == pa;
    }
  }

  /** `a + b` on a combinator: a separator-less, unnamed sequence of `a`'s
      parts followed by `b`'s, what `b` is being cast first. */
  function OPlus(a: OStruct, b: Interface): (r: Result<OStruct, OErr>)
    ensures r.Ok? <==> !b.IOther?
    ensures r.Ok? ==> r.value == SequenceStruct(PartsOf(a) + PartsOf(CastInterface(b).value), None, None)
  {
    var xs := [IStruct(a), b];
    assert b.IOther? ==> xs[1].IOther?;
    assert !b.IOther? ==> forall k :: 0 <= k < |xs| ==> !xs[k].IOther?;
    FlattenPair(a, b);
    NewSequence(xs, NoSep, None)
  }

  /** `b + a` with `b` not a combinator (`__radd__`): `b`'s parts, then `a`'s. */
  function ORAdd(a: OStruct, b: Interface): (r: Result<OStruct, OErr>)
    ensures r.Ok? <==> !b.IOther?
    ensures r.Ok? ==> r.value == SequenceStruct(PartsOf(CastInterface(b).value) + PartsOf(a), None, None)
  {
    var xs := [b, IStruct(a)];
    assert b.IOther? ==> xs[0].IOther?;
    assert !b.IOther? ==> forall k :: 0 <= k < |xs| ==> !xs[k].IOther?;
    FlattenPair(a, b);
    NewSequence(xs, NoSep, None)
  }

  /** `a | b` on a combinator: the two as alternatives, `a` first. */
  function OOr(a: OStruct, b: Interface): (r: Result<OStruct, OErr>)
    ensures r.Ok? <==> !b.IOther?
    ensures r.Ok? ==> r.value == FirstStruct([a, CastInterface(b).value], None)
  {
    var xs := [IStruct(a), b];
    assert b.IOther? ==> xs[1].IOther?;
    assert !b.IOther? ==> forall k :: 0 <= k < |xs| ==> !xs[k].IOther?;
    assert CastAll(xs).Ok? ==> CastAll(xs).value == [a, CastInterface(b).value];
    NewFirst(xs, None)
  }

  /** `b | a` with `b` not a combinator (`__ror__`): `b` tried first. */
  function ROr(a: OStruct, b: Interface): (r: Result<OStruct, OErr>)
    ensures r.Ok? <==> !b.IOther?
    ensures r.Ok? ==> r.value == FirstStruct([CastInterface(b).value, a], None)
  {
    var xs := [b, IStruct(a)];
    assert b.IOther? ==> xs[0].IOther?;
    assert !b.IOther? ==> forall k :: 0 <= k < |xs| ==> !xs[k].IOther?;
    assert CastAll(xs).Ok? ==> CastAll(xs).value == [CastInterface(b).value, a];
    NewFirst(xs, None)
  }

  /** `a * n` on a combinator, and `n * a` (`__rmul__` is `__mul__`): an
      unnamed repetition of `a`, exactly `n` times for an integer, between
      the pair's bounds for a pair. */
  function OTimes(a: OStruct, n: RepeatArg): (r: Result<OStruct, OErr>)
    ensures r.Ok? && r.value.Repeat? && r.value.item == a
    ensures n.Count? ==> r.value.mini == n.n && r.value.maxi == Finite(n.n)
    ensures n.Range? ==> r.value.mini == n.lo && r.value.maxi == n.hi
    ensures r.value.savename.None? && r.value.kwargs == map[]
  {
    NewRepeat(a, n, None, None, map[])
  }

  /** What an extraction gives: `(value, used)`, an exception, a loop that
      never ends (a separator or an unbounded item matching without
      consuming), or exhaustion of the recursion budget. */
  datatype XOutcome = Got(value: Option<Ast>, used: nat) | XRaise(err: OErr) | Hangs | OutOfFuel

  /** The contract of every `extract`: never more than the tokens given, and `(None, 0)` on failure. */
  predicate Fits(o: XOutcome, n: nat)
  {
    o.Got? ==> o.used <= n && (o.value.None? ==> o.used == 0)
  }

  /** `String.extract`: the characters are compared, whether escaped or not. */
  function MatchString(str: string, toks: seq<CharToken>): (o: XOutcome)
    ensures o.Got? && Fits(o, |toks|)
    ensures o.value.Some? ==> o.value.value == Text(str) && o.used == |str|
  {
    if |toks| < |str| then Got(None, 0)
    else if forall k :: 0 <= k < |str| ==> toks[k].ch == str[k] then Got(Some(Text(str)), |str|)
    else Got(None, 0)
  }

  /** `Char.extract` as written: a `match` on `(contained, escaping,
      excluded)` settles some cases and an `if` chain the rest. */
  function MatchChar(chars: set<char>, excluded: bool, noescape: bool, toks: seq<CharToken>): (o: XOutcome)
    ensures o.Got? && Fits(o, |toks|)
    ensures o.value.Some? ==> o.used == 1 && o.value.value == Text([toks[0].ch])
    ensures toks == [] ==> o == Got(None, 0)
  {
    if |toks| < 1 then Got(None, 0)
    else
      var t := toks[0];
      var contained := t.ch in chars;
      var escaping := (noescape && t.isEscaped) != excluded;
      var accept := Got(Some(Text([t.ch])), 1);
      if (contained && !escaping && !excluded) || (!contained && !escaping && excluded) then accept
      else if !contained && !excluded then Got(None, 0)
      else if contained then
        if excluded then (if noescape && t.isEscaped then accept else Got(None, 0))
        else if noescape && t.isEscaped then Got(None, 0)
        else accept
      else if excluded then accept
      else Got(None, 0)
  }

  /** Escaped tokens with the flag cleared. */
  function Plain(toks: seq<CharToken>): (r: seq<CharToken>)
    ensures |r| == |toks|
    ensures forall k :: 0 <= k < |toks| ==> r[k] == CharToken(toks[k].ch, false)
  {
    seq(|toks|, k requires 0 <= k < |toks| => CharToken(toks[k].ch, false))
  }

  /** The tokens of an input holding no escape marker: one unescaped token per character. */
  function PlainTokens(s: string): (r: seq<CharToken>)
    ensures |r| == |s| && forall k :: 0 <= k < |s| ==> r[k] == CharToken(s[k], false)
  {
    seq(|s|, k requires 0 <= k < |s| => CharToken(s[k], false))
  }

  /** `Char` acceptance, with E = `noescape and isescaped`: without
      `excluded` a token is taken iff its character is in the set and not E;
      with `excluded`, iff its character is outside the set or E. */
  lemma CharAcceptance(chars: set<char>, excluded: bool, noescape: bool, toks: seq<CharToken>)
    requires toks != []
    ensures var e := noescape && toks[0].isEscaped;
            MatchChar(chars, excluded, noescape, toks).value.Some?
            <==> (if excluded then toks[0].ch !in chars || e else toks[0].ch in chars && !e)
  {
  }

  /** `String` ignores escaping: escaped tokens match as their plain characters. */
  lemma StringIgnoresEscapes(str: string, toks: seq<CharToken>)
    ensures MatchString(str, toks) == MatchString(str, Plain(toks))
  {
  }

  /** `String` matches exactly when the tokens begin with its characters,
      consuming that many tokens. */
  lemma StringMatchesPrefix(str: string, rest: seq<CharToken>)
    ensures MatchString(str, PlainTokens(str) + rest) == Got(Some(Text(str)), |str|)
    ensures forall toks :: |toks| < |str| ==> MatchString(str, toks) == Got(None, 0)
  {
    var toks := PlainTokens(str) + rest;
    assert forall k :: 0 <= k < |str| ==> toks[k].ch == str[k];
  }

  /** `extract(tokens, struct_map)` for every combinator. */
  function Extract(fuel: nat, s: OStruct, toks: seq<CharToken>, m: StructMap): (o: XOutcome)
    ensures Fits(o, |toks|)
    decreases fuel, s, 2, 0, 0, 0
  {
    match s
    case Structure(_, data, _) => Extract(fuel, data, toks, m)
    case String(str) => MatchString(str, toks)
    case Char(chars, excluded, noescape) => MatchChar(chars, excluded, noescape, toks)
    case SequenceStruct(_, _, _) => SeqFrom(fuel, s, 0, toks, 0, map[], m)
    case FirstStruct(_, _) => FirstFrom(fuel, s, 0, toks, m)
    case StructGetter(name, _) =>
      if Some(name) !in m then XRaise(KeyError)
      else if fuel == 0 then OutOfFuel
      else Extract(fuel - 1, m[Some(name)], toks, m)
    case Repeat(_, _, _, _, _) => RepeatRequired(fuel, s, toks, 0, [], m)
  }

  /** The outcome of a sequence, a repetition or an alternative started at
      offset `i`: `(None, 0)` on failure, at least `i` and at most all the
      tokens used on success. */
  predicate FitsFrom(o: XOutcome, i: nat, n: nat)
  {
    o.Got? ==> (o.value.None? ==> o.used == 0) && (o.value.Some? ==> i <= o.used <= n)
  }

  /** `SequenceStruct.extract` from part `k` on, at offset `i`, with the
      saved results `kws` so far. */
  function SeqFrom(fuel: nat, s: OStruct, k: nat, toks: seq<CharToken>, i: nat,
                   kws: map<string, Ast>, m: StructMap): (o: XOutcome)
    requires s.SequenceStruct? && k <= |s.parts| && i <= |toks|
    ensures FitsFrom(o, i, |toks|)
    ensures o.Got? && o.value.Some? ==> o.value.value.Node? && o.value.value.attrs.Keys == kws.Keys + SavedNames(s.parts[k..])
    decreases fuel, s, 1, |s.parts| - k, |toks| - i, 2
  {
    if k == |s.parts| then Got(Some(Node(kws)), i)
    else if s.sep.Some? then SkipSeps(fuel, s, k, toks, i, kws, m)
    else SeqPart(fuel, s, k, toks, i, kws, m)
  }

  /** The separator loop before part `k`: separators are skipped while they
      match. */
  function SkipSeps(fuel: nat, s: OStruct, k: nat, toks: seq<CharToken>, i: nat,
                    kws: map<string, Ast>, m: StructMap): (o: XOutcome)
    requires s.SequenceStruct? && s.sep.Some? && k < |s.parts| && i <= |toks|
    ensures FitsFrom(o, i, |toks|)
    ensures o.Got? && o.value.Some? ==> o.value.value.Node? && o.value.value.attrs.Keys == kws.Keys + SavedNames(s.parts[k..])
    decreases fuel, s, 1, |s.parts| - k, |toks| - i, 1
  {
    match Extract(fuel, s.sep.value, toks[i..], m)
    case Got(None, _) => SeqPart(fuel, s, k, toks, i, kws, m)
    case Got(Some(_), used) => if used == 0 then Hangs else SkipSeps(fuel, s, k, toks, i + used, kws, m)
    case o => o
  }

  /** Part `k` of the sequence, then the rest; its result is saved when it has a savename. */
  function SeqPart(fuel: nat, s: OStruct, k: nat, toks: seq<CharToken>, i: nat,
                   kws: map<string, Ast>, m: StructMap): (o: XOutcome)
    requires s.SequenceStruct? && k < |s.parts| && i <= |toks|
    ensures FitsFrom(o, i, |toks|)
    ensures o.Got? && o.value.Some? ==> o.value.value.Node? && o.value.value.attrs.Keys == kws.Keys + SavedNames(s.parts[k..])
    decreases fuel, s, 1, |s.parts| - k, |toks| - i, 0
  {
    var part := s.parts[k];
    assert s.parts[k..][1..] == s.parts[k + 1..];
    match Extract(fuel, part, toks[i..], m)
    case Got(None, _) => Got(None, 0)
    case Got(Some(v), used) =>
      var kws' := if SaveName(part).Some? then kws[SaveName(part).value := v] else kws;
      SeqFrom(fuel, s, k + 1, toks, i + used, kws', m)
    case o => o
  }

  /** `FirstStruct.extract` from alternative `k` on. */
  function FirstFrom(fuel: nat, s: OStruct, k: nat, toks: seq<CharToken>, m: StructMap): (o: XOutcome)
    requires s.FirstStruct? && k <= |s.alts|
    ensures Fits(o, |toks|)
    decreases fuel, s, 1, |s.alts| - k, 0, 0
  {
    if k == |s.alts| then Got(None, 0)
    else
      match Extract(fuel, s.alts[k], toks, m)
      case Got(None, _) => FirstFrom(fuel, s, k + 1, toks, m)
      case o => o
  }

  /** The `mini` required matches of `Repeat.extract`, `acc` holding those found so far. */
  function RepeatRequired(fuel: nat, s: OStruct, toks: seq<CharToken>, i: nat, acc: seq<Ast>, m: StructMap): (o: XOutcome)
    requires s.Repeat? && i <= |toks| && |acc| <= s.mini
    ensures FitsFrom(o, i, |toks|)
    ensures o.Got? && o.value.Some? ==>
              o.value.value.Items? && o.value.value.attrs == s.kwargs
              && |acc| <= |o.value.value.items| && o.value.value.items[..|acc|] == acc
              && s.mini <= |o.value.value.items| <= Max(s.mini, if s.maxi.Finite? then s.maxi.n else |o.value.value.items|)
    decreases fuel, s, 1, 1, s.mini - |acc|, 0
  {
    if |acc| == s.mini then RepeatOptional(fuel, s, toks, i, 0, acc, m)
    else
      match Extract(fuel, s.item, toks[i..], m)
      case Got(None, _) => Got(None, 0)
      case Got(Some(v), used) =>
        var r := RepeatRequired(fuel, s, toks, i + used, acc + [v], m);
        assert r.Got? && r.value.Some? ==> r.value.value.items[..|acc|] == r.value.value.items[..|acc| + 1][..|acc|];
        r
      case o => o
  }

  /** The optional matches: at most `maxi - mini` more, stopping at the first failure. */
  function RepeatOptional(fuel: nat, s: OStruct, toks: seq<CharToken>, i: nat, n: nat, acc: seq<Ast>, m: StructMap): (o: XOutcome)
    requires s.Repeat? && i <= |toks| && |acc| == s.mini + n
    requires s.maxi.Finite? ==> n <= Max(s.maxi.n - s.mini, 0)
    ensures FitsFrom(o, i, |toks|)
    ensures o.Got? && o.value.Some? ==>
              o.value.value.Items? && o.value.value.attrs == s.kwargs
              && |acc| <= |o.value.value.items| && o.value.value.items[..|acc|] == acc
              && s.mini <= |o.value.value.items| <= Max(s.mini, if s.maxi.Finite? then s.maxi.n else |o.value.value.items|)
    decreases fuel, s, 1, 0, if s.maxi.Finite? then Max(s.maxi.n - s.mini, 0) - n else 0, |toks| - i
  {
    if s.maxi.Finite? && n >= s.maxi.n - s.mini then Got(Some(Items(acc, s.kwargs)), i)
    else
      match Extract(fuel, s.item, toks[i..], m)
      case Got(None, _) => Got(Some(Items(acc, s.kwargs)), i)
      case Got(Some(v), used) =>
        if s.maxi.Inf? && used == 0 then Hangs
        else
          var r := RepeatOptional(fuel, s, toks, i + used, n + 1, acc + [v], m);
          assert r.Got? && r.value.Some? ==> r.value.value.items[..|acc|] == r.value.value.items[..|acc| + 1][..|acc|];
          r
      case o => o
  }
}
