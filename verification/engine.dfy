/** `BasicStruct.parse` and every combinator's `_parse`: one recursive
    function over the combinator, the namespace, the cursor and the source.
    The namespace is threaded through and handed back, because `SaveAs`
    writes into the very dict its caller and its siblings share. */
module Engine {
  import opened Base
  import opened Positions
  import opened CharStreams
  import opened Grammar

  /** What a parse runs against: the source text (the characters the
      `CharStream` delivers) and the user factories, applied by number. */
  datatype Env = Env(code: string, apply: (nat, seq<Value>) -> Value)

  /** `(value | None, index)` with the namespace as it stands afterwards, a
      raised exception, or exhaustion of the recursion budget (Python's
      `RecursionError`). */
  datatype Outcome =
    | Parsed(value: Option<Value>, pos: Position, ns: Namespace)
    | Raise(err: Error)
    | Exhausted

  /** The contract every combinator keeps: a parse from `from` ends no
      earlier than `from` and, unless it started past the end, no later than
      the end of the source; a `None` result hands back `from` itself. */
  predicate WellPlaced(o: Outcome, from: Position, code: string)
  {
    o.Parsed? ==> from.i <= o.pos.i <= Max(from.i, |code|) && (o.value.None? ==> o.pos == from)
  }

  /** `obj[k]` on a list: negative indexes count from the end. */
  function PyIndex(xs: seq<Value>, k: int): (r: Result<Value, Error>)
    ensures r.Ok? <==> -|xs| <= k < |xs|
    ensures 0 <= k < |xs| ==> r == Ok(xs[k])
  {
    if 0 <= k < |xs| then Ok(xs[k])
    else if -|xs| <= k < 0 then Ok(xs[|xs| + k])
    else Err(IndexError)
  }

  /** A slice bound clamped into `[0, n]`, negative bounds counting from the end. */
  function ClampBound(b: Option<int>, dflt: nat, n: nat): (r: nat)
    ensures r <= n || (b.None? && r == dflt)
  {
    match b
    case None => dflt
    case Some(v) => if v < 0 then Max(v + n, 0) else Min(v, n)
  }

  /** `obj[lo:hi]` on a list. */
  function PySlice(xs: seq<Value>, lo: Option<int>, hi: Option<int>): (r: seq<Value>)
    ensures lo.None? && hi.None? ==> r == xs
    ensures |r| <= |xs|
  {
    var a := ClampBound(lo, 0, |xs|);
    var b := ClampBound(hi, |xs|, |xs|);
    if a < b then xs[a..b] else []
  }

  /** `Sequence._getargs`: the values picked out by `indexes`, in order. */
  function Project(xs: seq<Value>, indexes: seq<Index>): (r: Result<seq<Value>, Error>)
    ensures r.Ok? ==> |r.value| == |indexes|
    ensures indexes == [] ==> r == Ok([])
    ensures indexes == [Whole] ==> r == Ok([List(xs)])
    decreases |indexes|
  {
    if indexes == [] then Ok([])
    else
      var ix := indexes[0];
      var item := if ix.At? then PyIndex(xs, ix.k) else Ok(List(PySlice(xs, ix.lo, ix.hi)));
      assert indexes == [Whole] ==> ix == Span(None, None) && indexes[1..] == [];
      match item
      case Err(e) => Err(e)
      case Ok(v) =>
        match Project(xs, indexes[1..])
        case Err(e) => Err(e)
        case Ok(rest) =>
          assert indexes == [Whole] ==> v == List(xs) && [v] + rest == [List(xs)];
          Ok([v] + rest)
  }

  /** Iterating a value, as `tuple(x)` and `list(x)` do: a string gives its
      characters, a list or tuple its items; anything else is not iterable. */
  function Iterate(v: Value): (r: Option<seq<Value>>)
    ensures (v.List? || v.Tuple?) ==> r == Some(v.items)
    ensures r.None? <==> !(v.List? || v.Tuple? || v.Text? || v.Tok?)
  {
    match v
    case List(xs) => Some(xs)
    case Tuple(xs) => Some(xs)
    case Text(s) => Some(seq(|s|, k requires 0 <= k < |s| => Text([s[k]])))
    case Tok(t) => Some(seq(|t.text|, k requires 0 <= k < |t.text| => Text([t.text[k]])))
    case _ => None
  }

  /** The builtins `tuple(*args)` and `list(*args)`: at most one iterable argument. */
  function Builtin(asTuple: bool, args: seq<Value>): (r: Result<Value, Error>)
    ensures |args| > 1 ==> r == Err(TypeError)
    ensures args == [] ==> r == Ok(if asTuple then Tuple([]) else List([]))
    ensures |args| == 1 && Iterate(args[0]).Some? ==>
              r == Ok(if asTuple then Tuple(Iterate(args[0]).value) else List(Iterate(args[0]).value))
  {
    if |args| > 1 then Err(TypeError)
    else
      var items := if args == [] then Some([]) else Iterate(args[0]);
      match items
      case None => Err(TypeError)
      case Some(xs) => Ok(if asTuple then Tuple(xs) else List(xs))
  }

  /** `_getargs`: the arguments the factory is called with. A `Sequence`
      passes the projected items, a `Repeat` its values (and its joins when
      `pass_joiners` is set), every other combinator its result. */
  function FactoryArgs(s: Struct, raw: Value): (r: Result<seq<Value>, Error>)
    ensures !s.Seq? && !s.Repeat? ==> r == Ok([raw])
  {
    if s.Seq? && raw.List? then Project(raw.items, s.indexes)
    else if s.Repeat? && raw.Tuple? && |raw.items| == 2 then
      Ok(if s.passJoiners then raw.items else [raw.items[0]])
    else Ok([raw])
  }

  /** The factory step of `BasicStruct.parse`, run only on a non-`None` raw
      result: the class default is `tuple` for a `Sequence`, `list` for a
      `Repeat` and nothing for the other combinators. */
  function ApplyFactory(s: Struct, raw: Value, env: Env): (r: Result<Value, Error>)
    ensures s.factory == Default && !s.Seq? && !s.Repeat? ==> r == Ok(raw)
    ensures s.factory == Uncallable ==> r.Err?
  {
    match s.factory
    case Uncallable => Err(TypeError)
    case Default =>
      if s.Seq? || s.Repeat? then
        match FactoryArgs(s, raw)
        case Err(e) => Err(e)
        case Ok(args) => Builtin(s.Seq?, args)
      else Ok(raw)
    case Custom(id) =>
      match FactoryArgs(s, raw)
      case Err(e) => Err(e)
      case Ok(args) => Ok(env.apply(id, args))
  }

  /** The literal match of `Str` (and of a `Partial` resolving to a string):
      a token of the string's length and the cursor moved past it, or
      `(None, index)`. */
  function MatchText(str: string, ns: Namespace, pos: Position, env: Env): (o: Outcome)
    ensures o.Parsed? && o.ns == ns
    ensures StartsAt(env.code, str, pos.i) ==>
              o.value == Some(Tok(MakeToken(env.code, pos, |str|))) && o.pos == Add(env.code, pos, |str|)
    ensures !StartsAt(env.code, str, pos.i) ==> o.value.None? && o.pos == pos
    ensures WellPlaced(o, pos, env.code)
  {
    if StartsAt(env.code, str, pos.i) then
      Parsed(Some(Tok(MakeToken(env.code, pos, |str|))), Add(env.code, pos, |str|), ns)
    else Parsed(None, pos, ns)
  }

  /** `maxi == 0` in Python: true for `0` and `False`. */
  predicate IsZero(v: Value)
  {
    v == Int(0) || v == Bool(false)
  }

  /** The raw value of a `Repeat`: its values and its joins. */
  function RepeatValue(values: seq<Value>, joins: seq<Value>): Value
  {
    Tuple([List(values), List(joins)])
  }

  /** `BasicStruct.parse`: the combinator's own `_parse`, then its factory on a
      non-`None` result. `fuel` bounds how often a lazy reference may hand
      over to the combinator it resolves to. */
  function Parse(fuel: nat, s: Struct, ns: Namespace, pos: Position, env: Env): (o: Outcome)
    ensures WellPlaced(o, pos, env.code)
    decreases fuel, s, 2, 0, 0, 0
  {
    var o := Raw(fuel, s, ns, pos, env);
    if o.Parsed? && o.value.Some? then
      match ApplyFactory(s, o.value.value, env)
      case Err(e) => Raise(e)
      case Ok(v) => Parsed(Some(v), o.pos, o.ns)
    else o
  }

  /** `_parse` of each combinator. */
  function Raw(fuel: nat, s: Struct, ns: Namespace, pos: Position, env: Env): (o: Outcome)
    ensures WellPlaced(o, pos, env.code)
    decreases fuel, s, 1, 0, 0, 0
  {
    match s
    case Str(value, _) =>
      (match Resolve(value, ns)
       case Err(e) => Raise(e)
       case Ok(v) =>
         match AsString(v)
         case None => Raise(TypeError)
         case Some(str) => MatchText(str, ns, pos, env))
    case AnyOf(_, _, _) => AnyLoop(fuel, s, 0, ns, pos, env)
    case Seq(_, _, _, _) => SeqLoop(fuel, s, 0, [], ns, pos, pos, env)
    case Repeat(_, mini, maxi, _, _, _) =>
      (match Resolve(mini, ns)
       case Err(e) => Raise(e)
       case Ok(mv) =>
         match ResolveOpt(maxi, ns)
         case Err(e) => Raise(e)
         case Ok(xv) =>
           if xv.Some? && IsZero(xv.value) then Parsed(Some(RepeatValue([], [])), pos, ns)
           else RepeatLoop(fuel, s, mv, xv, ns, pos, pos, [], [], true, env))
    case Expected(child, message, etype, _) =>
      (match Parse(fuel, child, ns, pos, env)
       case Parsed(None, p, _) => Raise(Raised(etype, message, p.line + 1))
       case o => o)
    case Not(child, increment, _) =>
      (match Parse(fuel, child, ns, pos, env)
       case Parsed(v, _, ns') =>
         var right := Add(env.code, pos, increment);
         if v.None? && right.i <= |env.code| then
           if increment == 0 then Parsed(Some(Text("")), pos, ns')
           else Parsed(Some(Tok(MakeToken(env.code, pos, increment))), right, ns')
         else Parsed(None, pos, ns')
       case o => o)
    case Uns(child, extras, _) =>
      (match Overlay(ns, extras)
       case Err(e) => Raise(e)
       case Ok(inner) =>
         match Parse(fuel, child, inner, pos, env)
         case Parsed(v, p, _) => Parsed(v, p, ns)
         case o => o)
    case SaveAs(child, vname, _) =>
      (match Parse(fuel, child, ns, pos, env)
       case Parsed(Some(v), p, ns') => Parsed(Some(v), p, ns'[vname := v])
       case o => o)
    case End(_) =>
      if pos.i == |env.code| then Parsed(Some(Bool(true)), pos, ns) else Parsed(None, pos, ns)
    case Ref(p, _) =>
      match Eval(p, ns)
      case Err(e) => Raise(e)
      case Ok(v) =>
        if v.Rule? then
          if fuel == 0 then Exhausted else Parse(fuel - 1, v.rule, ns, pos, env)
        else
          match AsString(v)
          case None => Raise(TypeError)
          case Some(str) => MatchText(str, ns, pos, env)
  }

  /** The names an `UpdateNameSpace` binds. */
  function ExtraNames(extras: seq<(string, Value)>): set<string>
    decreases |extras|
  {
    if extras == [] then {} else ExtraNames(extras[..|extras| - 1]) + {extras[|extras| - 1].0}
  }

  /** `UpdateNameSpace`'s dict: the caller's bindings overlaid with the
      extras, each resolved in the caller's namespace, in order (a later
      binding of the same name wins). */
  function Overlay(ns: Namespace, extras: seq<(string, Value)>): (r: Result<Namespace, Error>)
    ensures r.Ok? ==> r.value.Keys == ns.Keys + ExtraNames(extras)
    ensures r.Ok? ==> forall k :: k in ns && k !in ExtraNames(extras) ==> r.value[k] == ns[k]
    ensures r.Ok? && extras != [] ==>
              Resolve(extras[|extras| - 1].1, ns).Ok? && r.value[extras[|extras| - 1].0] == Resolve(extras[|extras| - 1].1, ns).value
    decreases |extras|
  {
    if extras == [] then Ok(ns)
    else
      var last := extras[|extras| - 1];
      match Overlay(ns, extras[..|extras| - 1])
      case Err(e) => Err(e)
      case Ok(m) =>
        match Resolve(last.1, ns)
        case Err(e) => Err(e)
        case Ok(v) => Ok(m[last.0 := v])
  }

  /** `Any._parse`: alternatives from the `k`-th on, first success wins. */
  function AnyLoop(fuel: nat, s: Struct, k: nat, ns: Namespace, pos: Position, env: Env): (o: Outcome)
    requires s.AnyOf? && k <= |s.alts|
    ensures WellPlaced(o, pos, env.code)
    decreases fuel, s, 0, |s.alts| - k, 0, 0
  {
    if k == |s.alts| then Parsed(None, pos, ns)
    else
      match Parse(fuel, s.alts[k], ns, pos, env)
      case Parsed(None, _, ns') => AnyLoop(fuel, s, k + 1, ns', pos, env)
      case o => o
  }

  /** `Sequence._parse`: children from the `k`-th on, `acc` holding the values
      so far; the first failure rolls back to `before`. */
  function SeqLoop(fuel: nat, s: Struct, k: nat, acc: seq<Value>, ns: Namespace,
                   before: Position, pos: Position, env: Env): (o: Outcome)
    requires s.Seq? && k <= |s.parts|
    requires before.i <= pos.i <= Max(before.i, |env.code|)
    ensures WellPlaced(o, before, env.code)
    ensures o.Parsed? && o.value.Some? ==>
              o.value.value.List? && |o.value.value.items| == |acc| + |s.parts| - k
              && o.value.value.items[..|acc|] == acc
    decreases fuel, s, 0, |s.parts| - k, 0, 0
  {
    if k == |s.parts| then Parsed(Some(List(acc)), pos, ns)
    else
      match Parse(fuel, s.parts[k], ns, pos, env)
      case Parsed(None, _, ns') => Parsed(None, before, ns')
      case Parsed(Some(v), p, ns') => SeqLoop(fuel, s, k + 1, acc + [v], ns', before, p, env)
      case o => o
  }

  /** What a `Repeat` loop hands back: `(values, joins)` with at least `mini`
      values, at most `maxi` of them (one when `maxi` is below one), one join
      between each two values plus possibly one more (a separator whose item
      then failed), and no joins without a separator. */
  predicate RepeatShaped(v: Value, mini: Value, maxi: Option<Value>, hasJoin: bool)
  {
    v.Tuple? && |v.items| == 2 && v.items[0].List? && v.items[1].List?
    && AsInt(mini).Some? && |v.items[0].items| >= AsInt(mini).value
    && (maxi.Some? && AsInt(maxi.value).Some? ==> |v.items[0].items| <= Max(AsInt(maxi.value).value, 1))
    && (hasJoin ==> |v.items[1].items| <= |v.items[0].items| <= |v.items[1].items| + 1)
    && (!hasJoin ==> v.items[1].items == [])
  }

  /** The loop's bookkeeping at the top of a turn (`atItem` false) or before
      the item step (`atItem` true). */
  predicate RepeatInvariant(s: Struct, maxi: Option<Value>, values: seq<Value>, joins: seq<Value>, atItem: bool)
    requires s.Repeat?
  {
    (maxi.Some? && AsInt(maxi.value).Some? ==> |values| < Max(AsInt(maxi.value).value, 1))
    && (s.join.None? ==> joins == [])
    && (s.join.Some? && atItem ==> |joins| == |values|)
    && (s.join.Some? && !atItem ==> if values == [] then joins == [] else |joins| + 1 == |values|)
  }

  /** How many more items a resolved numeric `maxi` allows. */
  function Budget(maxi: Option<Value>, count: nat): nat
  {
    if maxi.Some? && AsInt(maxi.value).Some? then Max(0, AsInt(maxi.value).value - count) else 0
  }

  /** The end of `Repeat._parse`: too few values fail back to the original
      index, otherwise the values and joins are returned where the loop stopped. */
  function RepeatEnd(mini: Value, values: seq<Value>, joins: seq<Value>,
                     orig: Position, index: Position, ns: Namespace): (o: Outcome)
    ensures o.Parsed? <==> AsInt(mini).Some?
    ensures o.Parsed? ==> o.ns == ns
    ensures o.Parsed? ==> (o.value.None? <==> |values| < AsInt(mini).value)
    ensures o.Parsed? && o.value.None? ==> o.pos == orig
    ensures o.Parsed? && o.value.Some? ==> o.value.value == RepeatValue(values, joins) && o.pos == index
  {
    match AsInt(mini)
    case None => Raise(TypeError)
    case Some(m) =>
      if |values| < m then Parsed(None, orig, ns) else Parsed(Some(RepeatValue(values, joins)), index, ns)
  }

  /** One turn of `Repeat._parse`'s loop from `index`: the separator (not
      before the first item), then the item. */
  function RepeatLoop(fuel: nat, s: Struct, mini: Value, maxi: Option<Value>, ns: Namespace,
                      orig: Position, index: Position, values: seq<Value>, joins: seq<Value>,
                      first: bool, env: Env): (o: Outcome)
    requires s.Repeat? && (maxi.None? <==> s.maxi.None?)
    requires orig.i <= index.i <= Max(orig.i, |env.code|)
    requires first <==> values == []
    requires RepeatInvariant(s, maxi, values, joins, false)
    ensures WellPlaced(o, orig, env.code)
    ensures o.Parsed? && o.value.Some? ==> RepeatShaped(o.value.value, mini, maxi, s.join.Some?)
    decreases fuel, s, 0, Budget(maxi, |values|), Max(orig.i, |env.code|) - index.i, 1
  {
    if !first && s.join.Some? then
      match Parse(fuel, s.join.value, ns, index, env)
      case Parsed(None, p, ns') => RepeatEnd(mini, values, joins, orig, p, ns')
      case Parsed(Some(j), p, ns') => RepeatItem(fuel, s, mini, maxi, ns', orig, index, p, values, joins + [j], env)
      case Raise(e) => Raise(e)
      case Exhausted => Exhausted
    else RepeatItem(fuel, s, mini, maxi, ns, orig, index, index, values, joins, env)
  }

  /** The item step of the loop, `last` being where this turn began: a failed
      item rolls the cursor back to `last`; the loop stops once `maxi` items
      are collected, or when a turn made no progress and `maxi` is absent. */
  function RepeatItem(fuel: nat, s: Struct, mini: Value, maxi: Option<Value>, ns: Namespace,
                      orig: Position, last: Position, index: Position,
                      values: seq<Value>, joins: seq<Value>, env: Env): (o: Outcome)
    requires s.Repeat? && (maxi.None? <==> s.maxi.None?)
    requires orig.i <= last.i <= index.i <= Max(orig.i, |env.code|)
    requires RepeatInvariant(s, maxi, values, joins, true)
    ensures WellPlaced(o, orig, env.code)
    ensures o.Parsed? && o.value.Some? ==> RepeatShaped(o.value.value, mini, maxi, s.join.Some?)
    decreases fuel, s, 0, Budget(maxi, |values|), Max(orig.i, |env.code|) - last.i, 0
  {
    match Parse(fuel, s.item, ns, index, env)
    case Parsed(None, _, ns') => RepeatEnd(mini, values, joins, orig, last, ns')
    case Parsed(Some(v), p, ns') =>
      var values' := values + [v];
      if maxi.Some? && AsInt(maxi.value).None? then Raise(TypeError)
      else if maxi.Some? && |values'| >= AsInt(maxi.value).value then RepeatEnd(mini, values', joins, orig, p, ns')
      else if p.i == last.i && s.maxi.None? then RepeatEnd(mini, values', joins, orig, p, ns')
      else RepeatLoop(fuel, s, mini, maxi, ns', orig, p, values', joins, false, env)
    case Raise(e) => Raise(e)
    case Exhausted => Exhausted
  }
}
