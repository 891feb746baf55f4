/** `Parser`: a grammar is a class whose attributes are its rules; parsing
    looks the start rule up, runs it from the requested offset with the
    class attributes (overlaid by the caller's bindings) as namespace, and
    accepts only a parse that ends at the end of the source. */
module Driver {
  import opened Base
  import opened Positions
  import opened CharStreams
  import opened Grammar
  import opened Engine
  import opened EngineProps

  /** A `Parser` subclass: `vars(cls)` and its `__start__`. */
  datatype ParserClass = ParserClass(attrs: Namespace, start: Value)

  /** The `__start__` every `Parser` has unless a subclass chooses another. */
  const DefaultStart: Value := Text("start")

  /** Where parsing starts: an integer offset or an existing cursor. */
  datatype StartIndex = FromOffset(n: nat) | FromCursor(p: Position)

  /** What a call of a parser class gives: the parse result (possibly
      `None`), an exception, or exhaustion of the recursion budget. */
  datatype RunResult = Returned(obj: Option<Value>) | Threw(err: Error) | OutOfFuel

  /** `start = start or cls.__start__`, then: a name is looked up on the
      class (an `AttributeError` when the class lacks it), a combinator is
      used as it is, anything else is a `TypeError`. What is looked up is
      handed back whatever it is: only calling its `parse`, after the start
      cursor is built, finds out whether it is a combinator. */
  function Starter(g: ParserClass, start: Option<Value>): (r: Result<Value, Error>)
    ensures var name := if start.Some? && Truthy(start.value) then start.value else g.start;
            (AsString(name).Some? ==>
               (AsString(name).value !in g.attrs ==> r == Err(AttributeError(AsString(name).value)))
               && (AsString(name).value in g.attrs ==> r == Ok(g.attrs[AsString(name).value])))
            && (AsString(name).None? && name.Rule? ==> r == Ok(name))
            && (AsString(name).None? && !name.Rule? ==> r == Err(TypeError))
  {
    var name := if start.Some? && Truthy(start.value) then start.value else g.start;
    match AsString(name)
    case Some(key) =>
      if key !in g.attrs then Err(AttributeError(key)) else Ok(g.attrs[key])
    case None =>
      if name.Rule? then Ok(name) else Err(TypeError)
  }

  /** The namespace of a parse: the class attributes, each overridden by a
      caller binding of the same name (`vars(cls) | (namespace or {})`). */
  function ParseNamespace(g: ParserClass, extra: Option<Namespace>): (ns: Namespace)
    ensures ns.Keys == g.attrs.Keys + (if extra.Some? then extra.value.Keys else {})
    ensures extra.Some? ==> forall k :: k in extra.value ==> ns[k] == extra.value[k]
    ensures forall k :: k in g.attrs && (extra.None? || k !in extra.value) ==> ns[k] == g.attrs[k]
  {
    if extra.Some? then g.attrs + extra.value else g.attrs
  }

  /** `Parser._parse`. `kind` says whether `code` reached the parser as a
      plain string or as a `CharStream`: an integer start offset builds an
      `Indexer`, whose constructor refuses plain strings. Only then is the
      start's `parse` called, which a value that is no combinator lacks. */
  function Run(fuel: nat, g: ParserClass, kind: SourceKind, start: Option<Value>,
               extra: Option<Namespace>, index: StartIndex, env: Env): (r: RunResult)
    ensures Starter(g, start).Err? ==> r == Threw(Starter(g, start).error)
    ensures Starter(g, start).Ok? && index.FromOffset? && kind == PlainString ==> r == Threw(RuntimeError)
    ensures Starter(g, start).Ok? && !Starter(g, start).value.Rule? && !(index.FromOffset? && kind == PlainString) ==>
              r == Threw(AttributeError("parse"))
    ensures r.Returned? ==>
              var from := if index.FromOffset? then Add(env.code, Start, index.n) else index.p;
              Starter(g, start).Ok? && Starter(g, start).value.Rule?
              && var o := Parse(fuel, Starter(g, start).value.rule, ParseNamespace(g, extra), from, env);
                 o.Parsed? && o.pos.i == |env.code| && r.obj == o.value
  {
    match Starter(g, start)
    case Err(e) => Threw(e)
    case Ok(starter) =>
      var from := match index
                  case FromOffset(n) =>
                    (match NewIndexer(kind, 0, 0, 1)
                     case Err(_) => None
                     case Ok(p) => Some(Add(env.code, p, n)))
                  case FromCursor(p) => Some(p);
      if from.None? then Threw(RuntimeError)
      else if !starter.Rule? then Threw(AttributeError("parse"))
      else
        match Parse(fuel, starter.rule, ParseNamespace(g, extra), from.value, env)
        case Raise(e) => Threw(e)
        case Exhausted => OutOfFuel
        case Parsed(obj, pos, _) =>
          if pos.i != |env.code| then Threw(SyntaxError(pos.i)) else Returned(obj)
  }

  /** A start name bound on the class to something that is no combinator:
      on a plain string the `Indexer` raises first; on a `CharStream` the
      missing `parse` method is the `AttributeError`. */
  lemma NonCombinatorStartFailsLate(fuel: nat, env: Env)
    ensures Run(fuel, ParserClass(map["a" := Int(1)], Text("a")), PlainString, None, None, FromOffset(0), env)
         == Threw(RuntimeError)
    ensures Run(fuel, ParserClass(map["a" := Int(1)], Text("a")), CharStreamSource, None, None, FromOffset(0), env)
         == Threw(AttributeError("parse"))
  {
    assert Starter(ParserClass(map["a" := Int(1)], Text("a")), None) == Ok(Int(1));
  }

  /** A parse that fails, or stops short of the end, never yields a value:
      it is reported as a syntax error at the offset where it stopped. */
  lemma WholeInputOrSyntaxError(fuel: nat, g: ParserClass, start: Option<Value>, extra: Option<Namespace>,
                                n: nat, env: Env)
    requires Starter(g, start).Ok? && Starter(g, start).value.Rule?
    ensures var o := Parse(fuel, Starter(g, start).value.rule, ParseNamespace(g, extra), Add(env.code, Start, n), env);
            var r := Run(fuel, g, CharStreamSource, start, extra, FromOffset(n), env);
            o.Parsed? ==>
              (o.pos.i == |env.code| ==> r == Returned(o.value))
              && (o.pos.i != |env.code| ==> r == Threw(SyntaxError(o.pos.i)))
  {
  }

  /** The module-level `parse` as written: `namespace | ns` with the default
      `namespace=None` is itself a `TypeError`. */
  function ModuleParseAsWritten(isParser: bool, fuel: nat, g: ParserClass, kind: SourceKind, start: Option<Value>,
                                namespace: Option<Namespace>, ns: Namespace, index: StartIndex, env: Env): (r: RunResult)
    ensures !isParser ==> r == Threw(TypeError)
    ensures isParser && namespace.Some? ==> r == Run(fuel, g, kind, start, Some(namespace.value + ns), index, env)
  {
    if !isParser then Threw(TypeError)
    else match namespace
      case None => Threw(TypeError)
      case Some(m) => Run(fuel, g, kind, start, Some(m + ns), index, env)
  }

  /** The module-level `parse` as evidently intended: a missing namespace is
      an empty one, so the call behaves as calling the class with the
      keyword bindings. */
  function ModuleParse(isParser: bool, fuel: nat, g: ParserClass, kind: SourceKind, start: Option<Value>,
                       namespace: Option<Namespace>, ns: Namespace, index: StartIndex, env: Env): (r: RunResult)
    ensures !isParser ==> r == Threw(TypeError)
    ensures namespace.Some? ==> r == ModuleParseAsWritten(isParser, fuel, g, kind, start, namespace, ns, index, env)
    ensures isParser && namespace.None? ==> r == Run(fuel, g, kind, start, Some(ns), index, env)
  {
    var given: Namespace := if namespace.Some? then namespace.value else map[];
    assert namespace.None? ==> given + ns == ns;
    if !isParser then Threw(TypeError) else Run(fuel, g, kind, start, Some(given + ns), index, env)
  }

  /** Called without a namespace, as the driver's own test does, the written
      `parse` raises `TypeError` for every grammar and source, while the
      intended one parses the source. */
  lemma ModuleParseDefaultNamespace(fuel: nat, g: ParserClass, kind: SourceKind, start: Option<Value>,
                                    index: StartIndex, env: Env)
    ensures ModuleParseAsWritten(true, fuel, g, kind, start, None, map[], index, env) == Threw(TypeError)
    ensures ModuleParse(true, fuel, g, kind, start, None, map[], index, env) == Run(fuel, g, kind, start, None, index, env)
  {
    EmptyExtraIsNoExtra(g);
  }

  /** An empty caller namespace changes nothing (`namespace or {}`). */
  lemma EmptyExtraIsNoExtra(g: ParserClass)
    ensures ParseNamespace(g, Some(map[])) == ParseNamespace(g, None)
    ensures forall fuel: nat, kind, start, index, env ::
              Run(fuel, g, kind, start, Some(map[]), index, env) == Run(fuel, g, kind, start, None, index, env)
  {
    assert g.attrs + map[] == g.attrs;
  }

  /** The one-rule grammar `a = Any("abc", "def")` started from `a`. */
  const AbcOrDef: Struct := AnyOf([Str(Text("abc"), Default), Str(Text("def"), Default)], false, Default)
  const AbcOrDefParser: ParserClass := ParserClass(map["a" := Rule(AbcOrDef)], Text("a"))

  /** The grammar's start rule tries `"abc"` first, then `"def"`, from the start of the source. */
  lemma AbcOrDefParses(fuel: nat, env: Env)
    ensures var ns := ParseNamespace(AbcOrDefParser, None);
            var o := Parse(fuel, AbcOrDef, ns, Start, env);
            (StartsAt(env.code, "abc", 0) ==> o == Parsed(Some(Tok(MakeToken(env.code, Start, 3))), Add(env.code, Start, 3), ns))
            && (!StartsAt(env.code, "abc", 0) && StartsAt(env.code, "def", 0) ==>
                  o == Parsed(Some(Tok(MakeToken(env.code, Start, 3))), Add(env.code, Start, 3), ns))
            && (!StartsAt(env.code, "abc", 0) && !StartsAt(env.code, "def", 0) ==> o == Parsed(None, Start, ns))
  {
    var ns := ParseNamespace(AbcOrDefParser, None);
    TwoLiteralsParse(fuel, "abc", "def", ns, env);
  }

  /** `Any(x, y)` of two literals tries `x` first, then `y`. */
  lemma TwoLiteralsParse(fuel: nat, x: string, y: string, ns: Namespace, env: Env)
    ensures var o := Parse(fuel, AnyOf([Str(Text(x), Default), Str(Text(y), Default)], false, Default), ns, Start, env);
            (StartsAt(env.code, x, 0) ==> o == Parsed(Some(Tok(MakeToken(env.code, Start, |x|))), Add(env.code, Start, |x|), ns))
            && (!StartsAt(env.code, x, 0) && StartsAt(env.code, y, 0) ==>
                  o == Parsed(Some(Tok(MakeToken(env.code, Start, |y|))), Add(env.code, Start, |y|), ns))
            && (!StartsAt(env.code, x, 0) && !StartsAt(env.code, y, 0) ==> o == Parsed(None, Start, ns))
  {
    var a, b := Str(Text(x), Default), Str(Text(y), Default);
    assert [a, b] == [a] + [b];
    PlainAnyParse(fuel, [a, b], ns, Start, env);
    AnyOrderedChoice(fuel, a, [b], false, Default, ns, Start, env);
    LiteralParse(fuel, x, ns, Start, env);
    if !StartsAt(env.code, x, 0) {
      assert [b] + [] == [b];
      AnyOrderedChoice(fuel, b, [], false, Default, ns, Start, env);
      LiteralParse(fuel, y, ns, Start, env);
      if !StartsAt(env.code, y, 0) {
        AnyOfNothingFails(fuel, false, Default, ns, Start, env);
      }
    }
  }

  /** A literal `Str` with the default factory is the literal match itself. */
  lemma LiteralParse(fuel: nat, x: string, ns: Namespace, pos: Position, env: Env)
    ensures Parse(fuel, Str(Text(x), Default), ns, pos, env) == MatchText(x, ns, pos, env)
  {
    assert Raw(fuel, Str(Text(x), Default), ns, pos, env) == MatchText(x, ns, pos, env);
  }

  /** An `Any` with the default factory hands back its raw result. */
  lemma PlainAnyParse(fuel: nat, alts: seq<Struct>, ns: Namespace, pos: Position, env: Env)
    ensures Parse(fuel, AnyOf(alts, false, Default), ns, pos, env) == Raw(fuel, AnyOf(alts, false, Default), ns, pos, env)
  {
  }

  /** Run on a three-character source: the start rule is found by name and
      run from offset 0. */
  lemma AbcOrDefRun(fuel: nat, env: Env)
    requires |env.code| == 3
    ensures var ns := ParseNamespace(AbcOrDefParser, None);
            var o := Parse(fuel, AbcOrDef, ns, Start, env);
            var r := Run(fuel, AbcOrDefParser, CharStreamSource, None, None, FromOffset(0), env);
            (o.Parsed? && o.pos.i == 3 ==> r == Returned(o.value))
            && (o.Parsed? && o.pos.i == 0 ==> r == Threw(SyntaxError(0)))
  {
    assert Slice(env.code, 0, 0) == [];
    assert Add(env.code, Start, 0) == Start;
  }

  /** Every string occurs at the start of itself. */
  lemma StartsWithItself(code: string)
    ensures StartsAt(code, code, 0)
  {
    assert code[0..|code|] == code;
  }

  /** On a three-character source that one of the alternatives matches, the
      parse returns the whole source as its token. */
  lemma AbcOrDefReturnsSource(fuel: nat, env: Env)
    requires |env.code| == 3 && (StartsAt(env.code, "abc", 0) || StartsAt(env.code, "def", 0))
    ensures var r := Run(fuel, AbcOrDefParser, CharStreamSource, None, None, FromOffset(0), env);
            r.Returned? && r.obj.Some? && AsString(r.obj.value) == Some(env.code)
  {
    AbcOrDefParses(fuel, env);
    AbcOrDefRun(fuel, env);
    WholeSourceToken(env.code);
  }

  /** The token of the first three characters of a three-character source
      is the whole source, and ends at offset 3. */
  lemma WholeSourceToken(code: string)
    requires |code| == 3
    ensures Add(code, Start, 3).i == 3 && MakeToken(code, Start, 3).text == code
  {
    assert code[0..3] == code;
  }

  /** Parsing `"abc"` with that grammar returns the matched `"abc"`. */
  lemma AbcOrDefAcceptsAbc(fuel: nat, env: Env)
    requires env.code == "abc"
    ensures var r := Run(fuel, AbcOrDefParser, CharStreamSource, None, None, FromOffset(0), env);
            r.Returned? && r.obj.Some? && AsString(r.obj.value) == Some("abc")
  {
    StartsWithItself(env.code);
    AbcOrDefReturnsSource(fuel, env);
  }

  /** Parsing `"def"` returns the matched `"def"`: the second alternative. */
  lemma AbcOrDefAcceptsDef(fuel: nat, env: Env)
    requires env.code == "def"
    ensures var r := Run(fuel, AbcOrDefParser, CharStreamSource, None, None, FromOffset(0), env);
            r.Returned? && r.obj.Some? && AsString(r.obj.value) == Some("def")
  {
    StartsWithItself(env.code);
    AbcOrDefReturnsSource(fuel, env);
  }

  /** The test's own call `A("abc")` hands the parser a plain string, and
      the `Indexer` built for the start offset refuses it: whatever the
      text, the call raises `RuntimeError` before any rule is tried. */
  lemma AbcOrDefOnPlainStringRaises(fuel: nat, env: Env)
    ensures Run(fuel, AbcOrDefParser, PlainString, None, None, FromOffset(0), env) == Threw(RuntimeError)
  {
    assert Starter(AbcOrDefParser, None) == Ok(Rule(AbcOrDef));
  }

  /** Parsing `"ghi"` is a syntax error at offset 0: no alternative matched. */
  lemma AbcOrDefRejectsGhi(fuel: nat, env: Env)
    requires env.code == "ghi"
    ensures Run(fuel, AbcOrDefParser, CharStreamSource, None, None, FromOffset(0), env) == Threw(SyntaxError(0))
  {
    assert env.code[0] != "abc"[0] && env.code[0] != "def"[0];
    assert !StartsAt(env.code, "abc", 0) && !StartsAt(env.code, "def", 0);
    AbcOrDefParses(fuel, env);
    AbcOrDefRun(fuel, env);
  }
}
