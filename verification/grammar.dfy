/** The combinators of the `parser_v2` engine as values, the values a parse
    produces or a namespace binds, the Python operators the lazy references
    (`Transformer`) apply to those values, and the operator builders
    (`+`, `|`, `*`, `~`, `.expect`) that assemble combinators. */
module Grammar {
  import opened Base
  import opened Positions

  /** A Python value as the engine sees it: a token (a `str` subclass), a
      plain string, a boolean, an integer, a list, a tuple, or a combinator. */
  datatype Value =
    | Tok(t: Token)
    | Text(s: string)
    | Bool(b: bool)
    | Int(n: int)
    | List(items: seq<Value>)
    | Tuple(items: seq<Value>)
    | Rule(rule: Struct)

  /** The factory a combinator applies to its raw result on success: the class
      default, a user callable known by its number, or a value that is not
      callable at all (raises `TypeError` when called). */
  datatype Factory = Default | Custom(id: nat) | Uncallable

  /** An entry of `Sequence.indexes`: a list index (negative counts from the
      end) or a step-1 slice with optional bounds. */
  datatype Index = At(k: int) | Span(lo: Option<int>, hi: Option<int>)

  /** `slice(None, None, None)`: the whole list. */
  const Whole: Index := Span(None, None)

  /** A combinator. `final` is `Finalisable.is_final`; `Ref` is a `Partial`
      (a `Var` or a `Transformer`) used as a combinator. */
  datatype Struct =
    | Str(value: Value, factory: Factory)
    | AnyOf(alts: seq<Struct>, final: bool, factory: Factory)
    | Seq(parts: seq<Struct>, indexes: seq<Index>, final: bool, factory: Factory)
    | Repeat(item: Struct, mini: Value, maxi: Option<Value>, join: Option<Struct>,
             passJoiners: bool, factory: Factory)
    | Expected(child: Struct, message: string, etype: string, factory: Factory)
    | Not(child: Struct, increment: nat, factory: Factory)
    | Uns(child: Struct, extras: seq<(string, Value)>, factory: Factory)
    | SaveAs(child: Struct, vname: string, factory: Factory)
    | End(factory: Factory)
    | Ref(p: Partial, factory: Factory)

  /** A lazy reference, resolved against the namespace at parse time:
      `Var(name)`, and the `Transformer`s built by `add`, `mul` and `ifelse`. */
  datatype Partial =
    | Var(name: string)
    | AddP(base: Partial, other: Value)
    | MulP(base: Partial, other: Value)
    | IfElse(cond: Partial, ifTrue: Value, ifFalse: Value)

  type Namespace = map<string, Value>

  /** The exceptions the engine raises. `Raised` is the one `Expected` builds
      from its exception type, message and line number; `RuntimeError` is
      what a bare `raise` outside any handler produces. */
  datatype Error =
    | TypeError
    | NameError(name: string)
    | IndexError
    | AttributeError(name: string)
    | SyntaxError(offset: nat)
    | Raised(etype: string, message: string, lineno: int)
    | RuntimeError

  /** `isinstance(v, str)`, giving the string. */
  function AsString(v: Value): (r: Option<string>)
    ensures r.Some? <==> v.Text? || v.Tok?
  {
    match v
    case Text(s) => Some(s)
    case Tok(t) => Some(t.text)
    case _ => None
  }

  /** The integer a value stands for in arithmetic and comparisons (`bool` is an `int`). */
  function AsInt(v: Value): (r: Option<int>)
    ensures r.Some? <==> v.Int? || v.Bool?
  {
    match v
    case Int(n) => Some(n)
    case Bool(b) => Some(if b then 1 else 0)
    case _ => None
  }

  /** Python truthiness: empty strings and containers and zero are false;
      combinators, having neither `__len__` nor `__bool__`, are true. */
  predicate Truthy(v: Value)
  {
    match v
    case Tok(t) => t.text != []
    case Text(s) => s != []
    case Bool(b) => b
    case Int(n) => n != 0
    case List(xs) => xs != []
    case Tuple(xs) => xs != []
    case Rule(_) => true
  }

  /** `s * n` for a Python sequence: `n` copies, none when `n <= 0`. */
  function Repeated<T>(s: seq<T>, n: int): (r: seq<T>)
    ensures |r| == |s| * Max(n, 0)
    decreases Max(n, 0)
  {
    if n <= 0 then [] else s + Repeated(s, n - 1)
  }

  /** `_convert`: a combinator stays as it is, a string becomes `Str`, anything else is refused. */
  function Convert(v: Value): (r: Result<Struct, Error>)
    ensures r.Ok? <==> v.Rule? || v.Text? || v.Tok?
    ensures v.Rule? ==> r == Ok(v.rule)
    ensures (v.Text? || v.Tok?) ==> r == Ok(Str(v, Default))
  {
    match v
    case Rule(s) => Ok(s)
    case Text(_) => Ok(Str(v, Default))
    case Tok(_) => Ok(Str(v, Default))
    case _ => Err(TypeError)
  }

  /** `a + other` on a combinator: a new `Sequence`, or, when `a` is a
      `Sequence` not yet made final, `a`'s parts followed by `other` (the new
      sequence has the default indexes and no factory). */
  function Plus(a: Struct, other: Value): (r: Result<Struct, Error>)
    ensures r.Ok? <==> Convert(other).Ok?
    ensures r.Ok? && a.Seq? && !a.final ==> r.value == Seq(a.parts + [Convert(other).value], [Whole], false, Default)
    ensures r.Ok? && !(a.Seq? && !a.final) ==> r.value == Seq([a, Convert(other).value], [Whole], false, Default)
  {
    match Convert(other)
    case Err(e) => Err(e)
    case Ok(b) =>
      if a.Seq? && !a.final then Ok(Seq(a.parts + [b], [Whole], false, Default))
      else Ok(Seq([a, b], [Whole], false, Default))
  }

  /** `other + b` where `other` is not a combinator (`__radd__`): always a new `Sequence`. */
  function PlusRight(other: Value, b: Struct): (r: Result<Struct, Error>)
    ensures r.Ok? <==> Convert(other).Ok?
    ensures r.Ok? ==> r.value == Seq([Convert(other).value, b], [Whole], false, Default)
  {
    match Convert(other)
    case Err(e) => Err(e)
    case Ok(a) => Ok(Seq([a, b], [Whole], false, Default))
  }

  /** `a | other`: a new `Any`, or `a`'s alternatives followed by `other` when
      `a` is an `Any` not yet made final (its factory is not carried over). */
  function Or(a: Struct, other: Value): (r: Result<Struct, Error>)
    ensures r.Ok? <==> Convert(other).Ok?
    ensures r.Ok? && a.AnyOf? && !a.final ==> r.value == AnyOf(a.alts + [Convert(other).value], false, Default)
    ensures r.Ok? && !(a.AnyOf? && !a.final) ==> r.value == AnyOf([a, Convert(other).value], false, Default)
  {
    match Convert(other)
    case Err(e) => Err(e)
    case Ok(b) =>
      if a.AnyOf? && !a.final then Ok(AnyOf(a.alts + [b], false, Default))
      else Ok(AnyOf([a, b], false, Default))
  }

  /** `Repeat(a, *args)` for positional arguments `mini, maxi, join, factory`. */
  function RepeatOf(a: Struct, args: seq<Value>): (r: Result<Struct, Error>)
    ensures |args| > 4 ==> r == Err(TypeError)
    ensures r.Ok? ==> r.value.Repeat? && r.value.item == a && !r.value.passJoiners
    ensures r.Ok? ==> r.value.mini == (if |args| >= 1 then args[0] else Int(0))
    ensures r.Ok? ==> r.value.maxi == (if |args| >= 2 then Some(args[1]) else None)
  {
    if |args| > 4 then Err(TypeError)
    else
      var mini := if |args| >= 1 then args[0] else Int(0);
      var maxi := if |args| >= 2 then Some(args[1]) else None;
      var factory := if |args| == 4 then Uncallable else Default;
      if |args| >= 3 then
        match Convert(args[2])
        case Err(e) => Err(e)
        case Ok(j) => Ok(Repeat(a, mini, maxi, Some(j), false, factory))
      else Ok(Repeat(a, mini, maxi, None, false, factory))
  }

  /** `a * other`: a tuple spreads into `Repeat`'s arguments, anything else is
      both the minimum and the maximum. */
  function Times(a: Struct, other: Value): (r: Result<Struct, Error>)
    ensures !other.Tuple? ==> r == Ok(Repeat(a, other, Some(other), None, false, Default))
    ensures other.Tuple? ==> r == RepeatOf(a, other.items)
  {
    if other.Tuple? then RepeatOf(a, other.items)
    else Ok(Repeat(a, other, Some(other), None, false, Default))
  }

  /** `~a`: negative lookahead consuming one character. */
  function Invert(a: Struct): (r: Struct)
    ensures r.Not? && r.child == a && r.increment == 1 && r.factory == Default
  {
    Not(a, 1, Default)
  }

  /** `a.expect(message, etype)`. */
  function Expect(a: Struct, message: string, etype: string): (r: Struct)
    ensures r.Expected? && r.child == a && r.message == message && r.etype == etype
  {
    Expected(a, message, etype, Default)
  }

  /** `set_factory(f)`: a `None` factory keeps the old one; on an `Any` or a
      `Sequence` it also makes the combinator final; on a `Sequence` new
      indexes may come with it; on a `Repeat` it resets `pass_joiners` to the
      given flag. */
  function SetFactory(s: Struct, f: Option<Factory>, indexes: Option<seq<Index>>, passJoiners: bool): (r: Struct)
    ensures f.Some? ==> r.factory == f.value
    ensures f.None? ==> r.factory == s.factory
    ensures r.AnyOf? == s.AnyOf? && r.Seq? == s.Seq? && r.Repeat? == s.Repeat?
    ensures (s.AnyOf? || s.Seq?) ==> r.final
    ensures s.Seq? && indexes.Some? ==> r.indexes == indexes.value
    ensures s.Seq? && indexes.None? ==> r.indexes == s.indexes
    ensures s.Repeat? ==> r.passJoiners == passJoiners
  {
    var g := if f.Some? then f.value else s.factory;
    match s
    case AnyOf(alts, _, _) => AnyOf(alts, true, g)
    case Seq(parts, idx, _, _) => Seq(parts, if indexes.Some? then indexes.value else idx, true, g)
    case Repeat(item, mini, maxi, join, _, _) => Repeat(item, mini, maxi, join, passJoiners, g)
    case Str(value, _) => Str(value, g)
    case Expected(child, message, etype, _) => Expected(child, message, etype, g)
    case Not(child, increment, _) => Not(child, increment, g)
    case Uns(child, extras, _) => Uns(child, extras, g)
    case SaveAs(child, vname, _) => SaveAs(child, vname, g)
    case End(_) => End(g)
    case Ref(p, _) => Ref(p, g)
  }

  /** Python `x + y` on two resolved values. Numbers add, strings and lists
      and tuples concatenate, a combinator on either side builds a `Sequence`;
      any other pairing raises `TypeError`. */
  function PyAdd(x: Value, y: Value): (r: Result<Value, Error>)
    ensures AsInt(x).Some? && AsInt(y).Some? ==> r == Ok(Int(AsInt(x).value + AsInt(y).value))
    ensures AsString(x).Some? && AsString(y).Some? ==> r == Ok(Text(AsString(x).value + AsString(y).value))
    ensures x.List? && y.List? ==> r == Ok(List(x.items + y.items))
    ensures r.Ok? && !x.Rule? && !y.Rule? ==>
              (AsInt(x).Some? && AsInt(y).Some?) || (AsString(x).Some? && AsString(y).Some?)
              || (x.List? && y.List?) || (x.Tuple? && y.Tuple?)
  {
    if AsInt(x).Some? && AsInt(y).Some? then Ok(Int(AsInt(x).value + AsInt(y).value))
    else if AsString(x).Some? && AsString(y).Some? then Ok(Text(AsString(x).value + AsString(y).value))
    else if x.List? && y.List? then Ok(List(x.items + y.items))
    else if x.Tuple? && y.Tuple? then Ok(Tuple(x.items + y.items))
    else if x.Rule? then
      match Plus(x.rule, y)
      case Err(e) => Err(e)
      case Ok(s) => Ok(Rule(s))
    else if y.Rule? then
      match PlusRight(x, y.rule)
      case Err(e) => Err(e)
      case Ok(s) => Ok(Rule(s))
    else Err(TypeError)
  }

  /** Python `x * y` on two resolved values. Numbers multiply, a string, list
      or tuple times a number repeats, a combinator times anything builds a
      `Repeat`; any other pairing raises `TypeError`. */
  function PyMul(x: Value, y: Value): (r: Result<Value, Error>)
    ensures AsInt(x).Some? && AsInt(y).Some? ==> r == Ok(Int(AsInt(x).value * AsInt(y).value))
    ensures AsString(x).Some? && AsInt(y).Some? ==> r == Ok(Text(Repeated(AsString(x).value, AsInt(y).value)))
    ensures r.Ok? && !x.Rule? ==> AsInt(x).Some? || AsInt(y).Some?
  {
    if AsInt(x).Some? && AsInt(y).Some? then Ok(Int(AsInt(x).value * AsInt(y).value))
    else if AsString(x).Some? && AsInt(y).Some? then Ok(Text(Repeated(AsString(x).value, AsInt(y).value)))
    else if AsInt(x).Some? && AsString(y).Some? then Ok(Text(Repeated(AsString(y).value, AsInt(x).value)))
    else if x.List? && AsInt(y).Some? then Ok(List(Repeated(x.items, AsInt(y).value)))
    else if AsInt(x).Some? && y.List? then Ok(List(Repeated(y.items, AsInt(x).value)))
    else if x.Tuple? && AsInt(y).Some? then Ok(Tuple(Repeated(x.items, AsInt(y).value)))
    else if AsInt(x).Some? && y.Tuple? then Ok(Tuple(Repeated(y.items, AsInt(x).value)))
    else if x.Rule? then
      match Times(x.rule, y)
      case Err(e) => Err(e)
      case Ok(s) => Ok(Rule(s))
    else Err(TypeError)
  }

  /** `_get` for a `Partial`: the value a lazy reference stands for in `ns`.
      A name that is not bound raises `NameError`; the operands of `add` and
      `mul` are resolved in turn; `ifelse` resolves only the branch it picks. */
  function Eval(p: Partial, ns: Namespace): (r: Result<Value, Error>)
    ensures p.Var? ==> (r.Ok? <==> p.name in ns)
    ensures p.Var? && p.name in ns ==> r == Ok(ns[p.name])
    ensures p.Var? && p.name !in ns ==> r == Err(NameError(p.name))
    decreases p
  {
    match p
    case Var(name) => if name in ns then Ok(ns[name]) else Err(NameError(name))
    case AddP(base, other) =>
      (match Eval(base, ns)
       case Err(e) => Err(e)
       case Ok(x) =>
         match Resolve(other, ns)
         case Err(e) => Err(e)
         case Ok(y) => PyAdd(x, y))
    case MulP(base, other) =>
      (match Eval(base, ns)
       case Err(e) => Err(e)
       case Ok(x) =>
         match Resolve(other, ns)
         case Err(e) => Err(e)
         case Ok(y) => PyMul(x, y))
    case IfElse(cond, ifTrue, ifFalse) =>
      match Eval(cond, ns)
      case Err(e) => Err(e)
      case Ok(c) => if Truthy(c) then Resolve(ifTrue, ns) else Resolve(ifFalse, ns)
  }

  /** `_get(val, namespace)`: a lazy reference is evaluated, anything else is itself. */
  function Resolve(v: Value, ns: Namespace): (r: Result<Value, Error>)
    ensures !(v.Rule? && v.rule.Ref?) ==> r == Ok(v)
    decreases v
  {
    if v.Rule? && v.rule.Ref? then Eval(v.rule.p, ns) else Ok(v)
  }

  /** `_get` on an optional argument (`maxi`, which may be `None`). */
  function ResolveOpt(v: Option<Value>, ns: Namespace): (r: Result<Option<Value>, Error>)
    ensures v.None? ==> r == Ok(None)
    ensures v.Some? && Resolve(v.value, ns).Ok? ==> r == Ok(Some(Resolve(v.value, ns).value))
    ensures v.Some? && Resolve(v.value, ns).Err? ==> r == Err(Resolve(v.value, ns).error)
  {
    match v
    case None => Ok(None)
    case Some(x) =>
      match Resolve(x, ns)
      case Err(e) => Err(e)
      case Ok(y) => Ok(Some(y))
  }

  /** `ifelse` is lazy: it evaluates to the resolved branch its condition picks. */
  lemma IfElsePicks(cond: Partial, t: Value, f: Value, ns: Namespace)
    requires Eval(cond, ns).Ok?
    ensures Truthy(Eval(cond, ns).value) ==> Eval(IfElse(cond, t, f), ns) == Resolve(t, ns)
    ensures !Truthy(Eval(cond, ns).value) ==> Eval(IfElse(cond, t, f), ns) == Resolve(f, ns)
  {
  }
}
