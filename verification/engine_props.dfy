/** What each combinator of the `parser_v2` engine promises, stated over
    `Parse`/`Raw` and proved from their definitions. */
module EngineProps {
  import opened Base
  import opened Positions
  import opened CharStreams
  import opened Grammar
  import opened Engine

  /** `Str`: a resolution error propagates, a non-string raises `TypeError`,
      and a string `str` matches exactly when the source has `str` at the
      cursor, giving a token of its length and moving past it; otherwise
      `(None, index)`. */
  lemma StrMatchesLiteral(fuel: nat, value: Value, f: Factory, ns: Namespace, pos: Position, env: Env)
    ensures Resolve(value, ns).Err? ==> Raw(fuel, Str(value, f), ns, pos, env) == Raise(Resolve(value, ns).error)
    ensures Resolve(value, ns).Ok? && AsString(Resolve(value, ns).value).None? ==>
              Raw(fuel, Str(value, f), ns, pos, env) == Raise(TypeError)
    ensures Resolve(value, ns).Ok? && AsString(Resolve(value, ns).value).Some? ==>
              var str := AsString(Resolve(value, ns).value).value;
              var o := Raw(fuel, Str(value, f), ns, pos, env);
              o.Parsed? && o.ns == ns
              && (StartsAt(env.code, str, pos.i) ==>
                    o.value == Some(Tok(MakeToken(env.code, pos, |str|))) && o.pos == Add(env.code, pos, |str|))
              && (!StartsAt(env.code, str, pos.i) ==> o.value.None? && o.pos == pos)
  {
  }

  /** Every combinator, on every input: a `None` result comes back with the
      cursor it was given, and a success never moves the cursor backwards
      nor past the end of the source. */
  lemma FailureRestoresCursor(fuel: nat, s: Struct, ns: Namespace, pos: Position, env: Env)
    ensures var o := Parse(fuel, s, ns, pos, env);
            o.Parsed? ==> pos.i <= o.pos.i <= Max(pos.i, |env.code|) && (o.value.None? ==> o.pos == pos)
  {
  }

  /** `Any` tried from its `k+1`-th alternative is `Any` of the remaining
      alternatives tried from the `k`-th. */
  lemma {:induction false} AnyLoopShift(fuel: nat, a: Struct, rest: seq<Struct>, fin: bool, f: Factory,
                                        k: nat, ns: Namespace, pos: Position, env: Env)
    requires k <= |rest|
    ensures AnyLoop(fuel, AnyOf([a] + rest, fin, f), k + 1, ns, pos, env)
         == AnyLoop(fuel, AnyOf(rest, fin, f), k, ns, pos, env)
    decreases |rest| - k
  {
    var s1, s2 := AnyOf([a] + rest, fin, f), AnyOf(rest, fin, f);
    if k < |rest| {
      assert s1.alts[k + 1] == s2.alts[k];
      match Parse(fuel, s2.alts[k], ns, pos, env)
      case Parsed(None, _, ns') => AnyLoopShift(fuel, a, rest, fin, f, k + 1, ns', pos, env);
      case _ =>
    }
  }

  /** `Any` is ordered choice: the first alternative's success is the result;
      after its failure (whose namespace writes stay) the others are tried in
      order from the same cursor. */
  lemma AnyOrderedChoice(fuel: nat, a: Struct, rest: seq<Struct>, fin: bool, f: Factory,
                         ns: Namespace, pos: Position, env: Env)
    ensures Raw(fuel, AnyOf([a] + rest, fin, f), ns, pos, env)
         == match Parse(fuel, a, ns, pos, env)
            case Parsed(None, _, ns') => Raw(fuel, AnyOf(rest, fin, f), ns', pos, env)
            case o => o
  {
    var s := AnyOf([a] + rest, fin, f);
    assert s.alts[0] == a;
    match Parse(fuel, a, ns, pos, env)
    case Parsed(None, _, ns') => AnyLoopShift(fuel, a, rest, fin, f, 0, ns', pos, env);
    case _ =>
  }

  /** An `Any` with no alternative left fails where it started. */
  lemma AnyOfNothingFails(fuel: nat, fin: bool, f: Factory, ns: Namespace, pos: Position, env: Env)
    ensures Raw(fuel, AnyOf([], fin, f), ns, pos, env) == Parsed(None, pos, ns)
  {
  }

  /** `Sequence` is all-or-nothing: success yields one value per child, and
      any failing child sends the cursor back to where the sequence began. */
  lemma SeqAllOrNothing(fuel: nat, parts: seq<Struct>, idx: seq<Index>, fin: bool, f: Factory,
                        ns: Namespace, pos: Position, env: Env)
    ensures var o := Raw(fuel, Seq(parts, idx, fin, f), ns, pos, env);
            o.Parsed? ==>
              (o.value.None? ==> o.pos == pos)
              && (o.value.Some? ==> o.value.value.List? && |o.value.value.items| == |parts|)
  {
  }

  /** With the default factory a `Sequence` returns a tuple of its children's
      values, and with default indexes a custom factory receives them as one
      list. */
  lemma SeqFactoryArgs(s: Struct, items: seq<Value>, env: Env)
    requires s.Seq?
    ensures s.factory == Default && s.indexes == [Whole] ==> ApplyFactory(s, List(items), env) == Ok(Tuple(items))
    ensures s.factory.Custom? && s.indexes == [Whole] ==>
              ApplyFactory(s, List(items), env) == Ok(env.apply(s.factory.id, [List(items)]))
    ensures s.factory.Custom? ==>
              (Project(items, s.indexes).Ok? ==> ApplyFactory(s, List(items), env) == Ok(env.apply(s.factory.id, Project(items, s.indexes).value)))
              && (Project(items, s.indexes).Err? ==> ApplyFactory(s, List(items), env).Err?)
  {
  }

  /** `Repeat` with a maximum resolving to zero matches nothing and
      consumes nothing, whatever the minimum. */
  lemma RepeatZeroMax(fuel: nat, s: Struct, ns: Namespace, pos: Position, env: Env)
    requires s.Repeat? && s.maxi.Some?
    requires Resolve(s.mini, ns).Ok? && Resolve(s.maxi.value, ns) == Ok(Int(0))
    ensures Raw(fuel, s, ns, pos, env) == Parsed(Some(RepeatValue([], [])), pos, ns)
  {
  }

  /** `Repeat` bounds: when it succeeds with a maximum other than zero it
      holds at least `mini` and at most `maxi` values, the joins interleave
      them (one extra join when the last separator's item failed), and
      without a separator there are no joins; when it fails the cursor is
      back where it started. */
  lemma RepeatBounds(fuel: nat, s: Struct, ns: Namespace, pos: Position, env: Env)
    requires s.Repeat?
    ensures var o := Raw(fuel, s, ns, pos, env);
            o.Parsed? && o.value.Some? ==>
              var mv := Resolve(s.mini, ns).value;
              var xv := ResolveOpt(s.maxi, ns).value;
              (xv.Some? && IsZero(xv.value) && o.value.value == RepeatValue([], []) && o.pos == pos)
              || RepeatShaped(o.value.value, mv, xv, s.join.Some?)
  {
  }

  /** `Not` succeeds exactly when its child fails and `increment` characters
      remain; it then consumes exactly `increment` characters, or returns ""
      without moving when `increment` is zero. */
  lemma NotIff(fuel: nat, child: Struct, inc: nat, f: Factory, ns: Namespace, pos: Position, env: Env)
    requires Parse(fuel, child, ns, pos, env).Parsed?
    ensures var c := Parse(fuel, child, ns, pos, env);
            var o := Raw(fuel, Not(child, inc, f), ns, pos, env);
            o.Parsed? && o.ns == c.ns
            && (o.value.Some? <==> c.value.None? && pos.i + inc <= |env.code|)
            && (o.value.Some? && inc == 0 ==> o.value.value == Text("") && o.pos == pos)
            && (o.value.Some? && inc > 0 ==>
                  o.value.value == Tok(MakeToken(env.code, pos, inc)) && o.pos == Add(env.code, pos, inc))
            && (o.value.None? ==> o.pos == pos)
  {
  }

  /** `End` succeeds, with `True` and without moving, exactly at the end of the source. */
  lemma EndIff(fuel: nat, f: Factory, ns: Namespace, pos: Position, env: Env)
    ensures var o := Raw(fuel, End(f), ns, pos, env);
            o.Parsed? && o.pos == pos && o.ns == ns
            && (o.value.Some? <==> pos.i == |env.code|)
            && (o.value.Some? ==> o.value.value == Bool(true))
  {
  }

  /** `Expected` passes its child's success through unchanged and turns its
      failure into the configured exception, numbered with the 1-based line
      of the cursor the child handed back. */
  lemma ExpectedRaises(fuel: nat, child: Struct, msg: string, etype: string, f: Factory,
                       ns: Namespace, pos: Position, env: Env)
    ensures var c := Parse(fuel, child, ns, pos, env);
            var o := Raw(fuel, Expected(child, msg, etype, f), ns, pos, env);
            (c.Parsed? && c.value.None? ==> o == Raise(Raised(etype, msg, pos.line + 1)))
            && (!(c.Parsed? && c.value.None?) ==> o == c)
  {
  }

  /** `UpdateNameSpace` runs its child on the caller's bindings overlaid with
      the resolved extras, and the caller's namespace comes back untouched
      whatever the child wrote. */
  lemma UnsKeepsCallerNamespace(fuel: nat, child: Struct, extras: seq<(string, Value)>, f: Factory,
                                ns: Namespace, pos: Position, env: Env)
    ensures var o := Raw(fuel, Uns(child, extras, f), ns, pos, env);
            o.Parsed? ==> o.ns == ns
    ensures Overlay(ns, extras).Ok? ==>
              var o := Raw(fuel, Uns(child, extras, f), ns, pos, env);
              var c := Parse(fuel, child, Overlay(ns, extras).value, pos, env);
              (c.Parsed? ==> o == Parsed(c.value, c.pos, ns)) && (!c.Parsed? ==> o == c)
  {
  }

  /** `SaveAs` binds its name to the child's value exactly when the child
      succeeds, and otherwise leaves the namespace as the child left it. */
  lemma SaveAsBindsOnSuccess(fuel: nat, child: Struct, vname: string, f: Factory,
                             ns: Namespace, pos: Position, env: Env)
    ensures var c := Parse(fuel, child, ns, pos, env);
            var o := Raw(fuel, SaveAs(child, vname, f), ns, pos, env);
            (c.Parsed? && c.value.Some? ==> o == Parsed(c.value, c.pos, c.ns[vname := c.value.value]))
            && (!(c.Parsed? && c.value.Some?) ==> o == c)
  {
  }

  /** A lazy reference is resolved when the parse reaches it: a combinator it
      resolves to takes over, a string is matched like `Str`, anything else
      raises `TypeError`. */
  lemma RefDelegates(fuel: nat, p: Partial, f: Factory, ns: Namespace, pos: Position, env: Env)
    ensures Eval(p, ns).Err? ==> Raw(fuel, Ref(p, f), ns, pos, env) == Raise(Eval(p, ns).error)
    ensures Eval(p, ns).Ok? && Eval(p, ns).value.Rule? && fuel > 0 ==>
              Raw(fuel, Ref(p, f), ns, pos, env) == Parse(fuel - 1, Eval(p, ns).value.rule, ns, pos, env)
    ensures Eval(p, ns).Ok? && AsString(Eval(p, ns).value).Some? ==>
              Raw(fuel, Ref(p, f), ns, pos, env) == MatchText(AsString(Eval(p, ns).value).value, ns, pos, env)
    ensures Eval(p, ns).Ok? && !Eval(p, ns).value.Rule? && AsString(Eval(p, ns).value).None? ==>
              Raw(fuel, Ref(p, f), ns, pos, env) == Raise(TypeError)
  {
  }

  /** A variable is looked up when the parse reaches it, so the same grammar
      follows whatever the namespace binds at that moment. */
  lemma VarFollowsBinding(fuel: nat, name: string, f: Factory, ns: Namespace, t: Struct, pos: Position, env: Env)
    requires fuel > 0
    ensures Raw(fuel, Ref(Var(name), f), ns[name := Rule(t)], pos, env) == Parse(fuel - 1, t, ns[name := Rule(t)], pos, env)
    ensures name !in ns ==> Raw(fuel, Ref(Var(name), f), ns, pos, env) == Raise(NameError(name))
  {
  }

  /** A capture is not undone by backtracking: when `SaveAs` succeeds and a
      later sibling of the same `Sequence` fails, the sequence fails back to
      its start, yet the namespace it hands back still binds the name. */
  lemma SaveAsSurvivesFailedSequence(fuel: nat, c: Struct, vname: string, lit: string, idx: seq<Index>,
                                     fin: bool, sf: Factory, ns: Namespace, pos: Position, env: Env)
    requires var o := Parse(fuel, c, ns, pos, env); o.Parsed? && o.value.Some?
    requires !StartsAt(env.code, lit, Parse(fuel, c, ns, pos, env).pos.i)
    ensures var v := Parse(fuel, c, ns, pos, env).value.value;
            var o := Raw(fuel, Seq([SaveAs(c, vname, Default), Str(Text(lit), Default)], idx, fin, sf), ns, pos, env);
            o.Parsed? && o.value.None? && o.pos == pos && vname in o.ns && o.ns[vname] == v
  {
    var s := Seq([SaveAs(c, vname, Default), Str(Text(lit), Default)], idx, fin, sf);
    var co := Parse(fuel, c, ns, pos, env);
    var ns1 := co.ns[vname := co.value.value];
    assert Parse(fuel, s.parts[0], ns, pos, env) == Parsed(co.value, co.pos, ns1);
    StrMatchesLiteral(fuel, Text(lit), Default, ns1, co.pos, env);
    assert Parse(fuel, s.parts[1], ns1, co.pos, env) == Parsed(None, co.pos, ns1);
    assert SeqLoop(fuel, s, 1, [co.value.value], ns1, pos, co.pos, env) == Parsed(None, pos, ns1);
    assert SeqLoop(fuel, s, 0, [], ns, pos, pos, env) == SeqLoop(fuel, s, 1, [co.value.value], ns1, pos, co.pos, env);
  }

  /** Without a static maximum, an item that matches without consuming
      anything ends the loop after that one item: a `Repeat` of an item that
      can match the empty string still terminates. */
  lemma RepeatStopsWithoutProgress(fuel: nat, s: Struct, ns: Namespace, pos: Position, env: Env)
    requires s.Repeat? && s.maxi.None?
    requires Resolve(s.mini, ns).Ok? && AsInt(Resolve(s.mini, ns).value).Some?
    requires AsInt(Resolve(s.mini, ns).value).value <= 1
    requires var o := Parse(fuel, s.item, ns, pos, env); o.Parsed? && o.value.Some? && o.pos.i == pos.i
    ensures var o := Parse(fuel, s.item, ns, pos, env);
            Raw(fuel, s, ns, pos, env) == Parsed(Some(RepeatValue([o.value.value], [])), o.pos, o.ns)
  {
    var mv := Resolve(s.mini, ns).value;
    var o := Parse(fuel, s.item, ns, pos, env);
    assert [] + [o.value.value] == [o.value.value];
    assert Raw(fuel, s, ns, pos, env) == RepeatLoop(fuel, s, mv, None, ns, pos, pos, [], [], true, env);
    assert RepeatLoop(fuel, s, mv, None, ns, pos, pos, [], [], true, env)
        == RepeatItem(fuel, s, mv, None, ns, pos, pos, pos, [], [], env);
  }

  /** A separator that matches but is not followed by an item is kept in the
      joins, yet the cursor goes back to before the separator. */
  lemma RepeatJoinRolledBack(fuel: nat, s: Struct, ns: Namespace, pos: Position, env: Env)
    requires s.Repeat? && s.maxi.None? && s.join.Some?
    requires Resolve(s.mini, ns).Ok? && AsInt(Resolve(s.mini, ns).value).Some?
    requires AsInt(Resolve(s.mini, ns).value).value <= 1
    requires var a := Parse(fuel, s.item, ns, pos, env); a.Parsed? && a.value.Some? && a.pos.i > pos.i
    requires var a := Parse(fuel, s.item, ns, pos, env);
             var j := Parse(fuel, s.join.value, a.ns, a.pos, env);
             j.Parsed? && j.value.Some?
    requires var a := Parse(fuel, s.item, ns, pos, env);
             var j := Parse(fuel, s.join.value, a.ns, a.pos, env);
             var b := Parse(fuel, s.item, j.ns, j.pos, env);
             b.Parsed? && b.value.None?
    ensures var a := Parse(fuel, s.item, ns, pos, env);
            var j := Parse(fuel, s.join.value, a.ns, a.pos, env);
            var b := Parse(fuel, s.item, j.ns, j.pos, env);
            Raw(fuel, s, ns, pos, env) == Parsed(Some(RepeatValue([a.value.value], [j.value.value])), a.pos, b.ns)
  {
    var mv := Resolve(s.mini, ns).value;
    var a := Parse(fuel, s.item, ns, pos, env);
    var j := Parse(fuel, s.join.value, a.ns, a.pos, env);
    var b := Parse(fuel, s.item, j.ns, j.pos, env);
    var vs, js := [a.value.value], [j.value.value];
    assert [] + vs == vs && [] + js == js;
    assert Raw(fuel, s, ns, pos, env) == RepeatLoop(fuel, s, mv, None, ns, pos, pos, [], [], true, env);
    assert RepeatLoop(fuel, s, mv, None, ns, pos, pos, [], [], true, env)
        == RepeatItem(fuel, s, mv, None, ns, pos, pos, pos, [], [], env);
    assert RepeatItem(fuel, s, mv, None, ns, pos, pos, pos, [], [], env)
        == RepeatLoop(fuel, s, mv, None, a.ns, pos, a.pos, vs, [], false, env);
    assert RepeatLoop(fuel, s, mv, None, a.ns, pos, a.pos, vs, [], false, env)
        == RepeatItem(fuel, s, mv, None, j.ns, pos, a.pos, j.pos, vs, js, env);
    assert RepeatItem(fuel, s, mv, None, j.ns, pos, a.pos, j.pos, vs, js, env)
        == RepeatEnd(mv, vs, js, pos, a.pos, b.ns);
  }

  /** `a + b` parses `a` first and `b` from where `a` stopped, in `a`'s
      namespace; the values come in child order, and a failure of either
      returns the sequence's starting cursor. */
  lemma SeqOfTwo(fuel: nat, a: Struct, b: Struct, idx: seq<Index>, fin: bool, f: Factory,
                 ns: Namespace, pos: Position, env: Env)
    ensures Raw(fuel, Seq([a, b], idx, fin, f), ns, pos, env)
         == match Parse(fuel, a, ns, pos, env)
            case Parsed(None, _, ns1) => Parsed(None, pos, ns1)
            case Parsed(Some(v), p, ns1) =>
              (match Parse(fuel, b, ns1, p, env)
               case Parsed(None, _, ns2) => Parsed(None, pos, ns2)
               case Parsed(Some(w), q, ns2) => Parsed(Some(List([v, w])), q, ns2)
               case o => o)
            case o => o
  {
    var s := Seq([a, b], idx, fin, f);
    match Parse(fuel, a, ns, pos, env)
    case Parsed(Some(v), p, ns1) =>
      assert [] + [v] == [v];
      assert SeqLoop(fuel, s, 0, [], ns, pos, pos, env) == SeqLoop(fuel, s, 1, [v], ns1, pos, p, env);
      match Parse(fuel, b, ns1, p, env) {
        case Parsed(Some(w), q, ns2) =>
          assert [v] + [w] == [v, w];
          assert SeqLoop(fuel, s, 1, [v], ns1, pos, p, env) == SeqLoop(fuel, s, 2, [v, w], ns2, pos, q, env);
        case _ =>
      }
    case _ =>
  }
}
