/** The loops of `Any._parse`, `Sequence._parse` and `Repeat._parse` as the
    source writes them (a running index and growing `values`/`joins` lists),
    each proved to compute what the recursive definition in `Engine` says.
    Children are parsed through `Engine.Parse`. */
module EngineLoops {
  import opened Base
  import opened Positions
  import opened Grammar
  import opened Engine

  /** `Any._parse`: try the alternatives in order from the same index and
      stop at the first non-`None` result. */
  method RunAny(fuel: nat, s: Struct, ns: Namespace, pos: Position, env: Env) returns (o: Outcome)
    requires s.AnyOf?
    ensures o == Raw(fuel, s, ns, pos, env)
    ensures WellPlaced(o, pos, env.code)
  {
    var cur := ns;
    var k := 0;
    while k < |s.alts|
      invariant k <= |s.alts|
      invariant AnyLoop(fuel, s, k, cur, pos, env) == Raw(fuel, s, ns, pos, env)
    {
      var r := Parse(fuel, s.alts[k], cur, pos, env);
      if !(r.Parsed? && r.value.None?) {
        return r;
      }
      cur := r.ns;
      k := k + 1;
    }
    o := Parsed(None, pos, cur);
  }

  /** `Sequence._parse`: parse the children one after the other from the
      running index, collecting their values; the first failure returns
      `None` at the index the sequence started from. */
  method RunSequence(fuel: nat, s: Struct, ns: Namespace, pos: Position, env: Env) returns (o: Outcome)
    requires s.Seq?
    ensures o == Raw(fuel, s, ns, pos, env)
    ensures o.Parsed? && o.value.Some? ==> o.value.value.List? && |o.value.value.items| == |s.parts|
    ensures WellPlaced(o, pos, env.code)
  {
    var values: seq<Value> := [];
    var index := pos;
    var cur := ns;
    var k := 0;
    while k < |s.parts|
      invariant k <= |s.parts| && |values| == k
      invariant pos.i <= index.i <= Max(pos.i, |env.code|)
      invariant SeqLoop(fuel, s, k, values, cur, pos, index, env) == Raw(fuel, s, ns, pos, env)
    {
      var r := Parse(fuel, s.parts[k], cur, index, env);
      if !r.Parsed? {
        return r;
      }
      if r.value.None? {
        return Parsed(None, pos, r.ns);
      }
      values := values + [r.value.value];
      index, cur := r.pos, r.ns;
      k := k + 1;
    }
    o := Parsed(Some(List(values)), index, cur);
  }

  /** `Repeat._parse`: resolve the bounds, then run the loop unless the
      maximum is zero. */
  method RunRepeat(fuel: nat, s: Struct, ns: Namespace, pos: Position, env: Env) returns (o: Outcome)
    requires s.Repeat?
    ensures o == Raw(fuel, s, ns, pos, env)
    ensures WellPlaced(o, pos, env.code)
  {
    var mr := Resolve(s.mini, ns);
    if mr.Err? {
      return Raise(mr.error);
    }
    var xr := ResolveOpt(s.maxi, ns);
    if xr.Err? {
      return Raise(xr.error);
    }
    var mini, maxi := mr.value, xr.value;
    if maxi.Some? && IsZero(maxi.value) {
      return Parsed(Some(RepeatValue([], [])), pos, ns);
    }
    o := RepeatTurns(fuel, s, mini, maxi, ns, pos, env);
  }

  /** The `while True` loop of `Repeat._parse` with resolved bounds:
      alternate separator (not before the first item) and item until an item
      fails, `maxi` items are collected, or, without a static `maxi`, a turn
      makes no progress. */
  method RepeatTurns(fuel: nat, s: Struct, mini: Value, maxi: Option<Value>, ns: Namespace,
                     pos: Position, env: Env) returns (o: Outcome)
    requires s.Repeat? && (maxi.None? <==> s.maxi.None?)
    ensures o == RepeatLoop(fuel, s, mini, maxi, ns, pos, pos, [], [], true, env)
    ensures o.Parsed? && o.value.Some? ==> RepeatShaped(o.value.value, mini, maxi, s.join.Some?)
  {
    var values: seq<Value> := [];
    var joins: seq<Value> := [];
    var first := true;
    var index := pos;
    var cur := ns;
    while true
      invariant pos.i <= index.i <= Max(pos.i, |env.code|)
      invariant first <==> values == []
      invariant RepeatInvariant(s, maxi, values, joins, false)
      invariant RepeatLoop(fuel, s, mini, maxi, cur, pos, index, values, joins, first, env)
                == RepeatLoop(fuel, s, mini, maxi, ns, pos, pos, [], [], true, env)
      decreases Budget(maxi, |values|), Max(pos.i, |env.code|) - index.i
    {
      var last := index;
      if !first && s.join.Some? {
        var jr := Parse(fuel, s.join.value, cur, index, env);
        if !jr.Parsed? {
          return jr;
        }
        if jr.value.None? {
          return RepeatEnd(mini, values, joins, pos, jr.pos, jr.ns);
        }
        joins := joins + [jr.value.value];
        index, cur := jr.pos, jr.ns;
      }
      assert RepeatItem(fuel, s, mini, maxi, cur, pos, last, index, values, joins, env)
          == RepeatLoop(fuel, s, mini, maxi, ns, pos, pos, [], [], true, env);
      var done;
      done, o, values, index, cur := RepeatItemTurn(fuel, s, mini, maxi, cur, pos, last, index, values, joins, env);
      if done {
        return;
      }
      first := false;
    }
  }

  /** The item step of one turn of `Repeat._parse`'s loop, `last` being where
      the turn began: either the loop ends with `o`, or it goes on from the
      returned state, having collected one more item and, without a numeric
      `maxi`, advanced past `last`. */
  method RepeatItemTurn(fuel: nat, s: Struct, mini: Value, maxi: Option<Value>, ns: Namespace,
                        orig: Position, last: Position, index: Position,
                        values: seq<Value>, joins: seq<Value>, env: Env)
    returns (done: bool, o: Outcome, values': seq<Value>, index': Position, ns': Namespace)
    requires s.Repeat? && (maxi.None? <==> s.maxi.None?)
    requires orig.i <= last.i <= index.i <= Max(orig.i, |env.code|)
    requires RepeatInvariant(s, maxi, values, joins, true)
    ensures done ==> o == RepeatItem(fuel, s, mini, maxi, ns, orig, last, index, values, joins, env)
    ensures !done ==> |values'| == |values| + 1 && values' != []
    ensures !done ==> orig.i <= index'.i <= Max(orig.i, |env.code|)
    ensures !done ==> RepeatInvariant(s, maxi, values', joins, false)
    ensures !done ==> Budget(maxi, |values'|) < Budget(maxi, |values|)
                      || (Budget(maxi, |values'|) == Budget(maxi, |values|) && index'.i > last.i)
    ensures !done ==> RepeatLoop(fuel, s, mini, maxi, ns', orig, index', values', joins, false, env)
                      == RepeatItem(fuel, s, mini, maxi, ns, orig, last, index, values, joins, env)
  {
    values', index', ns' := values, index, ns;
    var ir := Parse(fuel, s.item, ns, index, env);
    if !ir.Parsed? {
      return true, ir, values', index', ns';
    }
    if ir.value.None? {
      return true, RepeatEnd(mini, values, joins, orig, last, ir.ns), values', index', ns';
    }
    values', index', ns' := values + [ir.value.value], ir.pos, ir.ns;
    if maxi.Some? && AsInt(maxi.value).None? {
      return true, Raise(TypeError), values', index', ns';
    }
    if maxi.Some? && |values'| >= AsInt(maxi.value).value {
      return true, RepeatEnd(mini, values', joins, orig, index', ns'), values', index', ns';
    }
    if index'.i == last.i && s.maxi.None? {
      return true, RepeatEnd(mini, values', joins, orig, index', ns'), values', index', ns';
    }
    done, o := false, Raise(TypeError);
  }
}
