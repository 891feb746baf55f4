/** What `Sequence._parse` of the `parser_v2` engine computes for any number
    of children: the first child from the cursor, then the rest from where it
    stopped and with the namespace it left; item `k` of the list is child
    `k`'s value, and a failure anywhere rolls the cursor back to the start. */
module EngineSeqProps {
  import opened Base
  import opened Positions
  import opened Grammar
  import opened Engine

  /** A successful list result with `acc` put in front of its items. */
  function Prepend(acc: seq<Value>, o: Outcome): (r: Outcome)
    ensures o.Parsed? && o.value.Some? && o.value.value.List? ==>
              r == Parsed(Some(List(acc + o.value.value.items)), o.pos, o.ns)
    ensures !(o.Parsed? && o.value.Some? && o.value.value.List?) ==> r == o
  {
    if o.Parsed? && o.value.Some? && o.value.value.List? then Parsed(Some(List(acc + o.value.value.items)), o.pos, o.ns) else o
  }

  /** A failure reported at `before` instead, keeping its namespace. */
  function RollTo(before: Position, o: Outcome): (r: Outcome)
    ensures o.Parsed? && o.value.None? ==> r == Parsed(None, before, o.ns)
    ensures !(o.Parsed? && o.value.None?) ==> r == o
  {
    if o.Parsed? && o.value.None? then Parsed(None, before, o.ns) else o
  }

  /** A sequence read one child at a time: `a` from the cursor; on success
      the sequence of `rest` from where `a` stopped, with the namespace `a`
      left, its items following `a`'s value; any failure is reported at the
      starting cursor. */
  function SeqFirstThenRest(fuel: nat, a: Struct, rest: seq<Struct>, idx: seq<Index>, fin: bool, f: Factory,
                            ns: Namespace, pos: Position, env: Env): Outcome
  {
    match Parse(fuel, a, ns, pos, env)
    case Parsed(None, _, ns1) => Parsed(None, pos, ns1)
    case Parsed(Some(v), p, ns1) => RollTo(pos, Prepend([v], Raw(fuel, Seq(rest, idx, fin, f), ns1, p, env)))
    case o => o
  }

  /** The loop from child `k` with the values `acc` found so far and the
      rollback cursor `before` is the loop with no values, `acc` in front,
      and failures reported at `before`. */
  lemma {:induction false} SeqLoopFactors(fuel: nat, s: Struct, k: nat, acc: seq<Value>, ns: Namespace,
                                          before: Position, before': Position, pos: Position, env: Env)
    requires s.Seq? && k <= |s.parts|
    requires before.i <= pos.i <= Max(before.i, |env.code|)
    requires before'.i <= pos.i <= Max(before'.i, |env.code|)
    ensures SeqLoop(fuel, s, k, acc, ns, before, pos, env)
         == RollTo(before, Prepend(acc, SeqLoop(fuel, s, k, [], ns, before', pos, env)))
    decreases |s.parts| - k
  {
    if k == |s.parts| {
      assert acc + [] == acc;
    } else {
      match Parse(fuel, s.parts[k], ns, pos, env)
      case Parsed(Some(v), p, ns') =>
        assert [] + [v] == [v];
        SeqLoopFactors(fuel, s, k + 1, acc + [v], ns', before, before', p, env);
        SeqLoopFactors(fuel, s, k + 1, [v], ns', before', before', p, env);
        PrependTwice(acc, v, before', SeqLoop(fuel, s, k + 1, [], ns', before', p, env));
      case _ =>
    }
  }

  /** Values put in front in two rounds are put in front once. */
  lemma PrependTwice(acc: seq<Value>, v: Value, before': Position, o: Outcome)
    ensures Prepend(acc, RollTo(before', Prepend([v], o))) == RollTo(before', Prepend(acc + [v], o))
  {
    if o.Parsed? && o.value.Some? && o.value.value.List? {
      assert acc + ([v] + o.value.value.items) == (acc + [v]) + o.value.value.items;
    }
  }

  /** Dropping the first child shifts the child index by one. */
  lemma {:induction false} SeqLoopTail(fuel: nat, a: Struct, rest: seq<Struct>, idx: seq<Index>, fin: bool, f: Factory,
                                       k: nat, acc: seq<Value>, ns: Namespace, before: Position, pos: Position, env: Env)
    requires k <= |rest|
    requires before.i <= pos.i <= Max(before.i, |env.code|)
    ensures SeqLoop(fuel, Seq([a] + rest, idx, fin, f), k + 1, acc, ns, before, pos, env)
         == SeqLoop(fuel, Seq(rest, idx, fin, f), k, acc, ns, before, pos, env)
    decreases |rest| - k
  {
    if k < |rest| {
      assert ([a] + rest)[k + 1] == rest[k];
      match Parse(fuel, rest[k], ns, pos, env)
      case Parsed(Some(v), p, ns') =>
        SeqLoopTail(fuel, a, rest, idx, fin, f, k + 1, acc + [v], ns', before, p, env);
      case _ =>
    }
  }

  /** `Sequence._parse` for any number of children: with none it succeeds
      with an empty list where it stands; otherwise the first child is
      parsed, then the remaining children as a sequence from where it
      stopped and with the namespace it left. The list holds the first
      child's value followed by the others', and the sequence ends where the
      last child ended. A failure of any child is reported at the starting
      cursor, with the namespace as the failing child left it. */
  lemma SequenceCons(fuel: nat, a: Struct, rest: seq<Struct>, idx: seq<Index>, fin: bool, f: Factory,
                     ns: Namespace, pos: Position, env: Env)
    ensures Raw(fuel, Seq([], idx, fin, f), ns, pos, env) == Parsed(Some(List([])), pos, ns)
    ensures Raw(fuel, Seq([a] + rest, idx, fin, f), ns, pos, env) == SeqFirstThenRest(fuel, a, rest, idx, fin, f, ns, pos, env)
  {
    var s := Seq([a] + rest, idx, fin, f);
    assert s.parts[0] == a;
    match Parse(fuel, a, ns, pos, env)
    case Parsed(Some(v), p, ns1) =>
      assert [] + [v] == [v];
      assert Raw(fuel, s, ns, pos, env) == SeqLoop(fuel, s, 1, [v], ns1, pos, p, env);
      SeqLoopTail(fuel, a, rest, idx, fin, f, 0, [v], ns1, pos, p, env);
      SeqLoopFactors(fuel, Seq(rest, idx, fin, f), 0, [v], ns1, pos, p, p, env);
    case _ =>
  }
}
