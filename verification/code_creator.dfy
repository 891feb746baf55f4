/** `CodeGenerator` of `code_creator.py`: an instruction list built one
    opcode and argument at a time, the running and maximum stack size, the
    line table, and the tables `Vue` arguments are interned into when the
    code is assembled. */
module CodeCreator {
  import opened Base
  import opened CodeTables

  /** An opcode as `add_ins` takes it: a name looked up in the opcode map,
      or a number used as it is. */
  datatype Opcode = OpName(name: string) | OpNumber(code: int)

  /** The largest of 0 and the stack sizes in `s`. */
  function MaxSize(s: seq<int>): int
    decreases |s|
  {
    if s == [] then 0 else Max(MaxSize(s[..|s| - 1]), s[|s| - 1])
  }

  /** The recorded maximum is a stack size that was set (or the initial 0)
      and no size set is above it. */
  lemma {:induction false} MaxSizeIsMaximum(s: seq<int>)
    ensures forall k :: 0 <= k < |s| ==> s[k] <= MaxSize(s)
    ensures 0 <= MaxSize(s) && (MaxSize(s) == 0 || MaxSize(s) in s)
    decreases |s|
  {
    if s != [] {
      var init := s[..|s| - 1];
      MaxSizeIsMaximum(init);
      forall k | 0 <= k < |s| ensures s[k] <= MaxSize(s) {
        if k < |init| {
          assert s[k] == init[k];
        }
      }
      if MaxSize(init) in init {
        var k :| 0 <= k < |init| && init[k] == MaxSize(init);
        assert s[k] == init[k];
      }
    }
  }

  /** The maximum over two runs of sizes is the larger of their maxima. */
  lemma {:induction false} MaxSizeAppend(s: seq<int>, t: seq<int>)
    ensures MaxSize(s + t) == Max(MaxSize(s), MaxSize(t))
    decreases |t|
  {
    if t == [] {
      assert s + t == s;
      MaxSizeIsMaximum(s);
    } else {
      var init := t[..|t| - 1];
      assert (s + t)[..|s + t| - 1] == s + init;
      MaxSizeAppend(s, init);
    }
  }

  /** Sizes recorded as one size and then a run on top of `z0`: the maximum
      over them is the larger of the old maximum and theirs. */
  lemma StackGrows(z0: seq<int>, s1: int, run: seq<int>, z: seq<int>)
    requires z == (z0 + [s1]) + run
    ensures z == z0 + ([s1] + run)
    ensures MaxSize(z) == Max(MaxSize(z0), MaxSize([s1] + run))
  {
    assert (z0 + [s1]) + run == z0 + ([s1] + run);
    MaxSizeAppend(z0, [s1] + run);
  }

  /** Two more entries per instruction are one more instruction each. */
  lemma HalfShift(a: nat, b: nat)
    ensures (a + 2 * b) / 2 == a / 2 + b
  {
  }

  /** What `build` hands to the code object constructor (the counts and
      flags it passes are all 0 and are left out). */
  datatype CodeObject = CodeObject(
    stacksize: int, code: seq<int>, consts: seq<Constant>, names: seq<Constant>, varnames: seq<Constant>,
    filename: string, name: string, firstlineno: int, lnotab: seq<int>,
    freevars: seq<Constant>, cellvars: seq<Constant>)

  /** The five tables as `build` resets them. */
  const EmptyTables: Tables := map[VarNames := [], Names := [], Constants := [], FreeVars := [], CellVars := []]

  /** No table holds a value twice. */
  predicate TablesDistinct(m: Tables)
  {
    forall u :: u in m ==> NoDuplicates(m[u])
  }

  /** Replacing one table by a table without duplicates leaves none with any. */
  lemma TablesStayDistinct(m: Tables, t: Table, f: seq<Constant>)
    requires TablesDistinct(m) && NoDuplicates(f)
    ensures TablesDistinct(m[t := f])
  {
  }

  /** The table reading `co_lines` gives in the line-number test of the
      generator: each pair is a span of instruction entries and the line
      delta that applies to it; the result lists (start, end, line). */
  function SpanLines(t: seq<int>, start: int, line: int): seq<(int, int, int)>
    requires EvenLen(t)
    decreases |t|
  {
    if t == [] then []
    else [(start, start + t[0], line + t[1])] + SpanLines(t[2..], start + t[0], line + t[1])
  }

  class CodeGenerator {
    const firstlineno: int
    const filename: string
    const blockname: string
    /** The interpreter's opcode map, `HAVE_ARGUMENT`, and `stack_effect`
        as a table: a pair it does not hold is one `stack_effect` refuses. */
    const opmap: map<string, int>
    const haveArgument: int
    const stackEffect: map<(int, Option<int>), int>

    var maxStacksize: int
    var stacksize: int
    /** Every stack size set so far. */
    ghost var sizes: seq<int>
    var instructions: seq<Entry>
    /** The values of the `Partial` arguments, by number. */
    var partials: seq<Option<int>>
    /** The `Vue` tables; `build` creates them. */
    var tables: Tables
    /** `lineotab`, `_lineotab_last_ins`, `_lineotab_last_delta_line`, `last_line`. */
    var lines: LineState

    /** The maximum stack size is the largest size set so far, the current
        size the last one; the line table was last marked within the
        instruction list; no table holds a value twice. (That the line table
        accounts for the marks, `LineAccount(lines)`, is kept by the line
        operations and untouched by the others.) */
    ghost predicate Valid()
      reads this
    {
      maxStacksize == MaxSize(sizes)
      && stacksize == (if sizes == [] then 0 else sizes[|sizes| - 1])
      && lines.lastIns <= |instructions|
      && TablesDistinct(tables)
    }

    constructor (firstlineno: int, filename: string, name: string,
                 opmap: map<string, int>, haveArgument: int, stackEffect: map<(int, Option<int>), int>)
      ensures Valid()
      ensures this.firstlineno == firstlineno && this.filename == filename && blockname == name
      ensures this.opmap == opmap && this.haveArgument == haveArgument && this.stackEffect == stackEffect
      ensures maxStacksize == 0 && stacksize == 0 && instructions == [] && partials == []
      ensures tables == map[] && lines == FreshLines
    {
      this.firstlineno := firstlineno;
      this.filename := filename;
      blockname := name;
      this.opmap := opmap;
      this.haveArgument := haveArgument;
      this.stackEffect := stackEffect;
      maxStacksize := 0;
      stacksize := 0;
      sizes := [];
      instructions := [];
      partials := [];
      tables := map[];
      lines := FreshLines;
    }

    /** `update_stacksize`: the size is set and the maximum raised to it. */
    method UpdateStacksize(size: int)
      modifies this
      requires Valid()
      ensures Valid()
      ensures stacksize == size && maxStacksize == Max(old(maxStacksize), size) && sizes == old(sizes) + [size]
      ensures instructions == old(instructions) && partials == old(partials)
      ensures tables == old(tables) && lines == old(lines)
    {
      maxStacksize := Max(maxStacksize, size);
      stacksize := size;
      sizes := sizes + [size];
      assert sizes[..|sizes| - 1] == old(sizes);
    }

    /** `actual_ins_index`: two entries per instruction. */
    function ActualInsIndex(): (i: int)
      reads this
      ensures 0 <= 2 * i <= |instructions| < 2 * i + 2
    {
      |instructions| / 2
    }

    /** `Partial()`: a new operand, not yet set. */
    method NewPartial() returns (p: nat)
      modifies this
      ensures old(Valid()) ==> Valid()
      ensures p == |old(partials)| && partials == old(partials) + [None]
      ensures instructions == old(instructions) && tables == old(tables) && lines == old(lines)
      ensures maxStacksize == old(maxStacksize) && stacksize == old(stacksize) && sizes == old(sizes)
    {
      p := |partials|;
      partials := partials + [None];
    }

    /** `Partial.set`. */
    method SetPartial(p: nat, v: int)
      modifies this
      requires p < |partials|
      ensures old(Valid()) ==> Valid()
      ensures partials == old(partials)[p := Some(v)]
      ensures instructions == old(instructions) && tables == old(tables) && lines == old(lines)
      ensures maxStacksize == old(maxStacksize) && stacksize == old(stacksize) && sizes == old(sizes)
    {
      partials := partials[p := Some(v)];
    }

    /** `Vue(table, v).get_value(self)`: a table `build` has not created yet
        is an `AttributeError`; otherwise `v` is appended when absent and its
        position returned. */
    method GetValue(t: Table, v: Constant) returns (r: Result<nat, CodeError>)
      modifies this
      ensures old(Valid()) ==> Valid()
      ensures t !in old(tables) ==> r == Err(AttributeError) && tables == old(tables)
      ensures t in old(tables) ==>
                r == Ok(Intern(old(tables)[t], v).1) && tables == old(tables)[t := Intern(old(tables)[t], v).0]
      ensures r.Ok? ==> t in tables && r.value < |tables[t]| && tables[t][r.value] == v
      ensures instructions == old(instructions) && partials == old(partials) && lines == old(lines)
      ensures maxStacksize == old(maxStacksize) && stacksize == old(stacksize) && sizes == old(sizes)
    {
      if t !in tables {
        return Err(AttributeError);
      }
      var interned := Intern(tables[t], v);
      if Valid() {
        InternKeepsTablesDistinct(tables[t], v);
        TablesStayDistinct(tables, t, interned.0);
      }
      tables := tables[t := interned.0];
      r := Ok(interned.1);
    }

    /** The argument `stack_effect` is given: the int argument (0 for a
        `Vue` or a `Partial`) for an opcode with an argument, none otherwise. */
    function EffectArg(code: int, arg: Entry): Option<int>
    {
      if code >= haveArgument then Some(if arg.Int? then arg.n else 0) else None
    }

    /** The opcode number `add_ins` uses for `op`: a name through the
        opcode map (none when the map lacks it), a number as it is. */
    function CodeOf(op: Opcode): (c: Option<int>)
      ensures c.None? <==> op.OpName? && op.name !in opmap
    {
      if op.OpName? then (if op.name in opmap then Some(opmap[op.name]) else None) else Some(op.code)
    }

    /** Whether `add_ins(op, arg)` succeeds: the opcode is known and
        `stack_effect` accepts it with its argument. */
    predicate Emits(op: Opcode, arg: Entry)
    {
      CodeOf(op).Some? && (CodeOf(op).value, EffectArg(CodeOf(op).value, arg)) in stackEffect
    }

    /** The exception a failing `add_ins(op, arg)` raises. */
    function ErrorOf(op: Opcode): CodeError
    {
      if CodeOf(op).None? then KeyError else ValueError
    }

    /** The entries `add_ins(op, arg)` appends: none for an unknown name,
        the opcode and the argument otherwise (also when `stack_effect`
        then refuses them). */
    function Entries(op: Opcode, arg: Entry): (e: seq<Entry>)
      ensures |e| == if CodeOf(op).Some? then 2 else 0
    {
      if CodeOf(op).Some? then [Int(CodeOf(op).value), arg] else []
    }

    /** How far `add_ins(op, arg)` moves the stack size (not at all when it fails). */
    function EffectOf(op: Opcode, arg: Entry): int
    {
      if Emits(op, arg) then stackEffect[(CodeOf(op).value, EffectArg(CodeOf(op).value, arg))] else 0
    }

    /** The entries of the instructions of `body`, in order. */
    function Emitted(body: seq<(Opcode, Entry)>): seq<Entry>
      decreases |body|
    {
      if body == [] then [] else Emitted(body[..|body| - 1]) + Entries(body[|body| - 1].0, body[|body| - 1].1)
    }

    /** A body whose instructions are all accepted appends two entries per
        instruction. */
    lemma {:induction false} EmittedLength(body: seq<(Opcode, Entry)>)
      requires forall k :: 0 <= k < |body| ==> Emits(body[k].0, body[k].1)
      ensures |Emitted(body)| == 2 * |body|
      decreases |body|
    {
      if body != [] {
        var init := body[..|body| - 1];
        assert forall k :: 0 <= k < |init| ==> init[k] == body[k];
        EmittedLength(init);
      }
    }

    /** The net stack effect of the instructions of `body`. */
    function EffectSum(body: seq<(Opcode, Entry)>): int
      decreases |body|
    {
      if body == [] then 0 else EffectSum(body[..|body| - 1]) + EffectOf(body[|body| - 1].0, body[|body| - 1].1)
    }

    /** The stack sizes `update_stacksize` records while `body` is emitted
        from size `s0`: one after each instruction that `add_ins` accepts. */
    function Running(s0: int, body: seq<(Opcode, Entry)>): seq<int>
      decreases |body|
    {
      if body == [] then []
      else Running(s0, body[..|body| - 1]) + (if Emits(body[|body| - 1].0, body[|body| - 1].1) then [s0 + EffectSum(body)] else [])
    }

    /** How many instructions of `body`, from the first, `add_ins` accepts
        before one fails. */
    function Accepted(body: seq<(Opcode, Entry)>): (n: nat)
      ensures n <= |body|
      decreases |body|
    {
      if body == [] || !Emits(body[0].0, body[0].1) then 0 else 1 + Accepted(body[1..])
    }

    /** The instructions before `Accepted(body)` are all accepted, and the
        one at it (if any) is refused. */
    lemma {:induction false} AcceptedPrefix(body: seq<(Opcode, Entry)>)
      ensures forall k :: 0 <= k < Accepted(body) ==> Emits(body[k].0, body[k].1)
      ensures Accepted(body) < |body| ==> !Emits(body[Accepted(body)].0, body[Accepted(body)].1)
      decreases |body|
    {
      if body != [] && Emits(body[0].0, body[0].1) {
        AcceptedPrefix(body[1..]);
        assert forall k :: 1 <= k < |body| ==> body[k] == body[1..][k - 1];
      }
    }

    /** The entries emitting `body` appends, whether or not it completes:
        those of the accepted instructions, then those of the failing one. */
    function Appended(body: seq<(Opcode, Entry)>): (e: seq<Entry>)
      ensures Accepted(body) == |body| ==> e == Emitted(body)
    {
      var n := Accepted(body);
      assert n == |body| ==> body[..n] == body;
      Emitted(body[..n]) + (if n < |body| then Entries(body[n].0, body[n].1) else [])
    }

    /** One more instruction adds its own entries and stack effect. */
    lemma EmittedStep(s0: int, body: seq<(Opcode, Entry)>, k: nat)
      requires k < |body|
      ensures Emitted(body[..k + 1]) == Emitted(body[..k]) + Entries(body[k].0, body[k].1)
      ensures EffectSum(body[..k + 1]) == EffectSum(body[..k]) + EffectOf(body[k].0, body[k].1)
      ensures Running(s0, body[..k + 1])
           == Running(s0, body[..k]) + (if Emits(body[k].0, body[k].1) then [s0 + EffectSum(body[..k + 1])] else [])
    {
      assert body[..k + 1][..k] == body[..k];
    }

    /** The first `k` instructions of `body` have been emitted on top of the
        entries `i0`, the size `s0` and the recorded sizes `z0`. */
    predicate Traced(body: seq<(Opcode, Entry)>, k: nat, i0: seq<Entry>, s0: int, z0: seq<int>,
                     ins: seq<Entry>, st: int, zs: seq<int>)
      requires k <= |body|
    {
      ins == i0 + Emitted(body[..k]) && st == s0 + EffectSum(body[..k]) && zs == z0 + Running(s0, body[..k])
    }

    /** Emitting instruction `k` as `add_ins` does extends the trace by one. */
    lemma TracedStep(body: seq<(Opcode, Entry)>, k: nat, i0: seq<Entry>, s0: int, z0: seq<int>,
                     ins: seq<Entry>, st: int, zs: seq<int>, ins': seq<Entry>, st': int, zs': seq<int>)
      requires k < |body| && Traced(body, k, i0, s0, z0, ins, st, zs)
      requires ins' == ins + Entries(body[k].0, body[k].1) && st' == st + EffectOf(body[k].0, body[k].1)
      requires zs' == zs + (if Emits(body[k].0, body[k].1) then [st'] else [])
      ensures Traced(body, k + 1, i0, s0, z0, ins', st', zs')
    {
      EmittedStep(s0, body, k);
    }

    /** A trace that ends with all of `body` emitted, or just past the first
        instruction refused, holds what emitting `body` appends, its stack
        effect and the sizes it records. */
    lemma TracedFinish(body: seq<(Opcode, Entry)>, k: nat, i0: seq<Entry>, s0: int, z0: seq<int>,
                       ins: seq<Entry>, st: int, zs: seq<int>)
      requires k <= |body| && Traced(body, k, i0, s0, z0, ins, st, zs)
      requires k == Accepted(body) == |body| || k == Accepted(body) + 1
      ensures ins == i0 + Appended(body)
      ensures st == s0 + EffectSum(body[..Accepted(body)]) && zs == z0 + Running(s0, body[..Accepted(body)])
    {
      var n := Accepted(body);
      AcceptedPrefix(body);
      if n < |body| {
        EmittedStep(s0, body, n);
      } else {
        assert body[..n] == body;
      }
    }

    /** The entries the jump `op` with operand `jump` and then `body`
        append: the jump's, then, when the jump went in, the block's. */
    function JumpEntries(op: Opcode, jump: Entry, body: seq<(Opcode, Entry)>): seq<Entry>
    {
      Entries(op, jump) + (if Emits(op, jump) then Appended(body) else [])
    }

    /** How far the jump `op` with operand `jump` and then `body` move the
        stack size. */
    function JumpEffect(op: Opcode, jump: Entry, body: seq<(Opcode, Entry)>): int
    {
      EffectOf(op, jump) + (if Emits(op, jump) then EffectSum(body[..Accepted(body)]) else 0)
    }

    /** The stack sizes recorded when the jump `op` with operand `jump`
        goes in at size `s0` before `body`: none when the jump is refused,
        else the size after the jump and then those of `body`. */
    function JumpSizes(s0: int, op: Opcode, jump: Entry, body: seq<(Opcode, Entry)>): seq<int>
    {
      if Emits(op, jump) then [s0 + EffectOf(op, jump)] + Running(s0 + EffectOf(op, jump), body[..Accepted(body)]) else []
    }

    /** The exception when the jump or `body` is refused: the jump's own,
        or that of the first instruction of `body` refused. */
    function JumpError(op: Opcode, jump: Entry, body: seq<(Opcode, Entry)>): CodeError
      requires !(Emits(op, jump) && Accepted(body) == |body|)
    {
      if !Emits(op, jump) then ErrorOf(op) else ErrorOf(body[Accepted(body)].0)
    }

    /** A jump and a block that both go through append the jump's entries
        and then two per instruction of the block, and move the stack size
        by all their effects. */
    lemma JumpCompletes(op: Opcode, jump: Entry, body: seq<(Opcode, Entry)>)
      requires Emits(op, jump) && Accepted(body) == |body|
      ensures JumpEntries(op, jump, body) == Entries(op, jump) + Emitted(body)
      ensures |JumpEntries(op, jump, body)| == 2 + 2 * |body|
      ensures JumpEffect(op, jump, body) == EffectOf(op, jump) + EffectSum(body)
    {
      assert body[..|body|] == body;
      AcceptedPrefix(body);
      EmittedLength(body);
    }

    /** A refused jump appends its entries (if any), moves nothing and
        records no size; a jump that goes in and is followed by `body`
        gives the jump's entries, effect and size, then the block's. */
    lemma JumpSteps(op: Opcode, jump: Entry, body: seq<(Opcode, Entry)>, i0: seq<Entry>, s0: int, z0: seq<int>,
                    i1: seq<Entry>, s1: int, z1: seq<int>, ins: seq<Entry>, st: int, zs: seq<int>)
      requires i1 == i0 + Entries(op, jump) && s1 == s0 + EffectOf(op, jump)
      requires z1 == z0 + (if Emits(op, jump) then [s1] else [])
      requires !Emits(op, jump) ==> ins == i1 && st == s1 && zs == z1
      requires Emits(op, jump) ==>
                 ins == i1 + Appended(body) && st == s1 + EffectSum(body[..Accepted(body)])
                 && zs == z1 + Running(s1, body[..Accepted(body)])
      ensures ins == i0 + JumpEntries(op, jump, body) && st == s0 + JumpEffect(op, jump, body)
      ensures zs == z0 + JumpSizes(s0, op, jump, body)
      ensures MaxSize(zs) == Max(MaxSize(z0), MaxSize(JumpSizes(s0, op, jump, body)))
    {
      if Emits(op, jump) {
        assert ins == i0 + (Entries(op, jump) + Appended(body));
        var run := Running(s1, body[..Accepted(body)]);
        assert JumpSizes(s0, op, jump, body) == [s1] + run;
        StackGrows(z0, s1, run, zs);
      } else {
        assert JumpSizes(s0, op, jump, body) == [];
        assert zs == z0 + [];
        MaxSizeAppend(z0, []);
      }
    }

    /** The stack sizes `jump_abs_back` records from size `s0`: those of
        `body`, then, when all of `body` went in, the one after the jump
        back to `back`. */
    function BackSizes(s0: int, body: seq<(Opcode, Entry)>, back: Entry): seq<int>
    {
      Running(s0, body[..Accepted(body)])
      + (if Accepted(body) == |body| && Emits(OpName("JUMP_ABSOLUTE"), back)
         then [s0 + EffectSum(body[..Accepted(body)]) + EffectOf(OpName("JUMP_ABSOLUTE"), back)] else [])
    }

    /** `add_ins(op, arg)`: an unknown opcode name is a `KeyError` and
        changes nothing; otherwise the opcode and the argument are appended,
        which is one more instruction, and the stack size moves by the
        opcode's effect, or, when `stack_effect` refuses the opcode, a
        `ValueError` leaves the two entries appended and the size as it was. */
    method AddIns(op: Opcode, arg: Entry) returns (r: Result<(), CodeError>)
      modifies this
      requires Valid()
      ensures Valid()
      ensures op.OpName? && op.name !in opmap ==>
                r == Err(KeyError) && instructions == old(instructions)
                && stacksize == old(stacksize) && maxStacksize == old(maxStacksize)
      ensures !(op.OpName? && op.name !in opmap) ==>
                var code := if op.OpName? then opmap[op.name] else op.code;
                var key := (code, EffectArg(code, arg));
                instructions == old(instructions) + [Int(code), arg]
                && ActualInsIndex() == old(ActualInsIndex()) + 1
                && (key in stackEffect ==>
                      r == Ok(()) && stacksize == old(stacksize) + stackEffect[key]
                      && maxStacksize == Max(old(maxStacksize), stacksize))
                && (key !in stackEffect ==>
                      r == Err(ValueError) && stacksize == old(stacksize) && maxStacksize == old(maxStacksize))
      ensures r == (if Emits(op, arg) then Ok(()) else Err(ErrorOf(op)))
      ensures instructions == old(instructions) + Entries(op, arg) && stacksize == old(stacksize) + EffectOf(op, arg)
      ensures sizes == old(sizes) + (if Emits(op, arg) then [stacksize] else [])
      ensures partials == old(partials) && tables == old(tables) && lines == old(lines)
    {
      var code: int;
      if op.OpName? {
        if op.name !in opmap {
          return Err(KeyError);
        }
        code := opmap[op.name];
      } else {
        code := op.code;
      }
      instructions := instructions + [Int(code), arg];
      var key := (code, EffectArg(code, arg));
      if key !in stackEffect {
        return Err(ValueError);
      }
      UpdateStacksize(stacksize + stackEffect[key]);
      r := Ok(());
    }

    /** The instructions of a `with` block, emitted in order; the first
        that `add_ins` refuses stops it, with its exception, after its
        entries (if any) were appended. */
    method AddAll(body: seq<(Opcode, Entry)>) returns (r: Result<(), CodeError>)
      modifies this
      requires Valid()
      ensures Valid()
      ensures var n := Accepted(body);
              (r.Ok? <==> n == |body|) && (n < |body| ==> r == Err(ErrorOf(body[n].0)))
      ensures instructions == old(instructions) + Appended(body)
      ensures stacksize == old(stacksize) + EffectSum(body[..Accepted(body)])
      ensures sizes == old(sizes) + Running(old(stacksize), body[..Accepted(body)])
      ensures maxStacksize == Max(old(maxStacksize), MaxSize(Running(old(stacksize), body[..Accepted(body)])))
      ensures r.Ok? ==> instructions == old(instructions) + Emitted(body)
                        && ActualInsIndex() == old(ActualInsIndex()) + |body|
      ensures partials == old(partials) && tables == old(tables) && lines == old(lines)
    {
      ghost var n := Accepted(body);
      AcceptedPrefix(body);
      for k := 0 to |body|
        invariant Valid()
        invariant k <= n
        invariant Traced(body, k, old(instructions), old(stacksize), old(sizes), instructions, stacksize, sizes)
        invariant partials == old(partials) && tables == old(tables) && lines == old(lines)
      {
        ghost var (ins, st, zs) := (instructions, stacksize, sizes);
        var e := AddIns(body[k].0, body[k].1);
        TracedStep(body, k, old(instructions), old(stacksize), old(sizes), ins, st, zs, instructions, stacksize, sizes);
        if e.Err? {
          assert k == n;
          TracedFinish(body, k + 1, old(instructions), old(stacksize), old(sizes), instructions, stacksize, sizes);
          MaxSizeAppend(old(sizes), Running(old(stacksize), body[..n]));
          return e;
        }
        assert k < n;
      }
      TracedFinish(body, |body|, old(instructions), old(stacksize), old(sizes), instructions, stacksize, sizes);
      MaxSizeAppend(old(sizes), Running(old(stacksize), body[..n]));
      EmittedLength(body);
      r := Ok(());
    }

    /** The jump `op` with operand `jump`, then the block `body` when the
        jump went in: what `jump_forward` and `jump_to` do before their
        operand is set. */
    method JumpThen(op: Opcode, jump: Entry, body: seq<(Opcode, Entry)>) returns (r: Result<(), CodeError>)
      modifies this
      requires Valid()
      ensures Valid()
      ensures r.Ok? <==> Emits(op, jump) && Accepted(body) == |body|
      ensures r.Err? ==> r.error == JumpError(op, jump, body)
      ensures instructions == old(instructions) + JumpEntries(op, jump, body)
      ensures stacksize == old(stacksize) + JumpEffect(op, jump, body)
      ensures sizes == old(sizes) + JumpSizes(old(stacksize), op, jump, body)
      ensures maxStacksize == Max(old(maxStacksize), MaxSize(JumpSizes(old(stacksize), op, jump, body)))
      ensures partials == old(partials) && tables == old(tables) && lines == old(lines)
    {
      r := AddIns(op, jump);
      ghost var (i1, s1, z1) := (instructions, stacksize, sizes);
      if r.Ok? {
        r := AddAll(body);
      }
      JumpSteps(op, jump, body, old(instructions), old(stacksize), old(sizes), i1, s1, z1, instructions, stacksize, sizes);
    }

    /** `with jump_forward(op, add): body`: the jump goes in with a new
        `Partial` operand, then the block; the operand is patched to the
        number of instructions the block emitted, plus `add`. A failure
        leaves the operand unset. */
    method JumpForward(op: Opcode, body: seq<(Opcode, Entry)>, add: int) returns (r: Result<nat, CodeError>)
      modifies this
      requires Valid()
      ensures Valid()
      ensures |partials| == |old(partials)| + 1 && partials[..|old(partials)|] == old(partials)
      ensures tables == old(tables) && lines == old(lines)
      ensures var jump := PartialRef(|old(partials)|);
              (r.Ok? <==> Emits(op, jump) && Accepted(body) == |body|)
              && instructions == old(instructions) + JumpEntries(op, jump, body)
              && stacksize == old(stacksize) + JumpEffect(op, jump, body)
              && sizes == old(sizes) + JumpSizes(old(stacksize), op, jump, body)
              && maxStacksize == Max(old(maxStacksize), MaxSize(JumpSizes(old(stacksize), op, jump, body)))
      ensures r.Ok? ==> r.value == |old(partials)| && partials[r.value] == Some(|body| + add)
                        && instructions == old(instructions) + Entries(op, PartialRef(r.value)) + Emitted(body)
                        && stacksize == old(stacksize) + EffectOf(op, PartialRef(r.value)) + EffectSum(body)
      ensures r.Err? ==> partials[|old(partials)|] == None && r.error == JumpError(op, PartialRef(|old(partials)|), body)
    {
      var start := ActualInsIndex();
      var p := NewPartial();
      var e := JumpThen(op, PartialRef(p), body);
      if e.Err? {
        return Err(e.error);
      }
      JumpCompletes(op, PartialRef(p), body);
      HalfShift(|old(instructions)|, 1 + |body|);
      var end := ActualInsIndex();
      assert end - start - 1 + add == |body| + add;
      SetPartial(p, end - start - 1 + add);
      assert partials[p] == Some(|body| + add);
      r := Ok(p);
    }

    /** `with jump_to(op, add): body`: the jump goes in with a new `Partial`
        operand, then the block; the operand is patched to the index of the
        instruction after the block, plus `add`. A failure leaves the
        operand unset. */
    method JumpTo(op: Opcode, body: seq<(Opcode, Entry)>, add: int) returns (r: Result<nat, CodeError>)
      modifies this
      requires Valid()
      ensures Valid()
      ensures |partials| == |old(partials)| + 1 && partials[..|old(partials)|] == old(partials)
      ensures tables == old(tables) && lines == old(lines)
      ensures var jump := PartialRef(|old(partials)|);
              (r.Ok? <==> Emits(op, jump) && Accepted(body) == |body|)
              && instructions == old(instructions) + JumpEntries(op, jump, body)
              && stacksize == old(stacksize) + JumpEffect(op, jump, body)
              && sizes == old(sizes) + JumpSizes(old(stacksize), op, jump, body)
              && maxStacksize == Max(old(maxStacksize), MaxSize(JumpSizes(old(stacksize), op, jump, body)))
      ensures r.Ok? ==> r.value == |old(partials)| && partials[r.value] == Some(old(ActualInsIndex()) + 1 + |body| + add)
                        && instructions == old(instructions) + Entries(op, PartialRef(r.value)) + Emitted(body)
                        && stacksize == old(stacksize) + EffectOf(op, PartialRef(r.value)) + EffectSum(body)
      ensures r.Err? ==> partials[|old(partials)|] == None && r.error == JumpError(op, PartialRef(|old(partials)|), body)
    {
      var p := NewPartial();
      var e := JumpThen(op, PartialRef(p), body);
      if e.Err? {
        return Err(e.error);
      }
      JumpCompletes(op, PartialRef(p), body);
      HalfShift(|old(instructions)|, 1 + |body|);
      var end := ActualInsIndex();
      assert end == old(ActualInsIndex()) + 1 + |body|;
      SetPartial(p, end + add);
      r := Ok(p);
    }

    /** `with jump_abs_back(): body`: after the block, `JUMP_ABSOLUTE` to
        the index the block started at. */
    method JumpAbsBack(body: seq<(Opcode, Entry)>) returns (r: Result<(), CodeError>)
      modifies this
      requires Valid()
      ensures Valid()
      ensures var back := Int(old(ActualInsIndex()));
              (r.Ok? <==> Accepted(body) == |body| && Emits(OpName("JUMP_ABSOLUTE"), back))
              && instructions == old(instructions) + Appended(body)
                                 + (if Accepted(body) == |body| then Entries(OpName("JUMP_ABSOLUTE"), back) else [])
      ensures r.Ok? ==> "JUMP_ABSOLUTE" in opmap
                        && instructions == old(instructions) + Emitted(body) + [Int(opmap["JUMP_ABSOLUTE"]), Int(old(ActualInsIndex()))]
                        && stacksize == old(stacksize) + EffectSum(body) + EffectOf(OpName("JUMP_ABSOLUTE"), Int(old(ActualInsIndex())))
      ensures partials == old(partials) && tables == old(tables) && lines == old(lines)
      ensures stacksize == old(stacksize) + EffectSum(body[..Accepted(body)])
                           + (if Accepted(body) == |body| then EffectOf(OpName("JUMP_ABSOLUTE"), Int(old(ActualInsIndex()))) else 0)
      ensures r.Err? ==> r.error == if Accepted(body) < |body| then ErrorOf(body[Accepted(body)].0) else ErrorOf(OpName("JUMP_ABSOLUTE"))
      ensures sizes == old(sizes) + BackSizes(old(stacksize), body, Int(old(ActualInsIndex())))
      ensures maxStacksize == Max(old(maxStacksize), MaxSize(BackSizes(old(stacksize), body, Int(old(ActualInsIndex())))))
    {
      var start := ActualInsIndex();
      ghost var z0 := sizes;
      assert maxStacksize == MaxSize(z0);
      ghost var added := BackSizes(stacksize, body, Int(start));
      var e := AddAll(body);
      if e.Err? {
        assert added == Running(old(stacksize), body[..Accepted(body)]) + [];
        MaxSizeAppend(z0, added);
        return e;
      }
      assert body[..|body|] == body;
      ghost var z1 := sizes;
      r := AddIns(OpName("JUMP_ABSOLUTE"), Int(start));
      assert sizes == z0 + added;
      MaxSizeAppend(z0, added);
    }

    /** `_add_to_lnotab(ins, l)`: the span byte, one `ff 00` pair per 255
        lines beyond 255, then the remaining lines. */
    method AddToLnotab(ins: int, l: int) returns (err: Option<CodeError>)
      modifies this
      ensures (err, lines.lnotab) == LnotabAppend(old(lines.lnotab), ins, l)
      ensures lines == old(lines).(lnotab := lines.lnotab)
      ensures instructions == old(instructions) && partials == old(partials) && tables == old(tables)
      ensures maxStacksize == old(maxStacksize) && stacksize == old(stacksize) && sizes == old(sizes)
    {
      if !IsByte(ins) {
        return Some(OverflowError);
      }
      var t := lines.lnotab + [ins];
      var n := l;
      while n > 255
        invariant l >= 0 ==> n >= 0 && t + LinesBytes(n) == old(lines.lnotab) + [ins] + LinesBytes(l)
        invariant l < 0 ==> n == l && t == old(lines.lnotab) + [ins]
        decreases n
      {
        assert LinesBytes(n) == [255, 0] + LinesBytes(n - 255);
        t := t + [255, 0];
        n := n - 255;
      }
      if n < 0 {
        lines := lines.(lnotab := t);
        return Some(OverflowError);
      }
      lines := lines.(lnotab := t + [n]);
      err := None;
    }

    /** `next_line(nlines)`, with the correction that `nlines` is kept when
        no instruction was added since the last mark. */
    method NextLine(nlines: int) returns (err: Option<CodeError>)
      modifies this
      ensures LineStep(err, lines) == CodeTables.NextLine(old(lines), |old(instructions)|, nlines)
      ensures old(Valid()) ==> Valid()
      ensures old(LineAccount(lines)) && err.None? ==> LineAccount(lines) && lines.lastLine == old(lines.lastLine) + nlines
      ensures instructions == old(instructions) && partials == old(partials) && tables == old(tables)
      ensures maxStacksize == old(maxStacksize) && stacksize == old(stacksize) && sizes == old(sizes)
    {
      if LineAccount(lines) {
        NextLineKeepsAccount(lines, |instructions|, nlines);
      }
      var d := |instructions| - lines.lastIns;
      if d == 0 {
        lines := lines.(lastDelta := lines.lastDelta + nlines, lastLine := lines.lastLine + nlines);
        return None;
      } else if d < 0 {
        return Some(ValueError);
      }
      err := AddToLnotab(d, lines.lastDelta);
      if err.Some? {
        return;
      }
      lines := LineState(lines.lnotab, |instructions|, nlines, lines.lastLine + nlines);
    }

    /** `go_line(lineno)` (and assigning `line`): the current line becomes `lineno`. */
    method GoLine(lineno: int) returns (err: Option<CodeError>)
      modifies this
      ensures LineStep(err, lines) == CodeTables.GoLine(old(lines), |old(instructions)|, lineno)
      ensures old(Valid()) ==> Valid()
      ensures old(LineAccount(lines)) && err.None? ==> LineAccount(lines) && lines.lastLine == lineno
      ensures instructions == old(instructions) && partials == old(partials) && tables == old(tables)
      ensures maxStacksize == old(maxStacksize) && stacksize == old(stacksize) && sizes == old(sizes)
    {
      err := NextLine(lineno - lines.lastLine);
      if err.Some? {
        return;
      }
      lines := lines.(lastLine := lineno);
    }

    /** One entry of `get_codebytes`: an int as itself, a `Vue` through
        `get_value`, a `Partial` as its value; a value that is not a byte is
        a `ValueError` (from `bytearray.append`), an unset `Partial` a
        `TypeError`, any other entry a `ValueError`. */
    method EntryByte(e: Entry) returns (r: Result<int, CodeError>)
      modifies this
      ensures (r, tables) == EncodeEntry(e, partials, old(tables))
      ensures old(Valid()) ==> Valid()
      ensures instructions == old(instructions) && partials == old(partials) && lines == old(lines)
      ensures maxStacksize == old(maxStacksize) && stacksize == old(stacksize) && sizes == old(sizes)
    {
      match e
      case Int(n) =>
        r := if IsByte(n) then Ok(n) else Err(ValueError);
      case VueRef(t, v) =>
        var i := GetValue(t, v);
        if i.Err? {
          return Err(i.error);
        }
        r := if IsByte(i.value) then Ok(i.value) else Err(ValueError);
      case PartialRef(id) =>
        if id < |partials| && partials[id].Some? {
          r := if IsByte(partials[id].value) then Ok(partials[id].value) else Err(ValueError);
        } else {
          r := Err(TypeError);
        }
      case Other =>
        r := Err(ValueError);
    }

    /** `get_codebytes`: every entry becomes one byte, `Vue` values being
        interned on the way; the first entry that cannot be a byte stops it. */
    method GetCodebytes() returns (r: Result<seq<int>, CodeError>)
      modifies this
      ensures var e := Encode(old(instructions), partials, old(tables));
              tables == e.tables && (e.Encoded? ==> r == Ok(e.bytes)) && (e.EncodeFailed? ==> r == Err(e.err))
      ensures old(Valid()) ==> Valid()
      ensures instructions == old(instructions) && partials == old(partials) && lines == old(lines)
      ensures maxStacksize == old(maxStacksize) && stacksize == old(stacksize) && sizes == old(sizes)
    {
      var b: seq<int> := [];
      for k := 0 to |instructions|
        invariant instructions == old(instructions) && partials == old(partials) && lines == old(lines)
        invariant Resume(b, Encode(instructions[k..], partials, tables)) == Encode(instructions, partials, old(tables))
        invariant old(Valid()) ==> Valid()
        invariant maxStacksize == old(maxStacksize) && stacksize == old(stacksize) && sizes == old(sizes)
      {
        var rest := instructions[k..];
        assert rest[0] == instructions[k] && rest[1..] == instructions[k + 1..];
        ResumeStep(b, rest, partials, tables);
        var x := EntryByte(instructions[k]);
        if x.Err? {
          return Err(x.error);
        }
        b := b + [x.value];
      }
      assert instructions[|instructions|..] == [];
      assert b + [] == b;
      r := Ok(b);
    }

    /** `build`: the last span is closed with `next_line(0)`, the tables are
        created empty, and the instructions encoded into them. */
    method Build() returns (r: Result<CodeObject, CodeError>)
      modifies this
      ensures var e := Encode(old(instructions), old(partials), EmptyTables);
              r.Ok? ==> e.Encoded? && r.value.code == e.bytes
                        && r.value.consts == e.tables[Constants] && r.value.names == e.tables[Names]
                        && r.value.varnames == e.tables[VarNames]
                        && r.value.freevars == e.tables[FreeVars] && r.value.cellvars == e.tables[CellVars]
      ensures r.Ok? ==> r.value.stacksize == old(maxStacksize) && r.value.filename == filename
                        && r.value.name == blockname && r.value.firstlineno == firstlineno
                        && r.value.lnotab == CodeTables.NextLine(old(lines), |old(instructions)|, 0).st.lnotab
      ensures old(Valid()) && old(LineAccount(lines)) && r.Ok? ==> EvenLen(r.value.lnotab) && PairSums(r.value.lnotab).0 == |old(instructions)|
      ensures r.Ok? <==> CodeTables.NextLine(old(lines), |old(instructions)|, 0).err.None?
                         && Encode(old(instructions), old(partials), EmptyTables).Encoded?
      ensures var step := CodeTables.NextLine(old(lines), |old(instructions)|, 0);
              var e := Encode(old(instructions), old(partials), EmptyTables);
              lines == step.st
              && tables == (if step.err.None? then e.tables else old(tables))
              && (r.Err? ==> r.error == (if step.err.Some? then step.err.value else e.err))
      ensures old(Valid()) ==> Valid()
      ensures instructions == old(instructions) && partials == old(partials)
      ensures maxStacksize == old(maxStacksize) && stacksize == old(stacksize) && sizes == old(sizes)
    {
      ghost var step := CodeTables.NextLine(lines, |instructions|, 0);
      ghost var e := Encode(instructions, partials, EmptyTables);
      var err := NextLine(0);
      assert err == step.err && lines == step.st;
      if err.Some? {
        return Err(err.value);
      }
      assert old(Valid()) && old(LineAccount(lines)) ==> lines.lastIns == |instructions|;
      tables := EmptyTables;
      assert TablesDistinct(tables);
      var code := GetCodebytes();
      assert tables == e.tables && (code.Ok? <==> e.Encoded?) && (code.Ok? ==> code.value == e.bytes);
      if code.Err? {
        return Err(code.error);
      }
      r := Ok(CodeObject(maxStacksize, code.value, tables[Constants], tables[Names], tables[VarNames],
                         filename, blockname, firstlineno, lines.lnotab, tables[FreeVars], tables[CellVars]));
    }
  }

  /** The line-number test of the generator: `LOAD_GLOBAL`, `line += 1`,
      `LOAD_CONST`, `line = 5`, `CALL_FUNCTION`, `RETURN_VALUE`, `build`
      gives the table 02 00 02 01 04 04, whose spans are entries 0-2 on
      line 0, 2-4 on line 1 and 4-8 on line 5. */
  lemma LineNumbersExample()
    ensures EvenLen([2, 0, 2, 1, 4, 4])
    ensures var s1 := GoLine(FreshLines, 2, 1).st;
            var s2 := GoLine(s1, 4, 5).st;
            var s3 := CodeTables.NextLine(s2, 8, 0).st;
            s3.lnotab == [2, 0, 2, 1, 4, 4] && SpanLines(s3.lnotab, 0, 0) == [(0, 2, 0), (2, 4, 1), (4, 8, 5)]
  {
    assert LinesBytes(0) == [0] && LinesBytes(1) == [1] && LinesBytes(4) == [4];
    var s1 := LineState([2, 0], 2, 1, 1);
    assert [] + [2] + [0] == [2, 0];
    assert GoLine(FreshLines, 2, 1).st == s1;
    var s2 := LineState([2, 0, 2, 1], 4, 4, 5);
    assert [2, 0] + [2] + [1] == [2, 0, 2, 1];
    assert GoLine(s1, 4, 5).st == s2;
    var t := [2, 0, 2, 1, 4, 4];
    assert [2, 0, 2, 1] + [4] + [4] == t;
    assert CodeTables.NextLine(s2, 8, 0).st.lnotab == t;
    assert t[2..] == [2, 1, 4, 4] && t[2..][2..] == [4, 4] && t[2..][2..][2..] == [];
    assert EvenLen(t[2..][2..]) && EvenLen(t[2..]) && EvenLen(t);
  }
}
