/** The passes over a finished CrocoLang tree: `optimize`, which leaves every
    statement in place, and `first_pass`, which stamps the file name on the
    nodes it visits and collects the names of the variables assigned. */
module CrocoPasses {
  import opened Base
  import opened CrocoAst

  // ---------------------------------------------------------------------
  // Which trees the passes can walk

  /** Every second-level access has its object and every flow-control
      statement its block (the else clause may be absent): without them the
      first pass would call a method on `None`. */
  predicate Complete(n: Node)
  {
    match n
    case Number(_, _, _) => true
    case StringLit(_, _, _) => true
    case VarName(_, _, _) => true
    case Op(a, b, _, _, _) => Complete(a) && Complete(b)
    case GetAttr(obj, _, _, _) => obj.Some? && Complete(obj.value)
    case GetItem(obj, i, _, _) => obj.Some? && Complete(obj.value) && Complete(i)
    case Call(obj, args, _, _) => obj.Some? && Complete(obj.value) && CompleteAll(args)
    case Collection(es, _, _, _) => CompleteAll(es)
    case Affectation(v, x, _, _, _) => Complete(v) && Complete(x)
    case Block(ss, _, _) => CompleteAll(ss)
    case If(c, b, e, _, _) => Complete(c) && b.Some? && Complete(b.value) && (e.Some? ==> Complete(e.value))
    case While(c, b, e, _, _) => Complete(c) && b.Some? && Complete(b.value) && (e.Some? ==> Complete(e.value))
    case For(t, it, b, e, _, _) =>
      Complete(t) && Complete(it) && b.Some? && Complete(b.value) && (e.Some? ==> Complete(e.value))
    case FlowControl(b, e, _, _) => b.Some? && Complete(b.value) && (e.Some? ==> Complete(e.value))
  }

  predicate CompleteAll(ss: seq<Node>)
  {
    forall k :: 0 <= k < |ss| ==> Complete(ss[k])
  }

  /** What `optimize` needs: every block reached through blocks and
      flow-control statements is present. */
  predicate BlocksFilled(n: Node)
  {
    match n
    case Block(ss, _, _) => forall k :: 0 <= k < |ss| ==> BlocksFilled(ss[k])
    case If(_, b, _, _, _) => b.Some? && BlocksFilled(b.value)
    case While(_, b, _, _, _) => b.Some? && BlocksFilled(b.value)
    case For(_, _, b, _, _, _) => b.Some? && BlocksFilled(b.value)
    case FlowControl(b, _, _, _) => b.Some? && BlocksFilled(b.value)
    case _ => true
  }

  /** A tree the first pass can walk can also be optimized. */
  lemma {:induction false} CompleteFillsBlocks(n: Node)
    requires Complete(n)
    ensures BlocksFilled(n)
    decreases n
  {
    match n
    case Block(ss, _, _) =>
      forall k | 0 <= k < |ss| ensures BlocksFilled(ss[k]) {
        CompleteFillsBlocks(ss[k]);
      }
    case If(_, b, _, _, _) => CompleteFillsBlocks(b.value);
    case While(_, b, _, _, _) => CompleteFillsBlocks(b.value);
    case For(_, _, b, _, _, _) => CompleteFillsBlocks(b.value);
    case FlowControl(b, _, _, _) => CompleteFillsBlocks(b.value);
    case _ =>
  }

  // ---------------------------------------------------------------------
  // `optimize`

  /** `optimize`: a block replaces each statement by its optimized form, a
      flow-control statement optimizes its block, and every other statement
      is its own optimized form; so the tree comes back unchanged, with the
      same statements in the same order. */
  method Optimize(n: Node) returns (r: Node)
    requires BlocksFilled(n)
    ensures r == n
    decreases n
  {
    match n
    case Block(ss, line, file) =>
      var optimized: seq<Node> := [];
      for k := 0 to |ss|
        invariant optimized == ss[..k]
      {
        var s := Optimize(ss[k]);
        optimized := optimized + [s];
      }
      assert ss[..|ss|] == ss;
      r := Block(optimized, line, file);
    case If(c, b, e, line, file) =>
      var ob := Optimize(b.value);
      r := If(c, Some(ob), e, line, file);
    case While(c, b, e, line, file) =>
      var ob := Optimize(b.value);
      r := While(c, Some(ob), e, line, file);
    case For(t, it, b, e, line, file) =>
      var ob := Optimize(b.value);
      r := For(t, it, Some(ob), e, line, file);
    case FlowControl(b, e, line, file) =>
      var ob := Optimize(b.value);
      r := FlowControl(Some(ob), e, line, file);
    case _ =>
      r := n;
  }

  // ---------------------------------------------------------------------
  // `first_pass`

  /** The tree after the first pass with file name `f`: every node visited
      gets `f`, except an assignment and a collection literal, whose own
      `first_pass` visits their parts but does not stamp themselves. */
  function Stamp(n: Node, f: string): (r: Node)
    ensures r.line == n.line
    decreases n
  {
    match n
    case Number(v, l, _) => Number(v, l, Some(f))
    case StringLit(s, l, _) => StringLit(s, l, Some(f))
    case VarName(x, l, _) => VarName(x, l, Some(f))
    case Op(a, b, o, l, _) => Op(Stamp(a, f), Stamp(b, f), o, l, Some(f))
    case GetAttr(obj, at, l, _) => GetAttr(StampOpt(obj, f), at, l, Some(f))
    case GetItem(obj, i, l, _) => GetItem(StampOpt(obj, f), Stamp(i, f), l, Some(f))
    case Call(obj, args, l, _) => Call(StampOpt(obj, f), StampAll(args, f), l, Some(f))
    case Collection(es, c, l, fl) => Collection(StampAll(es, f), c, l, fl)
    case Affectation(v, x, o, l, fl) => Affectation(Stamp(v, f), Stamp(x, f), o, l, fl)
    case Block(ss, l, _) => Block(StampAll(ss, f), l, Some(f))
    case If(c, b, e, l, _) => If(Stamp(c, f), StampOpt(b, f), StampOpt(e, f), l, Some(f))
    case While(c, b, e, l, _) => While(Stamp(c, f), StampOpt(b, f), StampOpt(e, f), l, Some(f))
    case For(t, it, b, e, l, _) => For(Stamp(t, f), Stamp(it, f), StampOpt(b, f), StampOpt(e, f), l, Some(f))
    case FlowControl(b, e, l, _) => FlowControl(StampOpt(b, f), StampOpt(e, f), l, Some(f))
  }

  function StampOpt(o: Option<Node>, f: string): (r: Option<Node>)
    ensures r.Some? <==> o.Some?
    decreases o
  {
    if o.Some? then Some(Stamp(o.value, f)) else None
  }

  function StampAll(ss: seq<Node>, f: string): (r: seq<Node>)
    ensures |r| == |ss| && forall k :: 0 <= k < |ss| ==> r[k] == Stamp(ss[k], f)
    decreases ss
  {
    if ss == [] then [] else StampAll(ss[..|ss| - 1], f) + [Stamp(ss[|ss| - 1], f)]
  }

  /** The names the first pass adds to `ctx.vars`: the target of every
      assignment that is a plain variable; attribute and item targets, and
      `for` targets, add nothing. */
  function AssignedNames(n: Node): set<string>
    decreases n
  {
    match n
    case Number(_, _, _) => {}
    case StringLit(_, _, _) => {}
    case VarName(_, _, _) => {}
    case Op(a, b, _, _, _) => AssignedNames(a) + AssignedNames(b)
    case GetAttr(obj, _, _, _) => AssignedNamesOpt(obj)
    case GetItem(obj, i, _, _) => AssignedNamesOpt(obj) + AssignedNames(i)
    case Call(obj, args, _, _) => AssignedNamesOpt(obj) + AssignedNamesAll(args)
    case Collection(es, _, _, _) => AssignedNamesAll(es)
    case Affectation(v, x, _, _, _) => (if v.VarName? then {v.name} else {}) + AssignedNames(v) + AssignedNames(x)
    case Block(ss, _, _) => AssignedNamesAll(ss)
    case If(c, b, e, _, _) => AssignedNames(c) + AssignedNamesOpt(b) + AssignedNamesOpt(e)
    case While(c, b, e, _, _) => AssignedNames(c) + AssignedNamesOpt(b) + AssignedNamesOpt(e)
    case For(t, it, b, e, _, _) => AssignedNames(it) + AssignedNames(t) + AssignedNamesOpt(b) + AssignedNamesOpt(e)
    case FlowControl(b, e, _, _) => AssignedNamesOpt(b) + AssignedNamesOpt(e)
  }

  function AssignedNamesOpt(o: Option<Node>): set<string>
    decreases o
  {
    if o.Some? then AssignedNames(o.value) else {}
  }

  function AssignedNamesAll(ss: seq<Node>): set<string>
    decreases ss
  {
    if ss == [] then {} else AssignedNamesAll(ss[..|ss| - 1]) + AssignedNames(ss[|ss| - 1])
  }

  /** `FirstPassCtx`: the file name and the variables assigned so far. */
  class FirstPassCtx {
    const filename: string
    var vars: set<string>

    constructor (filename: string)
      ensures this.filename == filename && vars == {}
    {
      this.filename := filename;
      vars := {};
    }
  }

  /** `first_pass(ctx)` on one node: its parts are visited, plain-variable
      assignment targets are added to `ctx.vars`, and the node comes back
      with the file name stamped as `Stamp` says. */
  method FirstPass(ctx: FirstPassCtx, n: Node) returns (r: Node)
    requires Complete(n)
    modifies ctx
    ensures ctx.vars == old(ctx.vars) + AssignedNames(n)
    ensures r == Stamp(n, ctx.filename)
    decreases n, 1
  {
    if n.Affectation? || n.Block? {
      r := FirstPassStatement(ctx, n);
    } else if n.If? || n.While? || n.For? || n.FlowControl? {
      r := FirstPassFlowControl(ctx, n);
    } else {
      r := FirstPassExpr(ctx, n);
    }
  }

  /** `first_pass` of the expression nodes: a constant or a variable is
      stamped; an operation, an access and a call visit their parts first;
      a collection literal visits its elements only. */
  method FirstPassExpr(ctx: FirstPassCtx, n: Node) returns (r: Node)
    requires Complete(n) && !(n.Affectation? || n.Block? || n.If? || n.While? || n.For? || n.FlowControl?)
    modifies ctx
    ensures ctx.vars == old(ctx.vars) + AssignedNames(n)
    ensures r == Stamp(n, ctx.filename)
    decreases n, 0
  {
    var f := ctx.filename;
    match n
    case Number(v, l, _) =>
      r := Number(v, l, Some(f));
    case StringLit(s, l, _) =>
      r := StringLit(s, l, Some(f));
    case VarName(x, l, _) =>
      r := VarName(x, l, Some(f));
    case Op(a, b, o, l, _) =>
      var a' := FirstPass(ctx, a);
      var b' := FirstPass(ctx, b);
      r := Op(a', b', o, l, Some(f));
    case GetAttr(obj, at, l, _) =>
      var o' := FirstPass(ctx, obj.value);
      r := GetAttr(Some(o'), at, l, Some(f));
    case GetItem(obj, i, l, _) =>
      var i' := FirstPass(ctx, i);
      var o' := FirstPass(ctx, obj.value);
      r := GetItem(Some(o'), i', l, Some(f));
    case Call(obj, args, l, _) =>
      var args' := FirstPassAll(ctx, args);
      var o' := FirstPass(ctx, obj.value);
      r := Call(Some(o'), args', l, Some(f));
    case Collection(es, c, l, fl) =>
      var es' := FirstPassAll(ctx, es);
      r := Collection(es', c, l, fl);
  }

  /** `first_pass` of an assignment and a block: an assignment records a
      plain-variable target and visits the value, then the target, without
      stamping itself; a block is stamped and visits its statements. */
  method FirstPassStatement(ctx: FirstPassCtx, n: Node) returns (r: Node)
    requires Complete(n) && (n.Affectation? || n.Block?)
    modifies ctx
    ensures ctx.vars == old(ctx.vars) + AssignedNames(n)
    ensures r == Stamp(n, ctx.filename)
    decreases n, 0
  {
    var f := ctx.filename;
    if n.Affectation? {
      if n.variable.VarName? {
        ctx.vars := ctx.vars + {n.variable.name};
      }
      var x' := FirstPass(ctx, n.value);
      var v' := FirstPass(ctx, n.variable);
      r := Affectation(v', x', n.inplaceOp, n.line, n.file);
    } else {
      var ss' := FirstPassAll(ctx, n.statements);
      r := Block(ss', n.line, Some(f));
    }
  }

  /** `first_pass` of `if`, `while`, `for` and a plain flow-control
      statement (an `else` clause): the condition (for a loop, the iterable
      and then the target), then the node is stamped and its block visited,
      then the else clause when there is one. */
  method FirstPassFlowControl(ctx: FirstPassCtx, n: Node) returns (r: Node)
    requires Complete(n) && (n.If? || n.While? || n.For? || n.FlowControl?)
    modifies ctx
    ensures ctx.vars == old(ctx.vars) + AssignedNames(n)
    ensures r == Stamp(n, ctx.filename)
    decreases n, 0
  {
    var f := ctx.filename;
    ghost var before := ctx.vars;
    if n.For? {
      var it' := FirstPass(ctx, n.iter);
      var t' := FirstPass(ctx, n.target);
      var b' := FirstPassOpt(ctx, n.block);
      var e' := FirstPassOpt(ctx, n.elseClause);
      UnionRegroups(before, AssignedNames(n.iter), AssignedNames(n.target),
                    AssignedNamesOpt(n.block), AssignedNamesOpt(n.elseClause));
      r := For(t', it', b', e', n.line, Some(f));
    } else if n.FlowControl? {
      var b' := FirstPassOpt(ctx, n.block);
      var e' := FirstPassOpt(ctx, n.elseClause);
      UnionRegroups(before, AssignedNamesOpt(n.block), AssignedNamesOpt(n.elseClause), {}, {});
      r := FlowControl(b', e', n.line, Some(f));
    } else {
      var c' := FirstPass(ctx, n.cond);
      var b' := FirstPassOpt(ctx, n.block);
      var e' := FirstPassOpt(ctx, n.elseClause);
      UnionRegroups(before, AssignedNames(n.cond), AssignedNamesOpt(n.block),
                    AssignedNamesOpt(n.elseClause), {});
      if n.If? {
        r := If(c', b', e', n.line, Some(f));
      } else {
        r := While(c', b', e', n.line, Some(f));
      }
    }
  }

  /** Names added one part at a time are the names of all the parts added at once. */
  lemma UnionRegroups(v: set<string>, a: set<string>, b: set<string>, c: set<string>, d: set<string>)
    ensures v + a + b + c + d == v + (a + b + c + d)
    ensures v + a + b + c == v + (a + b + c)
  {
  }

  /** An optional part: visited only when present, as `FlowControl.first_pass`
      does for the else clause. */
  method FirstPassOpt(ctx: FirstPassCtx, o: Option<Node>) returns (r: Option<Node>)
    requires o.Some? ==> Complete(o.value)
    modifies ctx
    ensures ctx.vars == old(ctx.vars) + AssignedNamesOpt(o)
    ensures r == StampOpt(o, ctx.filename)
    decreases o, 0
  {
    if o.Some? {
      var v := FirstPass(ctx, o.value);
      r := Some(v);
    } else {
      r := None;
    }
  }

  /** The statements of a block (or the arguments of a call, the elements
      of a literal), visited in order. */
  method FirstPassAll(ctx: FirstPassCtx, ss: seq<Node>) returns (rs: seq<Node>)
    requires CompleteAll(ss)
    modifies ctx
    ensures ctx.vars == old(ctx.vars) + AssignedNamesAll(ss)
    ensures rs == StampAll(ss, ctx.filename)
    decreases ss, 0
  {
    rs := [];
    for k := 0 to |ss|
      invariant ctx.vars == old(ctx.vars) + AssignedNamesAll(ss[..k])
      invariant rs == StampAll(ss[..k], ctx.filename)
    {
      var s := FirstPass(ctx, ss[k]);
      assert ss[..k + 1][..k] == ss[..k];
      rs := rs + [s];
    }
    assert ss[..|ss|] == ss;
  }

  /** `first_pass(tokens, filename)`: optimize, then run the pass with a
      fresh context. What comes back is the pass's own return value, which
      is `None` for an assignment or a collection literal at the top. */
  method FirstPassModule(n: Node, filename: string) returns (r: Option<Node>, vars: set<string>)
    requires Complete(n)
    ensures vars == AssignedNames(n)
    ensures r == if n.Affectation? || n.Collection? then None else Some(Stamp(n, filename))
  {
    CompleteFillsBlocks(n);
    var o := Optimize(n);
    var ctx := new FirstPassCtx(filename);
    var s := FirstPass(ctx, o);
    vars := ctx.vars;
    r := if n.Affectation? || n.Collection? then None else Some(s);
  }

  // ---------------------------------------------------------------------
  // What the pass promises

  /** The names of all variables mentioned anywhere in a tree. */
  function VarNames(n: Node): set<string>
    decreases n
  {
    match n
    case Number(_, _, _) => {}
    case StringLit(_, _, _) => {}
    case VarName(x, _, _) => {x}
    case Op(a, b, _, _, _) => VarNames(a) + VarNames(b)
    case GetAttr(obj, _, _, _) => VarNamesOpt(obj)
    case GetItem(obj, i, _, _) => VarNamesOpt(obj) + VarNames(i)
    case Call(obj, args, _, _) => VarNamesOpt(obj) + VarNamesAll(args)
    case Collection(es, _, _, _) => VarNamesAll(es)
    case Affectation(v, x, _, _, _) => VarNames(v) + VarNames(x)
    case Block(ss, _, _) => VarNamesAll(ss)
    case If(c, b, e, _, _) => VarNames(c) + VarNamesOpt(b) + VarNamesOpt(e)
    case While(c, b, e, _, _) => VarNames(c) + VarNamesOpt(b) + VarNamesOpt(e)
    case For(t, it, b, e, _, _) => VarNames(t) + VarNames(it) + VarNamesOpt(b) + VarNamesOpt(e)
    case FlowControl(b, e, _, _) => VarNamesOpt(b) + VarNamesOpt(e)
  }

  function VarNamesOpt(o: Option<Node>): set<string>
    decreases o
  {
    if o.Some? then VarNames(o.value) else {}
  }

  function VarNamesAll(ss: seq<Node>): set<string>
    decreases ss
  {
    if ss == [] then {} else VarNamesAll(ss[..|ss| - 1]) + VarNames(ss[|ss| - 1])
  }

  /** Only variables are recorded: every name the pass collects is the name
      of a `VarName` somewhere in the tree. */
  lemma {:induction false} AssignedAreVariables(n: Node)
    ensures AssignedNames(n) <= VarNames(n)
    decreases n
  {
    match n
    case Number(_, _, _) =>
    case StringLit(_, _, _) =>
    case VarName(_, _, _) =>
    case Op(a, b, _, _, _) => AssignedAreVariables(a); AssignedAreVariables(b);
    case GetAttr(obj, _, _, _) => AssignedAreVariablesOpt(obj);
    case GetItem(obj, i, _, _) => AssignedAreVariablesOpt(obj); AssignedAreVariables(i);
    case Call(obj, args, _, _) => AssignedAreVariablesOpt(obj); AssignedAreVariablesAll(args);
    case Collection(es, _, _, _) => AssignedAreVariablesAll(es);
    case Affectation(v, x, _, _, _) => AssignedAreVariables(v); AssignedAreVariables(x);
    case Block(ss, _, _) => AssignedAreVariablesAll(ss);
    case If(c, b, e, _, _) => AssignedAreVariables(c); AssignedAreVariablesOpt(b); AssignedAreVariablesOpt(e);
    case While(c, b, e, _, _) => AssignedAreVariables(c); AssignedAreVariablesOpt(b); AssignedAreVariablesOpt(e);
    case For(t, it, b, e, _, _) =>
      AssignedAreVariables(t); AssignedAreVariables(it); AssignedAreVariablesOpt(b); AssignedAreVariablesOpt(e);
    case FlowControl(b, e, _, _) => AssignedAreVariablesOpt(b); AssignedAreVariablesOpt(e);
  }

  lemma {:induction false} AssignedAreVariablesOpt(o: Option<Node>)
    ensures AssignedNamesOpt(o) <= VarNamesOpt(o)
    decreases o
  {
    if o.Some? {
      AssignedAreVariables(o.value);
    }
  }

  lemma {:induction false} AssignedAreVariablesAll(ss: seq<Node>)
    ensures AssignedNamesAll(ss) <= VarNamesAll(ss)
    decreases ss
  {
    if ss != [] {
      AssignedAreVariablesAll(ss[..|ss| - 1]);
      AssignedAreVariables(ss[|ss| - 1]);
    }
  }

  /** A plain-variable assignment records its target; a `for` loop over a
      variable does not. */
  lemma AssignmentRecordsForDoesNot(x: string, value: Node, iter: Node, body: Node, l: nat, fl: Option<string>)
    ensures x in AssignedNames(Affectation(VarName(x, l, fl), value, None, l, fl))
    ensures AssignedNames(For(VarName(x, l, fl), iter, Some(body), None, l, fl))
         == AssignedNames(iter) + AssignedNames(body)
  {
  }

  /** Stamping again with the same name changes nothing, so a second pass
      leaves the tree as the first left it. */
  lemma {:induction false} StampIdempotent(n: Node, f: string)
    ensures Stamp(Stamp(n, f), f) == Stamp(n, f)
    decreases n
  {
    match n
    case Number(_, _, _) =>
    case StringLit(_, _, _) =>
    case VarName(_, _, _) =>
    case Op(a, b, _, _, _) => StampIdempotent(a, f); StampIdempotent(b, f);
    case GetAttr(obj, _, _, _) => StampIdempotentOpt(obj, f);
    case GetItem(obj, i, _, _) => StampIdempotentOpt(obj, f); StampIdempotent(i, f);
    case Call(obj, args, _, _) => StampIdempotentOpt(obj, f); StampIdempotentAll(args, f);
    case Collection(es, _, _, _) => StampIdempotentAll(es, f);
    case Affectation(v, x, _, _, _) => StampIdempotent(v, f); StampIdempotent(x, f);
    case Block(ss, _, _) => StampIdempotentAll(ss, f);
    case If(c, b, e, _, _) => StampIdempotent(c, f); StampIdempotentOpt(b, f); StampIdempotentOpt(e, f);
    case While(c, b, e, _, _) => StampIdempotent(c, f); StampIdempotentOpt(b, f); StampIdempotentOpt(e, f);
    case For(t, it, b, e, _, _) =>
      StampIdempotent(t, f); StampIdempotent(it, f); StampIdempotentOpt(b, f); StampIdempotentOpt(e, f);
    case FlowControl(b, e, _, _) => StampIdempotentOpt(b, f); StampIdempotentOpt(e, f);
  }

  lemma {:induction false} StampIdempotentOpt(o: Option<Node>, f: string)
    ensures StampOpt(StampOpt(o, f), f) == StampOpt(o, f)
    decreases o
  {
    if o.Some? {
      StampIdempotent(o.value, f);
    }
  }

  lemma {:induction false} StampIdempotentAll(ss: seq<Node>, f: string)
    ensures StampAll(StampAll(ss, f), f) == StampAll(ss, f)
    decreases ss
  {
    forall k | 0 <= k < |ss| ensures Stamp(Stamp(ss[k], f), f) == Stamp(ss[k], f) {
      StampIdempotent(ss[k], f);
    }
  }

  /** Stamping does not change which variables are assigned, so a second
      pass collects the same names. */
  lemma {:induction false} AssignedNamesIgnoreStamp(n: Node, f: string)
    ensures AssignedNames(Stamp(n, f)) == AssignedNames(n)
    decreases n
  {
    match n
    case Number(_, _, _) =>
    case StringLit(_, _, _) =>
    case VarName(_, _, _) =>
    case Op(a, b, _, _, _) => AssignedNamesIgnoreStamp(a, f); AssignedNamesIgnoreStamp(b, f);
    case GetAttr(obj, _, _, _) => AssignedNamesIgnoreStampOpt(obj, f);
    case GetItem(obj, i, _, _) => AssignedNamesIgnoreStampOpt(obj, f); AssignedNamesIgnoreStamp(i, f);
    case Call(obj, args, _, _) => AssignedNamesIgnoreStampOpt(obj, f); AssignedNamesIgnoreStampAll(args, f);
    case Collection(es, _, _, _) => AssignedNamesIgnoreStampAll(es, f);
    case Affectation(v, x, _, _, _) => AssignedNamesIgnoreStamp(v, f); AssignedNamesIgnoreStamp(x, f);
    case Block(ss, _, _) => AssignedNamesIgnoreStampAll(ss, f);
    case If(c, b, e, _, _) =>
      AssignedNamesIgnoreStamp(c, f); AssignedNamesIgnoreStampOpt(b, f); AssignedNamesIgnoreStampOpt(e, f);
    case While(c, b, e, _, _) =>
      AssignedNamesIgnoreStamp(c, f); AssignedNamesIgnoreStampOpt(b, f); AssignedNamesIgnoreStampOpt(e, f);
    case For(t, it, b, e, _, _) =>
      AssignedNamesIgnoreStamp(t, f); AssignedNamesIgnoreStamp(it, f);
      AssignedNamesIgnoreStampOpt(b, f); AssignedNamesIgnoreStampOpt(e, f);
    case FlowControl(b, e, _, _) => AssignedNamesIgnoreStampOpt(b, f); AssignedNamesIgnoreStampOpt(e, f);
  }

  lemma {:induction false} AssignedNamesIgnoreStampOpt(o: Option<Node>, f: string)
    ensures AssignedNamesOpt(StampOpt(o, f)) == AssignedNamesOpt(o)
    decreases o
  {
    if o.Some? {
      AssignedNamesIgnoreStamp(o.value, f);
    }
  }

  lemma {:induction false} AssignedNamesIgnoreStampAll(ss: seq<Node>, f: string)
    ensures AssignedNamesAll(StampAll(ss, f)) == AssignedNamesAll(ss)
    decreases ss
  {
    if ss != [] {
      var init := ss[..|ss| - 1];
      AssignedNamesIgnoreStampAll(init, f);
      AssignedNamesIgnoreStamp(ss[|ss| - 1], f);
      var st := StampAll(ss, f);
      assert st[..|st| - 1] == StampAll(init, f);
    }
  }

  /** Stamping keeps the shape and the file names of what it does not
      visit: it keeps every line and, on an assignment or a collection
      literal, the node's own file name. */
  lemma StampKeepsUnvisitedFiles(n: Node, f: string)
    ensures Stamp(n, f).line == n.line
    ensures n.Affectation? || n.Collection? ==> Stamp(n, f).file == n.file
    ensures !(n.Affectation? || n.Collection?) ==> Stamp(n, f).file == Some(f)
  {
  }
}
