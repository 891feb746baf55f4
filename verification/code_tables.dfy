/** The data the bytecode generator of `code_creator.py` builds, as values:
    the interned tables behind `Vue`, the byte encoding of the instruction
    list (`get_codebytes`), and the line table with its `next_line` /
    `go_line` bookkeeping. */
module CodeTables {
  import opened Base

  datatype CodeError = KeyError | ValueError | TypeError | AttributeError | OverflowError

  /** The five tables a `Vue` can name. */
  datatype Table = VarNames | Names | Constants | FreeVars | CellVars

  /** A value put in a table. */
  datatype Constant = IntConst(i: int) | StrConst(s: string)

  /** An entry of the instruction list: an int (an opcode or a plain
      argument), a `Vue`, a `Partial` (named by its number), or anything else. */
  datatype Entry = Int(n: int) | VueRef(table: Table, value: Constant) | PartialRef(id: nat) | Other

  type Tables = map<Table, seq<Constant>>

  predicate IsByte(n: int) { 0 <= n < 256 }

  // ---------------------------------------------------------------------
  // `Vue.get_value`

  predicate NoDuplicates(s: seq<Constant>)
  {
    forall i, j :: 0 <= i < j < |s| ==> s[i] != s[j]
  }

  /** `list.index`: the first position holding `v`. */
  function IndexOf(s: seq<Constant>, v: Constant): (i: nat)
    requires v in s
    ensures i < |s| && s[i] == v && forall j :: 0 <= j < i ==> s[j] != v
    decreases |s|
  {
    if s[0] == v then 0 else 1 + IndexOf(s[1..], v)
  }

  /** `get_value` on one table: `v` is appended when absent, and its
      position is returned. */
  function Intern(s: seq<Constant>, v: Constant): (r: (seq<Constant>, nat))
    ensures |s| <= |r.0| <= |s| + 1 && r.0[..|s|] == s
    ensures r.1 < |r.0| && r.0[r.1] == v
  {
    var t := if v in s then s else s + [v];
    (t, IndexOf(t, v))
  }

  /** A table never holds a value twice, and asking again gives the same
      position without growing the table. */
  lemma InternKeepsTablesDistinct(s: seq<Constant>, v: Constant)
    requires NoDuplicates(s)
    ensures NoDuplicates(Intern(s, v).0)
    ensures v in s <==> Intern(s, v).0 == s
    ensures Intern(Intern(s, v).0, v) == Intern(s, v)
  {
  }

  /** With no duplicates, the position returned is the only one holding `v`. */
  lemma InternPositionIsUnique(s: seq<Constant>, v: Constant, j: nat)
    requires NoDuplicates(s) && j < |Intern(s, v).0| && Intern(s, v).0[j] == v
    ensures j == Intern(s, v).1
  {
    InternKeepsTablesDistinct(s, v);
  }

  // ---------------------------------------------------------------------
  // `get_codebytes`

  /** Every table of `a` is still in `b`, holding what it held, perhaps more. */
  predicate Extends(a: Tables, b: Tables)
  {
    forall t :: t in a ==> t in b && |a[t]| <= |b[t]| && b[t][..|a[t]|] == a[t]
  }

  lemma ExtendsTransitive(a: Tables, b: Tables, c: Tables)
    requires Extends(a, b) && Extends(b, c)
    ensures Extends(a, c)
  {
    forall t | t in a ensures t in c && |a[t]| <= |c[t]| && c[t][..|a[t]|] == a[t] {
      assert c[t][..|b[t]|][..|a[t]|] == c[t][..|a[t]|];
    }
  }

  /** What `get_codebytes` produced: the bytes and the tables after, or the
      exception and the tables as far as it got. */
  datatype Encoding = Encoded(bytes: seq<int>, tables: Tables) | EncodeFailed(err: CodeError, tables: Tables)

  /** One entry: an int as itself, a `Vue` as its table position (appending
      the value first when absent), a `Partial` as its value; a value that
      is not a byte is a `ValueError`, an unset `Partial` a `TypeError`, an
      entry of any other kind a `ValueError`. */
  function EncodeEntry(e: Entry, ps: seq<Option<int>>, ts: Tables): (r: (Result<int, CodeError>, Tables))
    ensures r.0.Ok? ==> IsByte(r.0.value)
    ensures Extends(ts, r.1)
  {
    match e
    case Int(n) => (if IsByte(n) then Ok(n) else Err(ValueError), ts)
    case VueRef(t, v) =>
      if t !in ts then (Err(AttributeError), ts)
      else
        var (s, i) := Intern(ts[t], v);
        (if IsByte(i) then Ok(i) else Err(ValueError), ts[t := s])
    case PartialRef(id) =>
      if id < |ps| && ps[id].Some? then (if IsByte(ps[id].value) then Ok(ps[id].value) else Err(ValueError), ts)
      else (Err(TypeError), ts)
    case Other => (Err(ValueError), ts)
  }

  /** `get_codebytes`: the entries encoded from the left, the tables
      threaded through; the first failing entry stops it. */
  function Encode(es: seq<Entry>, ps: seq<Option<int>>, ts: Tables): (r: Encoding)
    ensures Extends(ts, r.tables)
    ensures r.Encoded? ==> |r.bytes| == |es|
    decreases |es|
  {
    if es == [] then Encoded([], ts)
    else
      var (b, ts') := EncodeEntry(es[0], ps, ts);
      if b.Err? then EncodeFailed(b.error, ts')
      else
        var r := Encode(es[1..], ps, ts');
        ExtendsTransitive(ts, ts', r.tables);
        if r.Encoded? then Encoded([b.value] + r.bytes, r.tables) else r
  }

  /** An encoding of the entries after some already turned into `acc`. */
  function Resume(acc: seq<int>, r: Encoding): Encoding
  {
    if r.Encoded? then Encoded(acc + r.bytes, r.tables) else r
  }

  /** One entry further: its byte moves into the bytes already produced,
      or its failure is the failure of the whole. */
  lemma ResumeStep(acc: seq<int>, es: seq<Entry>, ps: seq<Option<int>>, ts: Tables)
    requires es != []
    ensures var (b, ts') := EncodeEntry(es[0], ps, ts);
            Resume(acc, Encode(es, ps, ts))
            == if b.Ok? then Resume(acc + [b.value], Encode(es[1..], ps, ts')) else EncodeFailed(b.error, ts')
  {
    var (b, ts') := EncodeEntry(es[0], ps, ts);
    if b.Ok? {
      var r := Encode(es[1..], ps, ts');
      if r.Encoded? {
        assert acc + ([b.value] + r.bytes) == (acc + [b.value]) + r.bytes;
      }
    }
  }

  /** What entry `j` became: a byte; an int entry itself, a `Partial` its
      value, and a `Vue` the position of its value in the tables as they
      end up. */
  predicate EncodedAs(e: Entry, b: int, ps: seq<Option<int>>, final: Tables)
  {
    IsByte(b)
    && (e.Int? ==> b == e.n)
    && (e.PartialRef? ==> e.id < |ps| && ps[e.id] == Some(b))
    && (e.VueRef? ==> e.table in final && b < |final[e.table]| && final[e.table][b] == e.value)
    && !e.Other?
  }

  lemma {:induction false} EncodeAt(es: seq<Entry>, ps: seq<Option<int>>, ts: Tables, j: nat)
    requires j < |es| && Encode(es, ps, ts).Encoded?
    ensures EncodedAs(es[j], Encode(es, ps, ts).bytes[j], ps, Encode(es, ps, ts).tables)
    decreases j
  {
    var r := Encode(es, ps, ts);
    var (b, ts') := EncodeEntry(es[0], ps, ts);
    var r' := Encode(es[1..], ps, ts');
    assert r.bytes == [b.value] + r'.bytes && r.tables == r'.tables;
    if j > 0 {
      EncodeAt(es[1..], ps, ts', j - 1);
      assert es[1..][j - 1] == es[j];
    } else if es[0].VueRef? {
      var t := es[0].table;
      assert r.tables[t][..|ts'[t]|] == ts'[t];
      assert r.tables[t][b.value] == r.tables[t][..|ts'[t]|][b.value];
    }
  }

  /** The bytes say what was asked, entry by entry. */
  lemma EncodeMeansEntries(es: seq<Entry>, ps: seq<Option<int>>, ts: Tables)
    ensures var r := Encode(es, ps, ts);
            r.Encoded? ==> forall j :: 0 <= j < |es| ==> EncodedAs(es[j], r.bytes[j], ps, r.tables)
  {
    var r := Encode(es, ps, ts);
    if r.Encoded? {
      forall j | 0 <= j < |es| ensures EncodedAs(es[j], r.bytes[j], ps, r.tables) {
        EncodeAt(es, ps, ts, j);
      }
    }
  }

  /** An entry that is neither an int, a `Vue` nor a `Partial` stops
      `get_codebytes` with a `ValueError`. */
  lemma EncodeRefusesOther(es: seq<Entry>, ps: seq<Option<int>>, ts: Tables)
    requires es != [] && es[0] == Other
    ensures Encode(es, ps, ts) == EncodeFailed(ValueError, ts)
  {
  }

  /** `LOAD_GLOBAL print` on fresh tables: the name is interned at position
      0, so the code is the opcode followed by 0. */
  lemma LoadGlobalPrint(op: int, empty: Tables)
    requires IsByte(op) && Names in empty && empty[Names] == []
    ensures Encode([Int(op), VueRef(Names, StrConst("print"))], [], empty)
         == Encoded([op, 0], empty[Names := [StrConst("print")]])
  {
    var es := [Int(op), VueRef(Names, StrConst("print"))];
    var after := empty[Names := [StrConst("print")]];
    assert Intern([], StrConst("print")) == ([StrConst("print")], 0);
    assert EncodeEntry(es[1], [], empty) == (Ok(0), after);
    assert es[1..][1..] == [];
    assert Encode(es[1..], [], empty) == Encoded([0], after);
    assert EncodeEntry(es[0], [], empty) == (Ok(op), empty);
  }

  // ---------------------------------------------------------------------
  // The line table

  /** The line bookkeeping of the generator: the table, the instruction
      list length at the last mark, the line delta to record with the next
      span, and the current line. */
  datatype LineState = LineState(lnotab: seq<int>, lastIns: int, lastDelta: int, lastLine: int)

  /** The state after a line operation, with the exception it raised, if any. */
  datatype LineStep = LineStep(err: Option<CodeError>, st: LineState)

  const FreshLines := LineState([], 0, 0, 0)

  /** The line bytes `_add_to_lnotab` writes after the span byte: one
      `ff 00` pair per 255 lines beyond 255, then the rest. */
  function LinesBytes(l: int): (r: seq<int>)
    requires l >= 0
    decreases l
  {
    if l > 255 then [255, 0] + LinesBytes(l - 255) else [l]
  }

  /** `_add_to_lnotab(ins, l)`: a span that is not a byte is an
      `OverflowError` before anything is written; a negative line delta is
      one after the span byte was written. */
  function LnotabAppend(t: seq<int>, ins: int, l: int): (r: (Option<CodeError>, seq<int>))
    ensures r.0.None? <==> IsByte(ins) && l >= 0
    ensures r.0.Some? ==> r.0 == Some(OverflowError)
    ensures !IsByte(ins) ==> r.1 == t
    ensures IsByte(ins) ==> |r.1| > |t| && r.1[..|t|] == t && r.1[|t|] == ins
  {
    if !IsByte(ins) then (Some(OverflowError), t)
    else if l < 0 then (Some(OverflowError), t + [ins])
    else (None, t + [ins] + LinesBytes(l))
  }

  /** Whether `t` splits into pairs. */
  predicate EvenLen(t: seq<int>)
    decreases |t|
  {
    if |t| < 2 then t == [] else EvenLen(t[2..])
  }

  /** The table read as pairs: the sum of the first halves (instruction
      entries covered) and of the second halves (lines advanced). */
  function PairSums(t: seq<int>): (int, int)
    requires EvenLen(t)
    decreases |t|
  {
    if t == [] then (0, 0)
    else var rest := PairSums(t[2..]); (t[0] + rest.0, t[1] + rest.1)
  }

  lemma {:induction false} PairSumsAppend(a: seq<int>, b: seq<int>)
    requires EvenLen(a) && EvenLen(b)
    ensures EvenLen(a + b)
    ensures PairSums(a + b) == (PairSums(a).0 + PairSums(b).0, PairSums(a).1 + PairSums(b).1)
    decreases |a|
  {
    if a != [] {
      assert |a| >= 2 && (a + b)[0] == a[0] && (a + b)[1] == a[1];
      assert (a + b)[2..] == a[2..] + b;
      PairSumsAppend(a[2..], b);
      assert PairSums(a + b) == (a[0] + PairSums(a[2..] + b).0, a[1] + PairSums(a[2..] + b).1);
    } else {
      assert a + b == b;
    }
  }

  predicate AllBytes(t: seq<int>) { forall k :: 0 <= k < |t| ==> IsByte(t[k]) }

  /** The bytes one call writes read back as one span of `ins` entries and
      `l` lines: the `ff 00` pairs carry 255 lines each and no entries. */
  lemma {:induction false} LnotabEntryDecodes(ins: int, l: int)
    requires IsByte(ins) && l >= 0
    ensures EvenLen([ins] + LinesBytes(l)) && AllBytes([ins] + LinesBytes(l))
    ensures PairSums([ins] + LinesBytes(l)) == (ins, l)
    decreases l
  {
    if l > 255 {
      LnotabEntryDecodes(0, l - 255);
      var rest := [0] + LinesBytes(l - 255);
      assert [ins] + LinesBytes(l) == [ins, 255] + rest;
      assert ([ins, 255] + rest)[2..] == rest;
    } else {
      assert ([ins] + [l])[2..] == [];
    }
  }

  /** The table accounts for the generator's position: its spans add up to
      the entries marked, and its lines plus the delta still to record add
      up to the current line. */
  predicate LineAccount(s: LineState)
  {
    EvenLen(s.lnotab) && AllBytes(s.lnotab)
    && PairSums(s.lnotab) == (s.lastIns, s.lastLine - s.lastDelta)
  }

  /** `next_line(nlines)` as written: with no instruction since the last
      mark it returns at once, so `nlines` is not counted; otherwise the span
      is written with the delta of the previous call and `nlines` becomes
      the delta to record next. */
  function NextLineAsWritten(s: LineState, size: int, nlines: int): (r: LineStep)
    ensures r.err.Some? <==> size < s.lastIns || (size > s.lastIns && (!IsByte(size - s.lastIns) || s.lastDelta < 0))
    ensures r.err.None? ==> r.st.lastIns == size && r.st.lastLine == s.lastLine + (if size == s.lastIns then 0 else nlines)
    ensures r.err.Some? ==> r.st.lastLine == s.lastLine && r.st.lastIns == s.lastIns
    ensures |s.lnotab| <= |r.st.lnotab| && r.st.lnotab[..|s.lnotab|] == s.lnotab
  {
    var d := size - s.lastIns;
    if d == 0 then LineStep(None, s)
    else if d < 0 then LineStep(Some(ValueError), s)
    else
      var (e, t) := LnotabAppend(s.lnotab, d, s.lastDelta);
      if e.Some? then LineStep(e, s.(lnotab := t))
      else LineStep(None, LineState(t, size, nlines, s.lastLine + nlines))
  }

  /** `go_line(lineno)` as written: `next_line` by the difference, then the
      current line is set. */
  function GoLineAsWritten(s: LineState, size: int, lineno: int): (r: LineStep)
    ensures r.err.Some? <==> size < s.lastIns || (size > s.lastIns && (!IsByte(size - s.lastIns) || s.lastDelta < 0))
    ensures r.err.None? ==> r.st.lastIns == size && r.st.lastLine == lineno
    ensures r.err.Some? ==> r.st.lastLine == s.lastLine && r.st.lastIns == s.lastIns
    ensures |s.lnotab| <= |r.st.lnotab| && r.st.lnotab[..|s.lnotab|] == s.lnotab
  {
    var r := NextLineAsWritten(s, size, lineno - s.lastLine);
    if r.err.Some? then r else LineStep(None, r.st.(lastLine := lineno))
  }

  /** `next_line(nlines)` with no instruction since the last mark adds
      `nlines` to the delta still to record, instead of dropping it; the
      rest is as written. */
  function NextLine(s: LineState, size: int, nlines: int): (r: LineStep)
    ensures r.err.Some? <==> size < s.lastIns || (size > s.lastIns && (!IsByte(size - s.lastIns) || s.lastDelta < 0))
    ensures r.err.None? ==> r.st.lastIns == size && r.st.lastLine == s.lastLine + nlines
    ensures r.err.Some? ==> r.st.lastLine == s.lastLine && r.st.lastIns == s.lastIns
    ensures |s.lnotab| <= |r.st.lnotab| && r.st.lnotab[..|s.lnotab|] == s.lnotab
  {
    var d := size - s.lastIns;
    if d == 0 then LineStep(None, s.(lastDelta := s.lastDelta + nlines, lastLine := s.lastLine + nlines))
    else if d < 0 then LineStep(Some(ValueError), s)
    else
      var (e, t) := LnotabAppend(s.lnotab, d, s.lastDelta);
      if e.Some? then LineStep(e, s.(lnotab := t))
      else LineStep(None, LineState(t, size, nlines, s.lastLine + nlines))
  }

  /** `go_line(lineno)` over the corrected `next_line`. */
  function GoLine(s: LineState, size: int, lineno: int): (r: LineStep)
    ensures r.err.Some? <==> size < s.lastIns || (size > s.lastIns && (!IsByte(size - s.lastIns) || s.lastDelta < 0))
    ensures r.err.None? ==> r.st.lastIns == size && r.st.lastLine == lineno
    ensures r.err.Some? ==> r.st.lastLine == s.lastLine && r.st.lastIns == s.lastIns
    ensures |s.lnotab| <= |r.st.lnotab| && r.st.lnotab[..|s.lnotab|] == s.lnotab
  {
    var r := NextLine(s, size, lineno - s.lastLine);
    if r.err.Some? then r else LineStep(None, r.st.(lastLine := lineno))
  }

  /** Once `build`'s closing `next_line(0)` has gone through, making it
      again with no instruction added changes nothing. */
  lemma NextLineZeroSettles(s: LineState, size: int)
    requires NextLine(s, size, 0).err.None?
    ensures NextLine(NextLine(s, size, 0).st, size, 0) == NextLine(s, size, 0)
  {
  }

  /** `next_line` moves the current line by `nlines` and keeps the table's
      account; it fails only when the span or the recorded delta does not
      fit a byte (or the list shrank), and then the current line is kept. */
  lemma NextLineKeepsAccount(s: LineState, size: int, nlines: int)
    requires LineAccount(s)
    ensures var r := NextLine(s, size, nlines);
            r.err.None? ==> LineAccount(r.st) && r.st.lastLine == s.lastLine + nlines
                            && (size > s.lastIns ==> r.st.lastIns == size)
    ensures var r := NextLine(s, size, nlines);
            r.err.Some? <==> size < s.lastIns || (size > s.lastIns && (!IsByte(size - s.lastIns) || s.lastDelta < 0))
    ensures NextLine(s, size, nlines).err.Some? ==> NextLine(s, size, nlines).st.lastLine == s.lastLine
  {
    var d := size - s.lastIns;
    if d > 0 && IsByte(d) && s.lastDelta >= 0 {
      LnotabEntryDecodes(d, s.lastDelta);
      PairSumsAppend(s.lnotab, [d] + LinesBytes(s.lastDelta));
      assert s.lnotab + [d] + LinesBytes(s.lastDelta) == s.lnotab + ([d] + LinesBytes(s.lastDelta));
    }
  }

  /** `go_line` lands on the line asked for and keeps the table's account. */
  lemma GoLineKeepsAccount(s: LineState, size: int, lineno: int)
    requires LineAccount(s)
    ensures GoLine(s, size, lineno).err.None? ==>
              LineAccount(GoLine(s, size, lineno).st) && GoLine(s, size, lineno).st.lastLine == lineno
  {
    NextLineKeepsAccount(s, size, lineno - s.lastLine);
  }

  /** As written, `next_line(2)` on a fresh generator, as the module's own
      demonstration starts, changes nothing: the two lines are lost. The
      corrected one moves to line 2. */
  lemma NextLineDropsLinesAsWritten()
    ensures NextLineAsWritten(FreshLines, 0, 2) == LineStep(None, FreshLines)
    ensures NextLine(FreshLines, 0, 2) == LineStep(None, LineState([], 0, 2, 2))
  {
  }

  /** As written, one instruction, `go_line(3)`, then `go_line(7)` with
      nothing in between leaves the current line at 7 while the table and
      the delta to record only account for 3; the corrected one accounts
      for 7. */
  lemma GoLineLosesAccountAsWritten()
    ensures var s1 := GoLineAsWritten(FreshLines, 2, 3).st;
            LineAccount(s1) && !LineAccount(GoLineAsWritten(s1, 2, 7).st)
    ensures var s1 := GoLine(FreshLines, 2, 3).st;
            LineAccount(s1) && LineAccount(GoLine(s1, 2, 7).st) && GoLine(s1, 2, 7).st.lastLine == 7
  {
    var s1 := LineState([2, 0], 2, 3, 3);
    FirstGoLine();
    assert NextLineAsWritten(s1, 2, 4) == LineStep(None, s1);
    assert GoLineAsWritten(s1, 2, 7).st == LineState([2, 0], 2, 3, 7);
    assert NextLine(s1, 2, 4) == LineStep(None, LineState([2, 0], 2, 7, 7));
    assert GoLine(s1, 2, 7).st == LineState([2, 0], 2, 7, 7);
  }

  /** One instruction, then `go_line(3)` from a fresh table: as written and
      corrected alike, the table gets the pair 02 00. */
  lemma FirstGoLine()
    ensures GoLineAsWritten(FreshLines, 2, 3) == LineStep(None, LineState([2, 0], 2, 3, 3))
    ensures GoLine(FreshLines, 2, 3) == LineStep(None, LineState([2, 0], 2, 3, 3))
    ensures EvenLen([2, 0]) && AllBytes([2, 0]) && PairSums([2, 0]) == (2, 0)
  {
    assert LinesBytes(0) == [0];
    assert [] + [2] + [0] == [2, 0];
    assert LnotabAppend([], 2, 0) == (None, [2, 0]);
    var s1 := LineState([2, 0], 2, 3, 3);
    var t: seq<int> := [2, 0];
    assert t[2..] == [] && EvenLen(t[2..]) && PairSums(t[2..]) == (0, 0);
    assert EvenLen(t);
    assert PairSums(t) == (t[0] + 0, t[1] + 0);
    assert AllBytes(t) by {
      assert IsByte(t[0]) && IsByte(t[1]);
    }
    assert NextLineAsWritten(FreshLines, 2, 3) == LineStep(None, s1);
    assert NextLine(FreshLines, 2, 3) == LineStep(None, s1);
  }
}
