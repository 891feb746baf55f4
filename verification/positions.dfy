/** The cursor of the combinator engine (`Indexer`) and the token it cuts out of
    the source (`Token`). A position holds an absolute offset, a 0-based line
    and a 1-based column; advancing re-derives line and column from the
    characters spanned. */
module Positions {
  import opened Base

  /** An `Indexer` value: offset `i`, line (from 0), column (from 1). */
  datatype Position = Position(i: nat, line: nat, column: int)

  /** A matched slice of the source with its span. */
  datatype Token = Token(text: string, startLine: nat, startColumn: int,
                         endLine: nat, endColumn: int, offset: nat, endOffset: nat)

  /** What the constructor is handed as `code`: a plain string or a `CharStream`. */
  datatype SourceKind = PlainString | CharStreamSource

  /** The constructor's bare `raise` outside an exception handler. */
  datatype IndexerError = NoActiveException

  const NL: char := '\n'

  /** `Indexer(code, index, line, column)`: refuses every source that is not a `CharStream`. */
  function NewIndexer(kind: SourceKind, i: nat, line: nat, column: int): (r: Result<Position, IndexerError>)
    ensures r.Ok? <==> kind == CharStreamSource
    ensures r.Ok? ==> r.value.i == i && r.value.line == line && r.value.column == column
  {
    if kind != CharStreamSource then Err(NoActiveException) else Ok(Position(i, line, column))
  }

  /** A plain string, as the unit tests pass it, is refused by the constructor. */
  lemma PlainStringRefused()
    ensures NewIndexer(PlainString, 0, 0, 1).Err?
  {
  }

  /** The position every parse starts from: `Indexer(code)`. */
  const Start: Position := Position(0, 0, 1)

  /** Newlines in `code[from:to]` (`code[from:to].count('\n')`). */
  function Newlines(code: string, from: nat, to: nat): nat { CountOf(Slice(code, from, to), NL) }

  lemma NewlinesSplit(code: string, a: nat, b: nat, c: nat)
    requires a <= b <= c
    ensures Newlines(code, a, c) == Newlines(code, a, b) + Newlines(code, b, c)
  {
    assert Slice(code, a, c) == Slice(code, a, b) + Slice(code, b, c);
    CountOfAppend(Slice(code, a, b), Slice(code, b, c), NL);
  }

  /** Line of offset `i`: newlines strictly before it. */
  function LineAt(code: string, i: nat): nat { Newlines(code, 0, i) }

  /** Column of offset `i`: distance from the last newline strictly before it (1 at a line start). */
  function ColumnAt(code: string, i: nat): int { i - LastIndexOf(code, NL, i) }

  /** A position whose line and column are those its offset determines. */
  predicate Consistent(code: string, p: Position)
  {
    p.line == LineAt(code, p.i) && p.column == ColumnAt(code, p.i)
  }

  /** `Indexer._add` exactly as written: the newline search for the new column
      runs up to and INCLUDING the new offset (`rfind('\n', 0, new_i + 1)`). */
  function AddAsWritten(code: string, p: Position, k: nat): (q: Position)
    ensures q.i == p.i + k
  {
    var newI := p.i + k;
    var newLine := p.line + Newlines(code, p.i, newI);
    var newColumn := if newLine == p.line then p.column + k
                     else newI - LastIndexOf(code, NL, newI + 1);
    Position(newI, newLine, newColumn)
  }

  /** `Indexer + k` with the newline search ending just before the new offset. */
  function Add(code: string, p: Position, k: nat): (q: Position)
    ensures q.i == p.i + k
    ensures q.line == p.line + Newlines(code, p.i, q.i)
    ensures q.column == if Newlines(code, p.i, q.i) == 0 then p.column + k else q.i - LastIndexOf(code, NL, q.i)
  {
    var newI := p.i + k;
    var newLine := p.line + Newlines(code, p.i, newI);
    var newColumn := if newLine == p.line then p.column + k
                     else newI - LastIndexOf(code, NL, newI);
    Position(newI, newLine, newColumn)
  }

  /** Advancing keeps line and column in step with the offset. */
  lemma AddKeepsConsistent(code: string, p: Position, k: nat)
    requires Consistent(code, p)
    ensures Consistent(code, Add(code, p, k))
  {
    var q := Add(code, p, k);
    NewlinesSplit(code, 0, p.i, q.i);
    if Newlines(code, p.i, q.i) == 0 {
      LastIndexOfSkips(code, NL, p.i, q.i);
    }
  }

  /** Advancing by `a` then by `b` lands on the same position as advancing by
      `a + b`, whatever the starting line and column: a position is determined
      by where it started and how far it went, not by the steps taken. */
  lemma {:induction false} AddAdditive(code: string, p: Position, a: nat, b: nat)
    ensures Add(code, Add(code, p, a), b) == Add(code, p, a + b)
  {
    var q := Add(code, p, a);
    var r := Add(code, q, b);
    var d := Add(code, p, a + b);
    assert r.i == d.i;
    NewlinesSplit(code, p.i, q.i, r.i);
    if Newlines(code, q.i, r.i) == 0 && Newlines(code, p.i, q.i) > 0 {
      LastIndexOfSkips(code, NL, q.i, r.i);
    }
  }

  /** `Indexer.get_token(length)`: the token starting at `p` spanning `length` characters. */
  function MakeToken(code: string, p: Position, length: nat): (t: Token)
    ensures t.offset == p.i && t.endOffset == p.i + length
    ensures t.startLine == p.line && t.startColumn == p.column
    ensures p.i + length <= |code| ==> t.text == code[p.i..p.i + length]
  {
    var frag := Slice(code, p.i, p.i + length);
    var endLine := p.line + Newlines(code, p.i, p.i + length);
    var endColumn := if endLine == p.line then p.column + length
                     else length - LastIndexOf(frag, NL, |frag|);
    Token(frag, p.line, p.column, endLine, endColumn, p.i, p.i + length)
  }

  /** The last newline of `s[..b]`, when `s[a..b]` holds one, is found by searching `s[a..b]` alone. */
  lemma LastIndexOfInSlice(s: string, c: char, a: nat, b: nat)
    requires a <= b <= |s|
    requires CountOf(s[a..b], c) > 0
    ensures LastIndexOf(s, c, b) == a + LastIndexOf(s[a..b], c, b - a)
  {
    var part := s[a..b];
    assert Slice(part, 0, b - a) == part;
    LastIndexOfInRange(part, c, 0, b - a);
    LastIndexOfIsLast(part, c, b - a);
    var j := a + LastIndexOf(part, c, b - a);
    assert s[j] == part[j - a];
    assert forall m :: j < m < b ==> s[m] == part[m - a];
    LastIndexOfUnique(s, c, b, j);
  }

  /** When the span `code[from:to]` holds a newline, the last newline before
      `to` is the last newline of the span, shifted by `from`. */
  lemma LastNewlineOfSpan(code: string, from: nat, to: nat)
    requires from <= to
    requires Newlines(code, from, to) > 0
    ensures LastIndexOf(code, NL, to)
         == from + LastIndexOf(Slice(code, from, to), NL, |Slice(code, from, to)|)
  {
    var hi := Min(to, |code|);
    var frag := Slice(code, from, to);
    assert from < hi;
    assert frag == code[from..hi];
    LastIndexOfInSlice(code, NL, from, hi);
    assert LastIndexOf(code, NL, to) == LastIndexOf(code, NL, hi);
  }

  /** Over a span holding a newline, the token's end column (counted inside the
      span) is the cursor's column (counted in the whole source). */
  lemma MultiLineEndColumn(code: string, p: Position, k: nat)
    requires Newlines(code, p.i, p.i + k) > 0
    ensures MakeToken(code, p, k).endColumn == Add(code, p, k).column
  {
    var e := p.i + k;
    var frag := Slice(code, p.i, e);
    var t := MakeToken(code, p, k);
    var q := Add(code, p, k);
    assert q.i == e;
    assert t.endLine != p.line;
    LastNewlineOfSpan(code, p.i, e);
  }

  /** A token ends exactly where the cursor lands after consuming it: same
      offset, same line and same column. */
  lemma TokenEndMatchesAdd(code: string, p: Position, k: nat)
    ensures MakeToken(code, p, k).endOffset == Add(code, p, k).i
    ensures MakeToken(code, p, k).endLine == Add(code, p, k).line
    ensures MakeToken(code, p, k).endColumn == Add(code, p, k).column
  {
    if Newlines(code, p.i, p.i + k) > 0 {
      MultiLineEndColumn(code, p, k);
    }
  }

  /** Sources shaped like "a\nb\n": two one-character lines, each ended by a newline. */
  predicate TwoShortLines(code: string)
  {
    |code| == 4 && code[0] != NL && code[1] == NL && code[2] != NL && code[3] == NL
  }

  lemma SampleIsTwoShortLines()
    ensures TwoShortLines("a\nb\n")
  {
  }

  /** Newline counts and last-newline searches on such a source. */
  lemma TwoShortLinesFacts(code: string)
    requires TwoShortLines(code)
    ensures Newlines(code, 0, 2) == 1 && Newlines(code, 2, 3) == 0 && Newlines(code, 0, 3) == 1
    ensures LastIndexOf(code, NL, 3) == 1 && LastIndexOf(code, NL, 4) == 3
    ensures LastIndexOf(Slice(code, 0, 3), NL, 3) == 1
  {
    var s2 := Slice(code, 0, 2);
    assert CountOf(s2[..1], NL) == 0;
    var s3 := Slice(code, 0, 3);
    assert s3[..2] == s2;
  }

  /** On "a\nb\n" the source's rule is path-dependent: reaching offset 3 in one
      step gives column 0, in two steps (2 then 1) column 2; the token consumed
      in the one step ends at column 2. */
  lemma AsWrittenColumnCounterexample(code: string)
    requires TwoShortLines(code)
    ensures AddAsWritten(code, AddAsWritten(code, Start, 2), 1) == Position(3, 1, 2)
    ensures AddAsWritten(code, Start, 3) == Position(3, 1, 0)
    ensures MakeToken(code, Start, 3).endColumn == 2
  {
    TwoShortLinesFacts(code);
  }

  /** The corrected rule puts the cursor at column 2 whichever way it got to
      offset 3, in agreement with the token's end. */
  lemma CorrectedColumnExample(code: string)
    requires TwoShortLines(code)
    ensures Add(code, Start, 3) == Position(3, 1, 2)
    ensures Add(code, Add(code, Start, 2), 1) == Position(3, 1, 2)
    ensures MakeToken(code, Start, 3).endColumn == Add(code, Start, 3).column
  {
    TwoShortLinesFacts(code);
    AddAdditive(code, Start, 2, 1);
    TokenEndMatchesAdd(code, Start, 3);
  }

  /** The right-hand side of an `Indexer` comparison: another `Indexer` or a plain int. */
  datatype Offset = OfPosition(p: Position) | OfInt(n: int)

  function OffsetOf(o: Offset): int
  {
    match o
    case OfPosition(q) => q.i
    case OfInt(n) => n
  }

  /** `__gt__` and `__eq__` look at offsets only (`getattr(other, 'i', other)`). */
  predicate Gt(p: Position, o: Offset) { p.i > OffsetOf(o) }

  predicate Eq(p: Position, o: Offset) { p.i == OffsetOf(o) }

  /** The orderings `functools.total_ordering` derives from `__gt__` and `__eq__`. */
  predicate Le(p: Position, o: Offset) { !Gt(p, o) }

  predicate Lt(p: Position, o: Offset) { !Gt(p, o) && !Eq(p, o) }

  predicate Ge(p: Position, o: Offset) { Gt(p, o) || Eq(p, o) }

  /** Comparisons see only the offset: two positions with the same offset compare
      alike against anything, and every comparison is the integer one on offsets. */
  lemma ComparisonsByOffset(p: Position, q: Position, o: Offset)
    requires p.i == q.i
    ensures Gt(p, o) == Gt(q, o) && Eq(p, o) == Eq(q, o)
    ensures Lt(p, o) <==> p.i < OffsetOf(o)
    ensures Le(p, o) <==> p.i <= OffsetOf(o)
    ensures Ge(p, o) <==> p.i >= OffsetOf(o)
    ensures Eq(p, OfPosition(q))
  {
  }

  /** An `Indexer` updated in place by `+=` (`__iadd__`). */
  class Cursor {
    const code: string
    var i: nat
    var line: nat
    var column: int

    function At(): Position
      reads this
    {
      Position(i, line, column)
    }

    constructor (code: string, p: Position)
      ensures this.code == code && At() == p
    {
      this.code := code;
      i, line, column := p.i, p.line, p.column;
    }

    /** `self += k`: the fields take exactly the values `self + k` would have. */
    method AddInPlace(k: nat)
      modifies this
      ensures At() == Add(code, old(At()), k)
    {
      var q := Add(code, At(), k);
      i, line, column := q.i, q.line, q.column;
    }
  }
}
