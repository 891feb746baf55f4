/** The CrocoLang syntax tree: the node kinds of `croco/parser/expr.py`,
    `stmt.py`, `blocks.py` and `collections.py`, the `from_toks` factories
    the grammar applies to what it matched, and the checks that refuse
    assignment to what cannot be assigned. */
module CrocoAst {
  import opened Base
  import opened Positions

  /** The container a collection literal builds. */
  datatype CType = TupleType | ListType | SetType

  /** Why a construct is refused as a `SyntaxError`. */
  datatype SyntaxReason =
    | AssignToConstant | AssignToOperation | AssignToCall
    | AffectConstant | AffectCall | AffectNonVariable | InvalidAffectation

  datatype CrocoError =
    | SyntaxError(reason: SyntaxReason)
    | ValueError
    | IndexError
    | AttributeError
    | NotImplementedError

  /** A node of the tree. Every node has the line it starts on and the file
      name the first pass stamps on it. `obj` of a second-level access and
      `block` of a flow-control statement are `None` until the grammar fills
      them in. */
  datatype Node =
    | Number(n: int, line: nat, file: Option<string>)
    | StringLit(text: string, line: nat, file: Option<string>)
    | VarName(name: string, line: nat, file: Option<string>)
    | Op(left: Node, right: Node, op: string, line: nat, file: Option<string>)
    | GetAttr(obj: Option<Node>, attr: string, line: nat, file: Option<string>)
    | GetItem(obj: Option<Node>, index: Node, line: nat, file: Option<string>)
    | Call(obj: Option<Node>, args: seq<Node>, line: nat, file: Option<string>)
    | Collection(exprs: seq<Node>, ctype: CType, line: nat, file: Option<string>)
    | Affectation(variable: Node, value: Node, inplaceOp: Option<string>, line: nat, file: Option<string>)
    | Block(statements: seq<Node>, line: nat, file: Option<string>)
    | If(cond: Node, block: Option<Node>, elseClause: Option<Node>, line: nat, file: Option<string>)
    | While(cond: Node, block: Option<Node>, elseClause: Option<Node>, line: nat, file: Option<string>)
    | For(target: Node, iter: Node, block: Option<Node>, elseClause: Option<Node>, line: nat, file: Option<string>)
      /** A plain `FlowControl`: what an `else` clause is parsed into. */
    | FlowControl(block: Option<Node>, elseClause: Option<Node>, line: nat, file: Option<string>)

  /** `Constant` and its subclasses. */
  predicate IsConstant(n: Node) { n.Number? || n.StringLit? }

  /** `SecondLevel`: attribute access, subscription and call. */
  predicate IsSecondLevel(n: Node) { n.GetAttr? || n.GetItem? || n.Call? }

  /** What the grammar hands a factory: a node, a token, or a list of those. */
  datatype Item = INode(node: Node) | IToken(tok: Token) | IList(items: seq<Item>)

  /** The texts of some tokens. */
  function Texts(toks: seq<Token>): (r: seq<string>)
    ensures |r| == |toks| && forall k :: 0 <= k < |toks| ==> r[k] == toks[k].text
  {
    seq(|toks|, k requires 0 <= k < |toks| => toks[k].text)
  }

  /** `"".join(tokens)`. */
  function Joined(toks: seq<Token>): string
  {
    Concat(Texts(toks))
  }

  /** Tokens that lie back to back in `code`, each holding the text it spans. */
  predicate Adjacent(code: string, toks: seq<Token>)
  {
    (forall k :: 0 <= k < |toks| ==>
       toks[k].offset <= toks[k].endOffset <= |code| && toks[k].text == code[toks[k].offset..toks[k].endOffset])
    && (forall k :: 0 <= k < |toks| - 1 ==> toks[k].endOffset == toks[k + 1].offset)
  }

  /** Joining tokens that lie back to back gives the source text they span,
      so the factories below see exactly what was written. */
  lemma {:induction false} JoinedIsSourceSpan(code: string, toks: seq<Token>)
    requires toks != [] && Adjacent(code, toks)
    ensures toks[0].offset <= toks[|toks| - 1].endOffset
    ensures Joined(toks) == code[toks[0].offset..toks[|toks| - 1].endOffset]
    decreases |toks|
  {
    if |toks| == 1 {
      assert Texts(toks) == [toks[0].text];
      assert Concat(Texts(toks)) == toks[0].text + Concat([]);
    } else {
      var rest := toks[1..];
      assert Adjacent(code, rest) by {
        forall k | 0 <= k < |rest| - 1 ensures rest[k].endOffset == rest[k + 1].offset {
          assert rest[k] == toks[k + 1] && rest[k + 1] == toks[k + 2];
        }
      }
      JoinedIsSourceSpan(code, rest);
      assert Texts(toks)[1..] == Texts(rest);
      assert Joined(toks) == toks[0].text + Joined(rest);
      assert rest[|rest| - 1] == toks[|toks| - 1];
      var a, b, c := toks[0].offset, toks[0].endOffset, toks[|toks| - 1].endOffset;
      assert code[a..c] == code[a..b] + code[b..c];
    }
  }

  // ---------------------------------------------------------------------
  // Decimal literals

  predicate IsDigit(c: char) { '0' <= c <= '9' }

  /** What `int` accepts here: one or more ASCII digits. */
  predicate IsDecimal(s: string)
  {
    s != [] && forall k :: 0 <= k < |s| ==> IsDigit(s[k])
  }

  /** The value of a string of digits. */
  function DigitsValue(s: string): nat
    requires forall k :: 0 <= k < |s| ==> IsDigit(s[k])
    decreases |s|
  {
    if s == [] then 0
    else
      var d := s[|s| - 1];
      assert IsDigit(d);
      10 * DigitsValue(s[..|s| - 1]) + (d as int - '0' as int)
  }

  /** The decimal spelling of `n`, without leading zeros. */
  function Decimal(n: nat): (s: string)
    ensures IsDecimal(s)
    decreases n
  {
    if n < 10 then [('0' as int + n) as char]
    else Decimal(n / 10) + [('0' as int + n % 10) as char]
  }

  /** Reading back the decimal spelling of a number gives the number. */
  lemma {:induction false} DecimalRoundTrip(n: nat)
    ensures DigitsValue(Decimal(n)) == n
    decreases n
  {
    if n >= 10 {
      DecimalRoundTrip(n / 10);
      var s := Decimal(n);
      assert s[..|s| - 1] == Decimal(n / 10);
    }
  }

  // ---------------------------------------------------------------------
  // Expression factories (`croco/parser/expr.py`)

  /** `Number.from_toks`: the `int` of the joined digit tokens, on the line of
      the first one; what `int` refuses (nothing at all included) is a
      `ValueError`. */
  function NumberFromToks(toks: seq<Token>): (r: Result<Node, CrocoError>)
    ensures r.Err? <==> !IsDecimal(Joined(toks))
    ensures r.Err? ==> r.error == ValueError
    ensures r.Ok? ==> toks != [] && r.value.Number? && r.value.line == toks[0].startLine
                      && r.value.file.None? && r.value.n >= 0
  {
    var digits := Joined(toks);
    if !IsDecimal(digits) then Err(ValueError)
    else Ok(Number(DigitsValue(digits), toks[0].startLine, None))
  }

  /** `n` zeros. */
  function Zeros(n: nat): (s: string)
    ensures |s| == n && forall k :: 0 <= k < n ==> s[k] == '0'
  {
    seq(n, k => '0')
  }

  /** Leading zeros do not change the value of a string of digits. */
  lemma {:induction false} LeadingZerosIgnored(z: nat, s: string)
    requires forall k :: 0 <= k < |s| ==> IsDigit(s[k])
    ensures forall k :: 0 <= k < |Zeros(z) + s| ==> IsDigit((Zeros(z) + s)[k])
    ensures DigitsValue(Zeros(z) + s) == DigitsValue(s)
    decreases |s|
  {
    var t := Zeros(z) + s;
    if s == [] {
      ZerosAreWorthNothing(z);
      assert t == Zeros(z);
    } else {
      var init := s[..|s| - 1];
      LeadingZerosIgnored(z, init);
      assert t[..|t| - 1] == Zeros(z) + init;
      assert t[|t| - 1] == s[|s| - 1];
    }
  }

  lemma {:induction false} ZerosAreWorthNothing(z: nat)
    ensures DigitsValue(Zeros(z)) == 0
    decreases z
  {
    if z > 0 {
      ZerosAreWorthNothing(z - 1);
      assert Zeros(z)[..z - 1] == Zeros(z - 1);
    }
  }

  /** Digit tokens whose joined text is `n` spelt in decimal after any
      number of zeros (`["0", "7"]`, `["007"]`, `["1", "23"]`) are read as
      `n`, on the first token's line. */
  lemma NumberReadsItsDigits(toks: seq<Token>, z: nat, n: nat)
    requires Joined(toks) == Zeros(z) + Decimal(n)
    ensures toks != [] && NumberFromToks(toks) == Ok(Number(n, toks[0].startLine, None))
  {
    LeadingZerosIgnored(z, Decimal(n));
    DecimalRoundTrip(n);
  }

  /** `String.from_toks`: the joined body tokens, on the line of the opening quote. */
  function StringFromToks(quote: Token, body: seq<Token>): (r: Node)
    ensures r.StringLit? && r.line == quote.startLine && r.file.None?
    ensures |r.text| == |Joined(body)|
  {
    StringLit(Joined(body), quote.startLine, None)
  }

  /** `VarName.from_toks`: the joined tokens, on the line of the first one;
      no token at all is an `IndexError`. */
  function VarNameFromToks(toks: seq<Token>): (r: Result<Node, CrocoError>)
    ensures r.Err? <==> toks == []
    ensures r.Err? ==> r.error == IndexError
    ensures r.Ok? ==> r.value.VarName? && r.value.line == toks[0].startLine && r.value.file.None?
    ensures r.Ok? ==> r.value.name == Joined(toks)
  {
    if toks == [] then Err(IndexError)
    else Ok(VarName(Joined(toks), toks[0].startLine, None))
  }

  /** The literal factories see the source: over adjacent tokens, the string
      body and the variable name are the source text spanned. */
  lemma FactoriesSeeSource(code: string, quote: Token, toks: seq<Token>)
    requires toks != [] && Adjacent(code, toks)
    requires toks[0].offset <= toks[|toks| - 1].endOffset
    ensures StringFromToks(quote, toks).text == code[toks[0].offset..toks[|toks| - 1].endOffset]
    ensures VarNameFromToks(toks).value.name == code[toks[0].offset..toks[|toks| - 1].endOffset]
  {
    JoinedIsSourceSpan(code, toks);
  }

  /** `Op.from_toks([first, after])`: the `(operator, operand)` pairs folded
      from the left, each new node on its operator's line. */
  function OpFromToks(first: Node, after: seq<(Token, Node)>): (r: Node)
    ensures after == [] ==> r == first
    ensures after != [] ==> r.Op? && r.right == after[|after| - 1].1
                            && r.op == after[|after| - 1].0.text && r.line == after[|after| - 1].0.startLine
    decreases |after|
  {
    if after == [] then first
    else
      var (op, second) := after[0];
      OpFromToks(Op(first, second, op.text, op.startLine, None), after[1..])
  }

  /** The left fold read from the right: the last pair is applied on top of
      the fold of all the others. */
  function LeftAssociated(first: Node, after: seq<(Token, Node)>): Node
    decreases |after|
  {
    if after == [] then first
    else
      var (op, last) := after[|after| - 1];
      Op(LeftAssociated(first, after[..|after| - 1]), last, op.text, op.startLine, None)
  }

  /** `Op.from_toks` is left-associative: `a o1 b o2 c` is `(a o1 b) o2 c`. */
  lemma {:induction false} OpIsLeftAssociative(first: Node, after: seq<(Token, Node)>)
    ensures OpFromToks(first, after) == LeftAssociated(first, after)
    decreases |after|
  {
    if after != [] {
      var (op, second) := after[0];
      var head := Op(first, second, op.text, op.startLine, None);
      OpIsLeftAssociative(head, after[1..]);
      LeftAssociatedShift(first, after);
    }
  }

  /** Folding the first pair in and then the rest is the fold of all. */
  lemma {:induction false} LeftAssociatedShift(first: Node, after: seq<(Token, Node)>)
    requires after != []
    ensures LeftAssociated(Op(first, after[0].1, after[0].0.text, after[0].0.startLine, None), after[1..])
         == LeftAssociated(first, after)
    decreases |after|
  {
    if |after| > 1 {
      var init := after[..|after| - 1];
      LeftAssociatedShift(first, init);
      assert init[0] == after[0];
      assert after[1..][..|after[1..]| - 1] == init[1..];
      assert after[1..][|after[1..]| - 1] == after[|after| - 1];
    }
  }

  /** `GetAttr.from_toks`: `.name` as an access on an object not known yet,
      on the line of the dot; the name must be a `VarName`. */
  function GetAttrFromToks(dot: Token, name: Node): (r: Result<Node, CrocoError>)
    ensures r.Ok? <==> name.VarName?
    ensures r.Err? ==> r.error == AttributeError
    ensures r.Ok? ==> r.value == GetAttr(None, name.name, dot.startLine, None)
  {
    if name.VarName? then Ok(GetAttr(None, name.name, dot.startLine, None))
    else Err(AttributeError)
  }

  /** `GetItem.from_toks`: a subscription on an object not known yet, on the
      line of the bracket. */
  function GetItemFromToks(bracket: Token, index: Node): (r: Node)
    ensures r.GetItem? && r.obj.None? && r.index == index && r.line == bracket.startLine
  {
    GetItem(None, index, bracket.startLine, None)
  }

  /** `Call.from_toks`: a call on an object not known yet, on the line of the bracket. */
  function CallFromToks(bracket: Token, args: seq<Node>): (r: Node)
    ensures r.Call? && r.obj.None? && r.args == args && r.line == bracket.startLine
  {
    Call(None, args, bracket.startLine, None)
  }

  /** `store`: which nodes an assignment may write to. Constants, operations
      and calls are refused with a `SyntaxError`, a collection literal with
      `NotImplementedError`; statements have no `store` at all. */
  function Store(n: Node): (r: Result<(), CrocoError>)
    ensures r.Ok? <==> n.VarName? || n.GetAttr? || n.GetItem?
    ensures IsConstant(n) ==> r == Err(SyntaxError(AssignToConstant))
    ensures n.Op? ==> r == Err(SyntaxError(AssignToOperation))
    ensures n.Call? ==> r == Err(SyntaxError(AssignToCall))
    ensures n.Collection? ==> r == Err(NotImplementedError)
  {
    match n
    case Number(_, _, _) => Err(SyntaxError(AssignToConstant))
    case StringLit(_, _, _) => Err(SyntaxError(AssignToConstant))
    case Op(_, _, _, _, _) => Err(SyntaxError(AssignToOperation))
    case Call(_, _, _, _) => Err(SyntaxError(AssignToCall))
    case Collection(_, _, _, _) => Err(NotImplementedError)
    case VarName(_, _, _) => Ok(())
    case GetAttr(_, _, _, _) => Ok(())
    case GetItem(_, _, _, _) => Ok(())
    case _ => Err(AttributeError)
  }

  // ---------------------------------------------------------------------
  // Statements (`croco/parser/stmt.py`)

  /** `Affectation(variable, value, line, inplace_op)`: the target is
      checked in this order: a constant, then a call (which is also a
      second-level node), then anything that is neither a variable nor a
      second-level node. */
  function NewAffectation(variable: Node, value: Node, line: nat, inplaceOp: Option<string>): (r: Result<Node, CrocoError>)
    ensures r.Ok? <==> variable.VarName? || variable.GetAttr? || variable.GetItem?
    ensures IsConstant(variable) ==> r == Err(SyntaxError(AffectConstant))
    ensures variable.Call? ==> r == Err(SyntaxError(AffectCall))
    ensures !IsConstant(variable) && !variable.VarName? && !IsSecondLevel(variable) ==>
              r == Err(SyntaxError(AffectNonVariable))
    ensures r.Ok? ==> r.value == Affectation(variable, value, inplaceOp, line, None)
  {
    if IsConstant(variable) then Err(SyntaxError(AffectConstant))
    else if variable.Call? then Err(SyntaxError(AffectCall))
    else if !(variable.VarName? || IsSecondLevel(variable)) then Err(SyntaxError(AffectNonVariable))
    else Ok(Affectation(variable, value, inplaceOp, line, None))
  }

  /** An assignment is built exactly for the targets `store` can write to:
      the two checks agree, though the refusal reasons differ. */
  lemma AffectableIsStorable(variable: Node, value: Node, line: nat, inplaceOp: Option<string>)
    ensures NewAffectation(variable, value, line, inplaceOp).Ok? <==> Store(variable).Ok?
    ensures variable.Call? ==> NewAffectation(variable, value, line, inplaceOp).error == SyntaxError(AffectCall)
                                && Store(variable).error == SyntaxError(AssignToCall)
  {
  }

  /** Whether an item is the `=` token. */
  predicate IsEquals(x: Item) { x.IToken? && x.tok.text == "=" }

  /** `Affectation.from_toks`: `[target, [], "=", value]` without and
      `[target, [op], "=", value]` with an in-place operator, on the line of
      the `=`; any other shape is an invalid assignment. */
  function AffectationFromToks(toks: seq<Item>): (r: Result<Node, CrocoError>)
    ensures !(|toks| == 4 && toks[1].IList? && |toks[1].items| <= 1 && IsEquals(toks[2])) ==>
              r == Err(SyntaxError(InvalidAffectation))
    ensures r.Ok? ==> r.value.Affectation? && r.value.line == toks[2].tok.startLine
                      && INode(r.value.variable) == toks[0] && INode(r.value.value) == toks[3]
                      && (r.value.inplaceOp.None? <==> toks[1].items == [])
                      && (r.value.inplaceOp.Some? ==> toks[1].items[0].IToken?
                                                      && r.value.inplaceOp.value == toks[1].items[0].tok.text)
  {
    if !(|toks| == 4 && toks[1].IList? && |toks[1].items| <= 1 && IsEquals(toks[2])) then
      Err(SyntaxError(InvalidAffectation))
    else if !toks[0].INode? then Err(SyntaxError(AffectNonVariable))
    else if !toks[3].INode? then Err(SyntaxError(InvalidAffectation))
    else if toks[1].items != [] && !toks[1].items[0].IToken? then Err(SyntaxError(InvalidAffectation))
    else
      var op := if toks[1].items == [] then None else Some(toks[1].items[0].tok.text);
      NewAffectation(toks[0].node, toks[3].node, toks[2].tok.startLine, op)
  }

  // ---------------------------------------------------------------------
  // Blocks and flow control (`croco/parser/blocks.py`)

  /** `[smt for line in lines for smt in line]`. */
  function Flatten(lines: seq<seq<Node>>): (r: seq<Node>)
    decreases |lines|
  {
    if lines == [] then [] else lines[0] + Flatten(lines[1..])
  }

  /** Flattening keeps lines in order: the statements of `a + b` are those
      of `a` followed by those of `b`. */
  lemma {:induction false} FlattenAppend(a: seq<seq<Node>>, b: seq<seq<Node>>)
    ensures Flatten(a + b) == Flatten(a) + Flatten(b)
    decreases |a|
  {
    if a == [] {
      assert a + b == b;
    } else {
      FlattenAppend(a[1..], b);
      assert (a + b)[1..] == a[1..] + b;
    }
  }

  /** How many statements some lines hold. */
  function StatementCount(lines: seq<seq<Node>>): nat
    decreases |lines|
  {
    if lines == [] then 0 else |lines[0]| + StatementCount(lines[1..])
  }

  /** Flattening neither drops nor adds statements. */
  lemma {:induction false} FlattenCount(lines: seq<seq<Node>>)
    ensures |Flatten(lines)| == StatementCount(lines)
    decreases |lines|
  {
    if lines != [] {
      FlattenCount(lines[1..]);
    }
  }

  /** `Block.from_toks`: the statements of all lines in order, on the line of
      the first; lines holding no statement at all are an `IndexError`. */
  function BlockFromToks(lines: seq<seq<Node>>): (r: Result<Node, CrocoError>)
    ensures r.Err? <==> Flatten(lines) == []
    ensures r.Err? ==> r.error == IndexError
    ensures r.Ok? ==> r.value.Block? && r.value.statements == Flatten(lines)
                      && r.value.line == Flatten(lines)[0].line && r.value.file.None?
  {
    var stmts := Flatten(lines);
    if stmts == [] then Err(IndexError)
    else Ok(Block(stmts, stmts[0].line, None))
  }

  /** A block built from lines is the first line's statements, then the others'. */
  lemma BlockOfLines(first: seq<Node>, rest: seq<seq<Node>>)
    requires first != []
    ensures BlockFromToks([first] + rest).Ok?
    ensures BlockFromToks([first] + rest).value.statements[..|first|] == first
    ensures BlockFromToks([first] + rest).value.line == first[0].line
  {
    FlattenAppend([first], rest);
    assert Flatten([first]) == first + Flatten([]);
  }

  /** `If.from_toks`: `toks[1]` is the condition, the block comes later, no
      else clause yet, on the line of the keyword. */
  function IfFromToks(keyword: Token, cond: Node): (r: Node)
    ensures r.If? && r.cond == cond && r.block.None? && r.elseClause.None? && r.line == keyword.startLine
  {
    If(cond, None, None, keyword.startLine, None)
  }

  /** `While.from_toks`, shaped as `If.from_toks`. */
  function WhileFromToks(keyword: Token, cond: Node): (r: Node)
    ensures r.While? && r.cond == cond && r.block.None? && r.elseClause.None? && r.line == keyword.startLine
  {
    While(cond, None, None, keyword.startLine, None)
  }

  /** `For.from_toks`: `toks[1]` is the target and `toks[3]` the iterable. */
  function ForFromToks(keyword: Token, target: Node, inKeyword: Token, iter: Node): (r: Node)
    ensures r.For? && r.target == target && r.iter == iter && r.block.None? && r.elseClause.None?
    ensures r.line == keyword.startLine
  {
    For(target, iter, None, None, keyword.startLine, None)
  }

  /** The factory of the `else` clause: a plain flow-control statement on
      the line of the keyword, its block to come later, with no else clause. */
  function ElseFromToks(keyword: Token): (r: Node)
    ensures r.FlowControl? && r.block.None? && r.elseClause.None? && r.line == keyword.startLine
  {
    FlowControl(None, None, keyword.startLine, None)
  }

  // ---------------------------------------------------------------------
  // Collection literals (`croco/parser/collections.py`)

  /** `CollectionLitteral.from_toks`: the closing bracket decides the type,
      on its line; an unknown bracket is a `ValueError`. */
  function CollectionFromToks(exprs: seq<Node>, close: Token): (r: Result<Node, CrocoError>)
    ensures r.Ok? <==> close.text in {")", "]", "}"}
    ensures r.Err? ==> r.error == ValueError
    ensures r.Ok? ==> r.value.Collection? && r.value.exprs == exprs && r.value.line == close.startLine
    ensures close.text == ")" ==> r.Ok? && r.value.ctype == TupleType
    ensures close.text == "]" ==> r.Ok? && r.value.ctype == ListType
    ensures close.text == "}" ==> r.Ok? && r.value.ctype == SetType
  {
    if close.text == ")" then Ok(Collection(exprs, TupleType, close.startLine, None))
    else if close.text == "]" then Ok(Collection(exprs, ListType, close.startLine, None))
    else if close.text == "}" then Ok(Collection(exprs, SetType, close.startLine, None))
    else Err(ValueError)
  }
}
