# CrocoLang parsing and code generation, modelled in Dafny

CrocoLang is a small language implemented in Python. Its front end is a
library of parser combinators. This project models the pieces that make
up its core:

- **The `parser_v2` engine.**
  - `Indexer`: the source cursor with its offset, line and column. `Token`: a matched slice of the source.
  - `CharStream`: a source read lazily from a producer.
  - The combinators `Str`, `Any`, `Sequence`, `Repeat`, `Expected`, `Not`, `UpdateNameSpace`, `SaveAs` and `End`.
  - The lazy references `Var` and `Transformer`, with their `add`, `mul` and `ifelse`.
  - The operators that build grammars (`+`, `|`, `*`, `~`, `expect`, `set_factory`).
  - The `Parser` class driver and the module-level `parse`.
- **The older `parser/` engine.**
  - The escape-aware lexer `tokennify`.
  - The combinators `Structure`, `String`, `Char`, `SequenceStruct`, `FirstStruct`, `StructGetter` and `Repeat`.
  - The `Parser` object that registers named structures and extracts a major structure.
- **The CrocoLang syntax tree.**
  - The `from_toks` factories of `croco/parser/expr.py`, `stmt.py`, `blocks.py` and `collections.py`.
  - Which targets an assignment accepts.
  - `optimize`, and the first pass that records assigned variables and stamps the file name.
- **`code_creator.py`.**
  - `CodeGenerator`: it appends opcodes and arguments, tracks the running and maximum stack size, and resolves jump targets through `Partial` cells.
  - It interns names and constants through `Vue` arguments.
  - It writes the line-number table (`lnotab`) and assembles the code bytes in `build`.

Modules and what they model:

| module | file | models |
|---|---|---|
| `Base` | base.dfy | shared helpers: `Result`/`Option`, counting, slicing, last index |
| `Positions` | positions.dfy | the `parser_v2/token.py` cursor and token |
| `CharStreams` | char_stream.dfy | `parser_v2/char_stream.py`, as a class with a buffer that grows |
| `Grammar` | grammar.dfy | combinators as values, lazy references, grammar operators |
| `Engine` | engine.dfy | `BasicStruct.parse` and every `_parse`, as one recursive function |
| `EngineLoops` | engine_loops.dfy | the loops of `Any`, `Sequence` and `Repeat`, as methods proved against `Engine` |
| `EngineProps` | engine_props.dfy | what each `parser_v2` combinator promises |
| `Driver` | driver.dfy | `parser_v2/parser.py` |
| `Lexer` | lexer.dfy | `parser/_tokens.py` |
| `OldStructs` | structures.dfy | `parser/structure.py` |
| `OldStructLoops` | struct_loops.dfy | the loops of `SequenceStruct` and `Repeat`, as methods |
| `OldStructProps` | struct_props.dfy | what each older combinator promises |
| `OldParser` | old_parser.dfy | `parser/parser.py` |
| `CrocoAst` | croco_ast.dfy | the syntax tree and its factories |
| `CrocoPasses` | croco_passes.dfy | `optimize` and the first pass |
| `CodeTables` | code_tables.dfy | `Vue` interning, encoding of instructions, and the line table arithmetic |
| `CodeCreator` | code_creator.dfy | the `CodeGenerator` class |

Some functions recurse through a parse, which in Python is bounded by the
interpreter's recursion depth. They take a `fuel` argument that only a
lazy reference (or a `StructGetter`) spends. Running out of fuel is an
outcome of its own (`Exhausted`, `OutOfFuel`), distinct from every error
the source raises.

## Model

| member | source | states |
|---|---|---|
| Positions.NewIndexer | parser_v2/token.py:8-14 | the constructor succeeds exactly for a `CharStream` source and then keeps the offset, line and column given |
| Positions.PlainStringRefused | parser_v2/token.py:9-10 | a plain string given as source is refused |
| Positions.NewlinesSplit | parser_v2/token.py:18 | newlines counted over `code[a:c]` are those of `code[a:b]` plus those of `code[b:c]` |
| Positions.AddAsWritten | parser_v2/token.py:16-20 | `_add` as written (newline search up to and including the new offset) moves the offset by `k` |
| Positions.Add | parser_v2/token.py:16-20 | the corrected `_add`: line grows by the newlines crossed; column grows by `k` on the same line, else is the distance from the last newline before the new offset |
| Positions.AddKeepsConsistent | parser_v2/token.py:16-20 | advancing a position whose line and column match its offset gives one that matches again |
| Positions.AddAdditive | parser_v2/token.py:22-27 | advancing by `a` then `b` equals advancing by `a + b` |
| Positions.MakeToken | parser_v2/token.py:38-66 | `get_token`: the token starts at the cursor, ends `length` later, and its text is that slice of the source |
| Positions.LastIndexOfInSlice | parser_v2/token.py:55 | the last newline of the token's fragment sits at the same place in the whole source |
| Positions.LastNewlineOfSpan | parser_v2/token.py:19 | over a span holding a newline, the last newline before the end lies inside the span |
| Positions.MultiLineEndColumn | parser_v2/token.py:54-55 | a multi-line token's end column equals the cursor's column after consuming it |
| Positions.TokenEndMatchesAdd | parser_v2/token.py:38-66 | a token ends (offset, line, column) exactly where the cursor lands after consuming it |
| Positions.SampleIsTwoShortLines | parser_v2/token.py:16-20 | "a\nb\n" is a source of two one-character lines |
| Positions.TwoShortLinesFacts | parser_v2/token.py:18-19 | newline counts and last-newline positions on such a source |
| Positions.AsWrittenColumnCounterexample | parser_v2/token.py:19 | as written, reaching offset 3 in one step gives column 0 but in two steps column 2, while the token says 2 |
| Positions.CorrectedColumnExample | parser_v2/token.py:19 | the corrected rule gives column 2 both ways, agreeing with the token |
| Positions.ComparisonsByOffset | parser_v2/token.py:29-33 | comparisons look at the offset only, against another cursor or an int |
| Positions.Cursor.constructor | parser_v2/token.py:8-14 | a cursor holds the source and the position given |
| Positions.Cursor.AddInPlace | parser_v2/token.py:25-27 | `+=` sets the fields to what `+` would return |
| CharStreams.Fill | parser_v2/char_stream.py:13-21 | filling for offset `i` ends with `i` buffered or the stream stopped |
| CharStreams.CharAt | parser_v2/char_stream.py:13-22 | `_get` gives one character when the offset is buffered and "" otherwise |
| CharStreams.FillExtends | parser_v2/char_stream.py:13-21 | filling only appends to the buffer, changes nothing once stopped, and keeps what the producer will deliver |
| CharStreams.GetIsTotalAt | parser_v2/char_stream.py:13-22 | `_get(i)` gives the `i`-th character of everything the producer delivers, or "" past its end |
| CharStreams.FillCompleteWhenStopped | parser_v2/char_stream.py:15-20 | once stopped, the buffer holds everything the producer delivered |
| CharStreams.StartsFromStopped | parser_v2/char_stream.py:39-43 | on a stopped stream the character loop answers the plain prefix test on the buffer |
| CharStreams.StoppedStartsWith | parser_v2/char_stream.py:39-43 | `startswith` on a stopped stream is the prefix test the engine uses, without changing the stream |
| CharStreams.CharStream.constructor | parser_v2/char_stream.py:8-11 | a new stream has an empty buffer, is not stopped, and holds its producer |
| CharStreams.CharStream.Get | parser_v2/char_stream.py:13-22 | `_get` fills as `Fill` says and returns `CharAt` of the new state |
| CharStreams.CharStream.GetSlice | parser_v2/char_stream.py:24-26 | a slice is clamped to what is already buffered |
| CharStreams.CharStream.Length | parser_v2/char_stream.py:29-30 | the length is that of the buffer only |
| CharStreams.CharStream.RFind | parser_v2/char_stream.py:35-37 | fills up to `end`, then gives the last occurrence in `[start, end)` of the buffer or -1 |
| CharStreams.CharStream.StartsWith | parser_v2/char_stream.py:39-43 | compares one character at a time, pulling input as needed, as `StartsFrom` says |
| Engine.PyIndex | parser_v2/struct.py:132-133 | `obj[i]` succeeds exactly for `-len <= i < len`, and a non-negative index picks that item |
| Engine.ClampBound | parser_v2/struct.py:132-133 | a slice bound is clamped into the list's length |
| Engine.PySlice | parser_v2/struct.py:132-133 | the whole slice is the list itself, and no slice is longer than the list |
| Engine.Project | parser_v2/struct.py:132-133 | `_getargs` gives one argument per index; the default `[:]` gives the whole list as one argument |
| Engine.Iterate | parser_v2/struct.py:122 | lists and tuples iterate over their items; only lists, tuples and strings are iterable |
| Engine.Builtin | parser_v2/struct.py:122 | `tuple(...)` and `list(...)`: more than one argument is a `TypeError`, none gives an empty container, one iterable gives its items |
| Engine.FactoryArgs | parser_v2/struct.py:31-32 | a combinator other than `Sequence` or `Repeat` passes its result as the only argument |
| Engine.ApplyFactory | parser_v2/struct.py:38-39 | without a factory the result is unchanged, and calling a non-callable factory raises |
| Engine.MatchText | parser_v2/struct.py:79-82 | a literal present at the cursor gives the token of that length and moves past it; otherwise `None` at the same cursor, with the namespace unchanged |
| Engine.Parse | parser_v2/struct.py:34-40 | every parse ends no earlier than it started and within the source, and a `None` result keeps the cursor |
| Engine.Raw | parser_v2/struct.py:75-297 | the same placement guarantee for each combinator's own `_parse` |
| Engine.Overlay | parser_v2/struct.py:269-271 | the overlaid namespace holds the caller's names plus the extras, keeps the caller's values for the others, and binds each extra |
| Engine.AnyLoop | parser_v2/struct.py:105-110 | the remaining alternatives keep the placement guarantee |
| Engine.SeqLoop | parser_v2/struct.py:135-143 | success holds the values gathered so far followed by one per remaining child; failure returns to where the sequence began (each value's content: `EngineSeqProps.SequenceCons`) |
| Engine.RepeatEnd | parser_v2/struct.py:201-203 | fewer than `mini` values fail back to the original cursor; otherwise the result is `(values, joins)` at the current cursor |
| Engine.RepeatLoop | parser_v2/struct.py:184-200 | a successful loop ends with `mini..maxi` values, and with joins that interleave them |
| Engine.RepeatItem | parser_v2/struct.py:191-200 | the item step keeps the same result shape |
| EngineLoops.RunAny | parser_v2/struct.py:105-110 | the `for` loop computes `Raw` of the `Any` |
| EngineLoops.RunSequence | parser_v2/struct.py:135-143 | the `for` loop computes `Raw` of the `Sequence`, with one value per child on success |
| EngineLoops.RunRepeat | parser_v2/struct.py:174-179 | after resolving `mini` and `maxi` (and returning empty lists when `maxi` is zero), the method computes `Raw` of the `Repeat` |
| EngineLoops.RepeatTurns | parser_v2/struct.py:184-203 | the `while True` loop computes the loop function `RepeatLoop` from the first turn, so a successful result has the `Repeat` shape |
| EngineLoops.RepeatItemTurn | parser_v2/struct.py:191-201 | the item step either ends the loop with what `RepeatItem` gives or continues from one more item, and then the remaining `maxi` budget or the distance to the end of the code shrinks |
| EngineProps.StrMatchesLiteral | parser_v2/struct.py:75-82 | `Str` raises the resolution error or a `TypeError` for a non-string; otherwise it matches the literal at the cursor |
| EngineProps.FailureRestoresCursor | parser_v2/struct.py:34-40 | any combinator that returns `None` hands back the cursor it was given |
| EngineProps.AnyLoopShift | parser_v2/struct.py:105-110 | trying `Any` from its second alternative is trying the `Any` of the rest |
| EngineProps.AnyOrderedChoice | parser_v2/struct.py:105-110 | the first alternative's success or error is the result; its failure moves on to the rest from the same cursor |
| EngineProps.AnyOfNothingFails | parser_v2/struct.py:110 | an `Any` without alternatives fails where it started |
| EngineProps.SeqAllOrNothing | parser_v2/struct.py:135-143 | a `Sequence` yields one value per child, or fails back to its start (which value, for any number of children: `EngineSeqProps.SequenceCons`) |
| EngineProps.SeqFactoryArgs | parser_v2/struct.py:122-133 | by default a `Sequence` gives a tuple of its children's values; a custom factory gets the projected items |
| EngineProps.RepeatZeroMax | parser_v2/struct.py:178-179 | a maximum of zero gives `([], [])` without moving |
| EngineProps.RepeatBounds | parser_v2/struct.py:174-203 | a successful `Repeat` holds `mini..maxi` values with interleaved joins, or is the zero-maximum case |
| EngineProps.NotIff | parser_v2/struct.py:251-258 | `Not` succeeds exactly when its child fails and `increment` characters remain; it then takes exactly that many, or "" when it is zero |
| EngineProps.EndIff | parser_v2/struct.py:294-297 | `End` gives `True` without moving exactly at the end of the source |
| EngineProps.ExpectedRaises | parser_v2/struct.py:231-240 | `Expected` passes its child's outcome through, except that a failure raises the configured error at the 1-based line |
| EngineProps.UnsKeepsCallerNamespace | parser_v2/struct.py:269-271 | `UpdateNameSpace` runs its child on the overlaid namespace and hands back the caller's namespace untouched |
| EngineProps.SaveAsBindsOnSuccess | parser_v2/struct.py:284-288 | `SaveAs` binds its name to the child's value exactly when the child succeeds |
| EngineProps.RefDelegates | parser_v2/var.py:17-26 | a lazy reference parses with the combinator it resolves to, matches the string it resolves to, and otherwise raises `TypeError` |
| EngineProps.VarFollowsBinding | parser_v2/var.py:47-51 | `Var` is looked up at parse time, and raises `NameError` when unbound |
| EngineProps.SaveAsSurvivesFailedSequence | parser_v2/struct.py:284-288 | a `SaveAs` binding made inside a `Sequence` that later fails is still in the namespace |
| EngineProps.RepeatStopsWithoutProgress | parser_v2/struct.py:199-200 | without a static maximum, an item that matches without consuming anything ends the loop after one item |
| EngineProps.RepeatJoinRolledBack | parser_v2/struct.py:186-194 | a separator not followed by an item stays in the joins, but the cursor goes back to before it |
| EngineProps.SeqOfTwo | parser_v2/struct.py:135-143 | `a + b` parses `b` from where `a` stopped, in the namespace `a` left, and fails back to the start |
| EngineSeqProps.SeqLoopFactors | parser_v2/struct.py:137-143 | the loop with values already gathered is the loop from none with those values put in front, failures reported at the original start |
| EngineSeqProps.SeqLoopTail | parser_v2/struct.py:138-142 | running the loop over children `[a] + rest` from child `k + 1` is running it over `rest` from child `k` |
| EngineSeqProps.SequenceCons | parser_v2/struct.py:135-143 | for any number of children: none gives an empty list where it stands; otherwise the first child is parsed, the rest run as a sequence from where it stopped with the namespace it left, and the list is the first value followed by the rest's; any failure is reported at the starting cursor with the namespace the failing child left |
| Grammar.AsString | parser_v2/struct.py:77 | only strings and tokens are strings |
| Grammar.AsInt | parser_v2/struct.py:196-201 | only ints and bools are numbers |
| Grammar.Repeated | parser_v2/var.py:11-12 | `s * n` has `len(s) * max(n, 0)` items |
| Grammar.Convert | parser_v2/struct.py:304-309 | `_convert` keeps a combinator, wraps a string in `Str`, and refuses anything else |
| Grammar.Plus | parser_v2/struct.py:145-148 | `a + b` extends an open `Sequence` and otherwise nests both sides in a new one; a non-convertible operand is refused |
| Grammar.PlusRight | parser_v2/struct.py:48-49 | `other + a` gives a new two-element `Sequence` |
| Grammar.Or | parser_v2/struct.py:112-115 | `a \| b` extends an open `Any` and otherwise builds a new one |
| Grammar.RepeatOf | parser_v2/struct.py:167-172 | `Repeat(a, *args)` takes at most four positional arguments, with defaults `mini=0` and `maxi=None` |
| Grammar.Times | parser_v2/struct.py:54-57 | `a * n` is `Repeat(a, n, n)`, and `a * (…)` spreads the tuple into `Repeat`'s arguments |
| Grammar.Invert | parser_v2/struct.py:59-60 | `~a` is `Not(a)` with increment 1 |
| Grammar.Expect | parser_v2/struct.py:42-43 | `a.expect(msg, etype)` wraps `a` in `Expected` |
| Grammar.SetFactory | parser_v2/struct.py:23-26 | `None` keeps the old factory; `Any` and `Sequence` become final; the indexes and `pass_joiners` are set as given (with the overrides of `Finalisable`, `Sequence` and `Repeat` at lines 96-98, 150-153 and 210-212) |
| Grammar.PyAdd | parser_v2/var.py:8-9 | numbers add, strings concatenate and lists concatenate; other mixes are refused |
| Grammar.PyMul | parser_v2/var.py:11-12 | numbers multiply and a string repeats; a product needs a number on one side |
| Grammar.Eval | parser_v2/var.py:36-51 | `Var` is the bound value, or a `NameError` when the name is unbound |
| Grammar.Resolve | parser_v2/struct.py:4-7 | `_get` leaves anything that is not a lazy reference as it is |
| Grammar.ResolveOpt | parser_v2/struct.py:175-177 | an absent `maxi` stays absent; otherwise it is resolved, or its error propagates |
| Grammar.IfElsePicks | parser_v2/var.py:14-15 | `ifelse` gives the resolved branch its condition picks |
| Driver.Starter | parser_v2/parser.py:19-25 | `start or __start__`: a name gives whatever the class binds to it (an `AttributeError` when it binds nothing), a combinator is used as it is, anything else is a `TypeError` |
| Driver.ParseNamespace | parser_v2/parser.py:18 | `vars(cls) \| namespace`: all names of both, the caller's value winning |
| Driver.Run | parser_v2/parser.py:16-31 | a start error propagates; then a plain string with an integer start is refused by the `Indexer`; only after that is a start that is no combinator an `AttributeError` for its missing `parse`; a returned value is the start rule's result after consuming the whole source |
| Driver.NonCombinatorStartFailsLate | parser_v2/parser.py:20-28 | a start name bound to a non-combinator raises `RuntimeError` on a plain string (the `Indexer` comes first) and `AttributeError("parse")` on a `CharStream` |
| Driver.WholeInputOrSyntaxError | parser_v2/parser.py:28-31 | a parse that stops before the end is a syntax error at that offset; one that reaches it returns its value |
| Driver.ModuleParseAsWritten | parser_v2/parser.py:35-38 | the module-level `parse` refuses a non-`Parser` and merges the caller's namespace with the keywords |
| Driver.ModuleParse | parser_v2/parser.py:35-38 | the corrected `parse` agrees with the written one when a namespace is given, and uses the keywords alone when none is |
| Driver.ModuleParseDefaultNamespace | parser_v2/parser.py:38 | without a namespace the written `parse` raises `TypeError`, while the corrected one runs the parser |
| Driver.EmptyExtraIsNoExtra | parser_v2/parser.py:18 | an empty caller namespace is the same as none |
| Driver.AbcOrDefParses | tests/tests_parserv2/test_parser.py:7-9 | the start rule of `a = Any("abc", "def")` is that `Any`, tried on the class namespace |
| Driver.AbcOrDefRun | tests/tests_parserv2/test_parser.py:7-15 | on a `CharStream` holding three characters the result is the first alternative present, or a syntax error at 0 |
| Driver.AbcOrDefReturnsSource | tests/tests_parserv2/test_parser.py:7-12 | on a `CharStream` holding three characters that either alternative matches, the parser returns the whole source |
| Driver.AbcOrDefAcceptsAbc | tests/tests_parserv2/test_parser.py:11 | on a `CharStream` holding "abc", the parser returns the token "abc" |
| Driver.AbcOrDefAcceptsDef | tests/tests_parserv2/test_parser.py:12 | on a `CharStream` holding "def", the parser returns the token "def" |
| Driver.AbcOrDefRejectsGhi | tests/tests_parserv2/test_parser.py:14-19 | on a `CharStream` holding "ghi", the parser raises `SyntaxError` at offset 0 |
| Driver.AbcOrDefOnPlainStringRaises | tests/tests_parserv2/test_parser.py:11-15 | the test's calls as written hand the parser a plain string, which the `Indexer` constructor refuses (parser_v2/token.py:9-10): whatever the text, the call raises `RuntimeError` |
| Lexer.Lex | parser/_tokens.py:14-27 | lexing never gives more tokens than characters; a plain first character gives a plain first token, and a leading marker escapes the character after it |
| Lexer.PrefixedStep | parser/_tokens.py:23-25 | prepending tokens one at a time is prepending them all at once |
| Lexer.Tokennify | parser/_tokens.py:14-27 | the `while` loop computes `Lex` |
| Lexer.Escape | parser/_tokens.py:14-27 | writing tokens back adds one character per escaped token |
| Lexer.LexThenEscape | parser/_tokens.py:14-27 | with one marker, lexing then writing back gives the input again |
| Lexer.EscapeThenLex | parser/_tokens.py:14-27 | writing back then lexing gives the tokens again, when no plain token is the marker |
| Lexer.LexPlainTokensAreNotMarkers | parser/_tokens.py:19-25 | no plain token is a marker |
| Lexer.LexCount | parser/_tokens.py:17-26 | the input's length is the number of tokens plus the number of escaped ones |
| Lexer.LexFailsOnlyAtTrailingMarker | parser/_tokens.py:20-22 | lexing fails only when the input ends with a marker |
| Lexer.LexTrailingMarkerFails | parser/_tokens.py:20-22 | a marker appended to input that lexes makes lexing fail |
| OldStructs.CastInterface | parser/structure.py:198-204 | a string becomes `String`, a combinator stays as it is, anything else is a `TypeError` |
| OldStructs.SaveName | parser/structure.py:127 | a savename used as a key is never empty; `String` and `Char` have none |
| OldStructs.NewStructure | parser/structure.py:34-43 | the constructor succeeds exactly for a string or a combinator, keeps the name and savename, and unwraps a `Structure` it is given |
| OldStructs.CastAll | parser/structure.py:134 | casting all the parts succeeds exactly when none is refused, and casts each one |
| OldStructs.FlattenParts | parser/structure.py:106-110 | flattening fails exactly when some part is refused |
| OldStructs.NewSequence | parser/structure.py:97-110 | a new `SequenceStruct` holds the flattened parts and its savename; its separator is none, the `FirstStruct` of a list's alternatives, or the single one cast; it succeeds exactly when every part and the separator can be cast |
| OldStructs.FlattenAppends | parser/structure.py:106-110 | flattening distributes over concatenation |
| OldStructs.NewFirst | parser/structure.py:132-134 | a new `FirstStruct` holds its cast alternatives, and fails exactly when a cast fails |
| OldStructs.NewRepeat | parser/structure.py:152-165 | a count alone means exactly that many; a pair is a range; a pair together with `maxi` is refused |
| OldStructs.FlattenPair | parser/structure.py:17-21 | a sequence built from two combinators holds the first's parts, then the second's, a sequence contributing its own parts |
| OldStructs.OPlus | parser/structure.py:17-18 | `a + b` succeeds exactly when `b` can be cast, and is the unnamed sequence without separator of `a`'s parts followed by `b`'s |
| OldStructs.ORAdd | parser/structure.py:20-21 | `b + a` for a `b` that is not a combinator succeeds exactly when `b` can be cast, and is the sequence of `b`'s parts followed by `a`'s |
| OldStructs.OOr | parser/structure.py:23-24 | `a \| b` is the `FirstStruct` of the two, `a` first, and fails exactly when `b` cannot be cast |
| OldStructs.ROr | parser/structure.py:26-27 | `b \| a` for a `b` that is not a combinator is the `FirstStruct` with `b` first |
| OldStructs.OTimes | parser/structure.py:29-31 | `a * n` and `n * a` are an unnamed `Repeat` of `a`: exactly `n` times for an integer, between the bounds of a pair |
| OldStructs.MatchString | parser/structure.py:53-58 | `String` uses at most the tokens given, and on success gives its own text and uses its length |
| OldStructs.MatchChar | parser/structure.py:66-94 | `Char` takes exactly one token, giving its character, or fails; on no tokens it fails |
| OldStructs.Plain | parser/structure.py:53-58 | the tokens `String` compares with (for `StringIgnoresEscapes`): every character in place, escape flags dropped |
| OldStructs.PlainTokens | parser/structure.py:53-58 | the tokens of text read without markers (for `StringMatchesPrefix`): one unescaped token per character |
| OldStructs.CharAcceptance | parser/structure.py:66-94 | with `excluded`, a token is taken iff its character is outside the set or it is escaped under `noescape`; otherwise iff it is in the set and not so escaped |
| OldStructs.StringIgnoresEscapes | parser/structure.py:53-58 | `String` compares characters only, ignoring escape flags |
| OldStructs.StringMatchesPrefix | parser/structure.py:53-58 | `String` matches tokens that begin with its characters, and fails on fewer tokens than it has characters |
| OldStructs.Extract | parser/structure.py:7-15 | every extraction uses no more than the tokens given, and `(None, 0)` on failure |
| OldStructs.SeqFrom | parser/structure.py:112-129 | a successful sequence gives an `AST` whose attributes are the saved names so far plus those of the remaining parts (values and token count: `OldSeqProps.SequenceCons`) |
| OldStructs.SkipSeps | parser/structure.py:117-122 | the separator loop keeps the same guarantee |
| OldStructs.SeqPart | parser/structure.py:123-128 | the part step keeps the same guarantee |
| OldStructs.FirstFrom | parser/structure.py:136-141 | the remaining alternatives use no more than the tokens given |
| OldStructs.RepeatRequired | parser/structure.py:170-175 | a success extends the items found so far and holds `mini..max(mini, maxi)` items with the configured attributes |
| OldStructs.RepeatOptional | parser/structure.py:176-184 | the optional matches keep the same guarantee |
| OldSeqProps.Saved | parser/structure.py:127-128 | what one part adds to the keywords: its value under its savename, or nothing when it has none |
| OldSeqProps.SepRun | parser/structure.py:117-122 | the separator loop alone: it lands at or after where it started and within the tokens, stays put without a separator, and otherwise can only stop by an exception, a loop for ever or exhaustion |
| OldSeqProps.SkipSepsIsSepRun | parser/structure.py:116-128 | before each part, the separators are skipped as `SepRun` says, then the part is tried where they ended |
| OldSeqProps.SepRunOffset | parser/structure.py:119 | the separator loop over `tokens[i:]` lands at the same place, counted from `i` |
| OldSeqProps.SeqFromKws | parser/structure.py:113-129 | the keywords gathered before a step are added in front of what the remaining steps gather |
| OldSeqProps.SeqPartKws | parser/structure.py:123-129 | the same, from a part step |
| OldSeqProps.SavedIsUpdate | parser/structure.py:127-128 | saving one value is adding the one-key map |
| OldSeqProps.WithKwsTwice | parser/structure.py:129 | adding keywords in two rounds is adding them at once |
| OldSeqProps.SeqFromOffset | parser/structure.py:112-129 | running the sequence over the tokens from `i0` gives the same result with the count shifted by `i0` |
| OldSeqProps.SkipSepsOffset | parser/structure.py:117-122 | the same, from a separator step |
| OldSeqProps.SeqPartOffset | parser/structure.py:123-128 | the same, from a part step |
| OldSeqProps.SeqFromTail | parser/structure.py:116-128 | over parts `[p] + qs`, the steps from part `k + 1` are the steps over `qs` from part `k` |
| OldSeqProps.SeqPartTail | parser/structure.py:123-128 | the same, from a part step |
| OldSeqProps.SeqPartFirst | parser/structure.py:123-129 | the first part step: a failing part gives `(None, 0)`; a success saves its value and runs the rest as a sequence from where it stopped |
| OldSeqProps.SequenceCons | parser/structure.py:112-129 | for any number of parts: none gives an empty `AST` using no token; otherwise separators are skipped, the first part is tried, and the rest run as a sequence on the tokens after it; the `AST` holds the first part's value under its savename plus the rest's attributes, the count adds up, and any failing part gives `(None, 0)` |
| OldSeqProps.FailingFirstPartFailsSequence | parser/structure.py:123-125 | without a separator, a sequence whose first part fails gives `(None, 0)` |
| OldStructLoops.RunSequenceStruct | parser/structure.py:112-129 | the loops compute `Extract` of the sequence |
| OldStructLoops.RunRepeat | parser/structure.py:167-184 | the two loops compute `Extract` of the repetition |
| OldStructProps.FirstFromShift | parser/structure.py:136-141 | trying from the second alternative is trying the rest |
| OldStructProps.FirstOrderedChoice | parser/structure.py:136-141 | the first alternative's success is the result; its failure moves on to the rest on the same tokens; none left fails |
| OldStructProps.SequenceSavesNamedParts | parser/structure.py:127-129 | a successful sequence's `AST` holds exactly the savenames of its parts |
| OldStructProps.ZeroWidthSeparatorHangs | parser/structure.py:117-122 | a separator that matches without consuming makes the sequence loop for ever |
| OldStructProps.RepeatBounds | parser/structure.py:167-184 | a success holds at least `mini` and at most `max(mini, maxi)` items |
| OldStructProps.RepeatCountIsExact | parser/structure.py:157-184 | `Repeat(x, n)` matches exactly `n` times or fails |
| OldStructProps.RepeatNeedsMini | parser/structure.py:170-173 | a failing required match fails the whole repetition with `(None, 0)` |
| OldStructProps.UnboundedZeroWidthRepeatHangs | parser/structure.py:176-183 | an unbounded repetition whose item matches without consuming loops for ever |
| OldStructProps.GetterLooksUpAtExtraction | parser/structure.py:148-149 | a missing name is a `KeyError`; a present one extracts as the combinator it names |
| OldStructProps.StructureDelegates | parser/structure.py:34-46 | a `Structure` extracts as the combinator it wraps |
| OldParser.StructName | parser/structure.py:34-35 | only `Structure` and `StructGetter` have a `name` |
| OldParser.NameMap | parser/parser.py:15 | every key of `struct_map` is the name of the combinator it maps to, and the last combinator is always bound to its name |
| OldParser.NameMapHoldsAll | parser/parser.py:15 | every given name is a key of `struct_map` |
| OldParser.NameMapLastWins | parser/parser.py:15 | every given name is registered, to the last combinator carrying it |
| OldParser.Parser.constructor | parser/parser.py:10-16 | keeps the escape characters and the major structure, and registers each combinator by name |
| OldParser.Parser.GetItem | parser/parser.py:18-21 | only `escape_chars` and `majorstruct` exist; any other key is a `KeyError` |
| OldParser.Parser.SetItem | parser/parser.py:23-27 | setting one of the two keys changes only that setting and reads back as set; any other key is a `KeyError` and changes nothing |
| OldParser.Parser.Parse | parser/parser.py:29-35 | no major structure is a `ValueError`, a dangling marker fails, and otherwise the chosen structure is extracted from the lexed tokens |
| OldParser.Parser.AddStruct | parser/parser.py:40-44 | a named combinator is registered under its name, an unnamed one is a `ValueError`, and neither failure changes the map |
| OldParser.LexPlain | parser/_tokens.py:14-27 | input without markers lexes to one plain token per character |
| OldParser.ParseStopsAfterPrefix | parser/parser.py:29-35 | `parse` does not require the whole input to be used |
| OldParser.ParseArgumentOverridesStored | parser/parser.py:30 | a major structure passed as an argument wins over the stored one |
| CrocoAst.Texts | croco/parser/expr.py:34 | the texts `"".join` concatenates (for `JoinedIsSourceSpan`): one per token, in order |
| CrocoAst.JoinedIsSourceSpan | croco/parser/expr.py:34 | joining tokens that lie back to back gives the source text from the first token's start to the last one's end |
| CrocoAst.Decimal | croco/parser/expr.py:34 | the decimal spelling of a number is a string `int` accepts |
| CrocoAst.DecimalRoundTrip | croco/parser/expr.py:34 | reading back the decimal spelling of a number gives the number |
| CrocoAst.NumberFromToks | croco/parser/expr.py:32-34 | `Number.from_toks` fails with `ValueError` exactly when the joined tokens are not digits; otherwise it gives a number on the first token's line |
| CrocoAst.Zeros | croco/parser/expr.py:34 | `n` zero characters |
| CrocoAst.ZerosAreWorthNothing | croco/parser/expr.py:34 | a string of zeros reads as 0 |
| CrocoAst.LeadingZerosIgnored | croco/parser/expr.py:34 | zeros in front of digits do not change what `int` reads |
| CrocoAst.NumberReadsItsDigits | croco/parser/expr.py:32-34 | tokens whose joined text is any number of zeros and then the decimal spelling of `n` (`["0", "7"]`, `["007"]`, `["1", "23"]`) give the number `n` on the first token's line |
| CrocoAst.StringFromToks | croco/parser/expr.py:37-39 | a string literal on the opening quote's line, as long as its joined body |
| CrocoAst.VarNameFromToks | croco/parser/expr.py:49-51 | `VarName.from_toks` fails with `IndexError` exactly on no tokens; otherwise it gives a variable on the first token's line, named by the joined tokens |
| CrocoAst.FactoriesSeeSource | croco/parser/expr.py:37-51 | over adjacent tokens, a string's text and a variable's name are the source text the tokens span |
| CrocoAst.OpFromToks | croco/parser/expr.py:78-85 | no pairs gives the first operand; otherwise the outermost operation takes the last pair's operand as its right side |
| CrocoAst.OpIsLeftAssociative | croco/parser/expr.py:78-85 | the fold is the left-associated tree: `a o1 b o2 c` is `(a o1 b) o2 c` |
| CrocoAst.LeftAssociatedShift | croco/parser/expr.py:83-85 | folding the first pair in and then the rest is the fold of all |
| CrocoAst.GetAttrFromToks | croco/parser/expr.py:126-128 | an attribute access needs a variable name after the dot (else `AttributeError`) and has no object yet |
| CrocoAst.GetItemFromToks | croco/parser/expr.py:146-148 | a subscription with no object yet, on the bracket's line |
| CrocoAst.CallFromToks | croco/parser/expr.py:172-174 | a call with no object yet, on the bracket's line |
| CrocoAst.Store | croco/parser/expr.py:28-29 | only variables, attribute accesses and subscriptions can be stored to; each other node has its own error (`Constant.store` here; `Op`, `SecondLevel` and `Call` at lines 95-96, 111-112 and 182-183) |
| CrocoAst.NewAffectation | croco/parser/stmt.py:37-47 | an assignment is built exactly for a variable or a second-level target other than a call, with its own error for each refused target |
| CrocoAst.AffectableIsStorable | croco/parser/stmt.py:37-47 | an assignment is built exactly for the targets `store` can write to |
| CrocoAst.AffectationFromToks | croco/parser/stmt.py:52-60 | only `[target, [], "=", value]` and `[target, [op], "=", value]` build an assignment, on the line of `=` |
| CrocoAst.FlattenAppend | croco/parser/blocks.py:14 | flattening the lines of `a + b` gives those of `a`, then those of `b` |
| CrocoAst.FlattenCount | croco/parser/blocks.py:14 | flattening neither drops nor adds statements |
| CrocoAst.BlockFromToks | croco/parser/blocks.py:12-15 | a block holds the statements of all lines in order, and is an `IndexError` when there are none |
| CrocoAst.BlockOfLines | croco/parser/blocks.py:12-15 | a block starts with its first line's statements and is on that line |
| CrocoAst.IfFromToks | croco/parser/blocks.py:62-64 | an `if` on the keyword's line, with the condition given and no block or `else` yet |
| CrocoAst.WhileFromToks | croco/parser/blocks.py:62-64 | a `while` built the same way |
| CrocoAst.ForFromToks | croco/parser/blocks.py:105-107 | a `for` with the target and the iterable given, and no block or `else` yet |
| CrocoAst.ElseFromToks | croco/parser/syntax.py:129 | the `else` clause is a plain `FlowControl` on the keyword's line, with no block or `else` yet |
| CrocoAst.CollectionFromToks | croco/parser/collections.py:10-18 | the closing bracket decides tuple, list or set; any other bracket is a `ValueError` |
| CrocoPasses.CompleteFillsBlocks | croco/parser/blocks.py:23-25 | a tree the first pass can walk has every block `optimize` reaches filled |
| CrocoPasses.Optimize | croco/parser/stmt.py:27-28 | `optimize` returns the tree unchanged |
| CrocoPasses.Stamp | croco/parser/stmt.py:30-32 | the first pass keeps every node's line |
| CrocoPasses.StampOpt | croco/parser/blocks.py:40-41 | an absent `else` stays absent |
| CrocoPasses.StampAll | croco/parser/blocks.py:19-20 | each statement is stamped, in order |
| CrocoPasses.FirstPassCtx.constructor | croco/parser/first_pass.py:1-4 | the context holds the file name and no variables |
| CrocoPasses.FirstPass | croco/parser/stmt.py:30-32 | the pass adds the assigned variable names to `ctx.vars` and returns the stamped tree |
| CrocoPasses.FirstPassExpr | croco/parser/expr.py:53-55 | the same, for expression nodes (`VarName`; `Op`, `SecondLevel`, `GetItem` and `Call` at lines 98-101, 114-116, 160-162 and 185-188) |
| CrocoPasses.FirstPassStatement | croco/parser/stmt.py:71-75 | the same, for assignments and blocks |
| CrocoPasses.FirstPassFlowControl | croco/parser/blocks.py:37-42 | the same, for `if`, `while`, `for` and a plain `FlowControl` (an `else` clause) |
| CrocoPasses.FirstPassOpt | croco/parser/blocks.py:40-41 | an optional part is visited only when present |
| CrocoPasses.FirstPassAll | croco/parser/blocks.py:17-21 | a sequence of nodes is visited in order |
| CrocoPasses.FirstPassModule | croco/parser/first_pass.py:6-9 | the pass over a module records exactly the assigned names; it returns the stamped tree, or `None` for an assignment or a collection at the top |
| CrocoPasses.AssignedAreVariables | croco/parser/stmt.py:71-73 | every name the pass records is the name of a variable in the tree |
| CrocoPasses.AssignedAreVariablesOpt | croco/parser/stmt.py:71-73 | the same, for an optional part |
| CrocoPasses.AssignedAreVariablesAll | croco/parser/stmt.py:71-73 | the same, for a sequence of nodes |
| CrocoPasses.AssignmentRecordsForDoesNot | croco/parser/stmt.py:71-73 | an assignment to a variable records it, but a `for` target is not recorded |
| CrocoPasses.StampIdempotent | croco/parser/stmt.py:30-32 | a second pass with the same file name changes nothing |
| CrocoPasses.StampIdempotentOpt | croco/parser/stmt.py:30-32 | the same, for an optional part |
| CrocoPasses.StampIdempotentAll | croco/parser/stmt.py:30-32 | the same, for a sequence of nodes |
| CrocoPasses.AssignedNamesIgnoreStamp | croco/parser/stmt.py:71-73 | stamping does not change which names are assigned |
| CrocoPasses.AssignedNamesIgnoreStampOpt | croco/parser/stmt.py:71-73 | the same, for an optional part |
| CrocoPasses.AssignedNamesIgnoreStampAll | croco/parser/stmt.py:71-73 | the same, for a sequence of nodes |
| CrocoPasses.StampKeepsUnvisitedFiles | croco/parser/stmt.py:71-75 | every node gets the file name, except an assignment or a collection, whose pass does not set it |
| CodeTables.IndexOf | code_creator.py:15 | `fields.index(value)` is the first position holding the value |
| CodeTables.Intern | code_creator.py:11-15 | `get_value` keeps the table as it was, or appends the one value, and the index it returns holds the value |
| CodeTables.InternKeepsTablesDistinct | code_creator.py:11-15 | a table stays free of duplicates; it grows exactly when the value is new; asking again changes nothing |
| CodeTables.InternPositionIsUnique | code_creator.py:11-15 | in a table without duplicates, the returned index is the only position holding the value |
| CodeTables.ExtendsTransitive | code_creator.py:11-15 | tables that only grow at the end still only grow over several steps |
| CodeTables.EncodeEntry | code_creator.py:123-131 | an encoded entry is a byte, and the tables only grow |
| CodeTables.Encode | code_creator.py:121-132 | encoding gives one byte per entry, and the tables only grow |
| CodeTables.ResumeStep | code_creator.py:123-131 | encoding the first entry, then the rest from the new tables, is encoding all the entries |
| CodeTables.EncodeAt | code_creator.py:123-131 | each byte stands for its entry: the int itself, the index holding the referenced value in the final tables, or the partial's value |
| CodeTables.EncodeMeansEntries | code_creator.py:121-132 | a successful encoding has one byte per entry, each standing for its entry |
| CodeTables.EncodeRefusesOther | code_creator.py:130-131 | an entry of another kind is a `ValueError`, and the tables are left as they were |
| CodeTables.LoadGlobalPrint | tests/tests_codecreator/test.py:8-20 | `LOAD_GLOBAL` of `print` encodes as the opcode and index 0, with `names == ("print",)` |
| CodeTables.LnotabAppend | code_creator.py:95-100 | `_add_to_lnotab` fails, with `OverflowError`, exactly when the span is not a byte or the line delta is negative; it only ever appends, the span byte first, and nothing when the span is not a byte |
| CodeTables.NextLineAsWritten | code_creator.py:102-112 | as written, `next_line` fails exactly when the list shrank, the span is not a byte or the pending delta is negative; on success it marks the current entry and moves the line by `nlines` only when an instruction was added since the last mark; the table only grows |
| CodeTables.NextLine | code_creator.py:102-112 | the corrected `next_line` fails on the same inputs; on success it marks the current entry and moves the line by `nlines`; on failure the mark and the line stay; the table only grows |
| CodeTables.GoLineAsWritten | code_creator.py:114-117 | as written, `go_line` fails on the same inputs as `next_line`; on success the mark is the current entry and the line is `lineno`; the table only grows |
| CodeTables.GoLine | code_creator.py:114-117 | over the corrected `next_line`, the same: the line is `lineno` on success and unchanged on failure |
| CodeTables.NextLineZeroSettles | code_creator.py:134-135 | after a successful closing `next_line(0)`, making it again with no instruction added changes nothing, so a second `build` sees the same line table |
| CodeTables.PairSumsAppend | code_creator.py:95-100 | the span and line totals of a concatenation are the sums of the totals |
| CodeTables.LnotabEntryDecodes | code_creator.py:95-100 | an entry written by `_add_to_lnotab` is an even run of bytes whose spans add up to the entry count and whose line deltas add up to the line delta |
| CodeTables.NextLineKeepsAccount | code_creator.py:102-112 | the corrected `next_line` moves the current line by `nlines` and keeps the table in step with the entries marked and the line reached; it fails exactly when the list shrank or a byte would overflow, and then keeps the line |
| CodeTables.GoLineKeepsAccount | code_creator.py:114-117 | `go_line` lands on the line asked for and keeps the account |
| CodeTables.NextLineDropsLinesAsWritten | code_creator.py:104-105 | as written, `next_line(2)` on a fresh generator changes nothing; corrected, it moves to line 2 |
| CodeTables.GoLineLosesAccountAsWritten | code_creator.py:104-117 | as written, two `go_line` calls with no instruction in between leave the table out of step with the current line; corrected, it stays in step |
| CodeCreator.MaxSizeIsMaximum | code_creator.py:41-43 | the running maximum is at least every stack size seen, and is 0 or one of them |
| CodeCreator.MaxSizeAppend | code_creator.py:41-43 | the maximum over two runs of stack sizes is the larger of their maxima |
| CodeCreator.CodeGenerator.constructor | code_creator.py:28-39 | a new generator holds its names and line number, with no instructions, empty stack sizes and a fresh line table |
| CodeCreator.CodeGenerator.UpdateStacksize | code_creator.py:41-43 | sets the stack size and raises the maximum to it when needed |
| CodeCreator.CodeGenerator.ActualInsIndex | code_creator.py:75-77 | the instruction count is half the entry count, rounded down |
| CodeCreator.CodeGenerator.NewPartial | code_creator.py:17-19 | a new partial is unset and nothing else changes |
| CodeCreator.CodeGenerator.SetPartial | code_creator.py:21-22 | sets that partial only |
| CodeCreator.CodeGenerator.GetValue | code_creator.py:11-15 | a missing table is an `AttributeError`; otherwise the value is interned, and the index returned holds it (through `name`, `const` and the other `Vue` makers at lines 47-51) |
| CodeCreator.TablesStayDistinct | code_creator.py:11-15 | replacing one table by a table without duplicates leaves no table with duplicates |
| CodeCreator.CodeGenerator.CodeOf | code_creator.py:89-90 | an opcode has no number exactly when it is a name the opcode map lacks |
| CodeCreator.CodeGenerator.Entries | code_creator.py:91 | `add_ins` appends two entries for a known opcode and none for an unknown name |
| CodeCreator.CodeGenerator.EmittedLength | code_creator.py:88-93 | a body whose instructions are all accepted appends two entries per instruction |
| CodeCreator.CodeGenerator.AcceptedPrefix | code_creator.py:88-93 | the instructions before the accepted count are all accepted, and the one at the count (if any) is refused |
| CodeCreator.CodeGenerator.Appended | code_creator.py:88-93 | when every instruction is accepted, what a body appends is its entries in order |
| CodeCreator.CodeGenerator.EmittedStep | code_creator.py:88-93 | one more instruction adds its own entries and stack effect |
| CodeCreator.CodeGenerator.AddIns | code_creator.py:79-93 | an unknown opcode name is a `KeyError` that changes nothing; otherwise the opcode and its argument are appended, and the stack size is moved by the opcode's stack effect, or `stack_effect` refusing it is a `ValueError` after the append |
| CodeCreator.CodeGenerator.AddAll | code_creator.py:88-93 | each instruction of the body is `add_ins`: on success the entries are `[opcode, argument]` per instruction in order and the stack moves by their effects; it fails exactly at the first refused instruction, with its exception, after that one's entries; on both outcomes the sizes recorded are one per accepted instruction (`Running`), and the maximum stack size becomes the larger of the old one and the largest of them |
| CodeCreator.CodeGenerator.JumpThen | code_creator.py:55-60 | the jump, then the block when the jump went in: the entries, stack size, sizes recorded and maximum stack size on both outcomes, success exactly when the jump and every instruction are accepted, and otherwise the first refusal's exception |
| CodeCreator.CodeGenerator.JumpCompletes | code_creator.py:55-60 | a jump and block that both go through append the jump's entries then two per instruction, and move the stack by all their effects |
| CodeCreator.CodeGenerator.JumpForward | code_creator.py:55-60 | the jump opcode with a new `Partial`, then the body, are appended; on both outcomes the stack size, the sizes recorded and the maximum stack size are those of the jump and the accepted part of the body; on success the partial holds the body's length in instructions plus `add`; earlier partials, tables and line table are unchanged; a failure leaves the partial unset and carries the first refusal's exception |
| CodeCreator.CodeGenerator.JumpTo | code_creator.py:68-73 | the same shape, with the partial holding the instruction index after the body plus `add` |
| CodeCreator.CodeGenerator.JumpAbsBack | code_creator.py:62-66 | the body, then `JUMP_ABSOLUTE` to the index where the body started, are appended; it succeeds exactly when every instruction does, and otherwise carries the first refusal's exception; on both outcomes the stack size, sizes recorded and maximum stack size follow the accepted instructions; partials, tables and line table are unchanged |
| CodeCreator.CodeGenerator.AddToLnotab | code_creator.py:95-100 | the loop appends what `LnotabAppend` says, with an `OverflowError` where `to_bytes` raises |
| CodeCreator.CodeGenerator.NextLine | code_creator.py:102-112 | the line table moves as the corrected `next_line` says; it keeps the account and moves the line by `nlines` |
| CodeCreator.CodeGenerator.GoLine | code_creator.py:114-117 | the line table moves as `go_line` over the corrected `next_line` says, landing on `lineno` and keeping the account |
| CodeCreator.CodeGenerator.EntryByte | code_creator.py:124-131 | one entry is encoded as `EncodeEntry` says |
| CodeCreator.CodeGenerator.GetCodebytes | code_creator.py:121-132 | the loop gives the bytes and tables `Encode` gives, or its error |
| CodeCreator.CodeGenerator.Build | code_creator.py:134-160 | it succeeds exactly when the closing `next_line(0)` and the encoding from empty tables both do; the code object holds the maximum stack size, that encoding and its tables, and a line table whose spans cover every entry; afterwards the line table is the one `next_line(0)` left, the tables are the encoding's (or the old ones when `next_line` failed), a failure carries `next_line`'s or the encoding's exception, and instructions, partials and stack sizes are unchanged |
| CodeCreator.LineNumbersExample | tests/tests_codecreator/test.py:26-37 | the test's line moves give line spans `(0, 2, 0), (2, 4, 1), (4, 8, 5)` |

## Left out

- I/O is left out: the file reading and the REPL of `croco/`, and the interpreter's own `opcode` tables. `opmap`, `HAVE_ARGUMENT` and `stack_effect` are parameters of the generator; `stack_effect` is a table from (opcode, argument) to effect, and an opcode it does not know is a `ValueError`.
- `CodeType` construction is not modelled: `build` returns a record of the fields it passes. The argument counts, `nlocals` and `flags`, which are always 0, are left out. So is `co_lines`, which is CPython's own reading of the table; `SpanLines` restates it only for the line-number test.
- Emission of bytecode from the syntax tree is not modelled (`to_expr_code`, `to_stmt_code`, `store` as code, `add_else_clause`), nor are `croco/parser/syntax.py`, `__init__.py`, `encoder.py` and `repl.py`. `Store` models only which nodes `store` refuses.
- The `with` blocks of `jump_forward`, `jump_to` and `jump_abs_back` are modelled as a sequence of `(opcode, argument)` instructions emitted in between. The generator's other calls made inside a block are not modelled.
- `Partial` cells are modelled as numbered cells held by the generator (`partials`). A `Partial` that flows into the instruction list is an entry naming its cell, so aliasing of one cell from two places is modelled only through the shared number.
- `CodeCreator.CodeGenerator.AddIns`: `__add__`'s tuple spreading is folded into it. An argument that is neither an int, a `Vue` nor a `Partial` is one entry kind (`Other`), refused when encoding.
- Python's equality quirks are not modelled. `True == 1` makes `in` and `index` over the constants merge `True` with `1`; here the constants are ints and strings compared structurally.
- The engine has no `None` value. A factory is never `None`, and user factories are total functions given by number that never return `None`. `EngineProps.FailureRestoresCursor` depends on this: in Python, `Str("a").set_factory(lambda v: None)` on "a" gives `(None, 1)`, a failure that moved the cursor (parser_v2/struct.py:34-40). Exceptions that a user factory raises, and the message formatting of `Expected` (`str.format` with `i`, `code`, `ns`, `line`, `col`), are left out; `Expected` raises its type, message and line.
- `set_factory`, `final` and `set_indexes` change a combinator in place in Python. Here they return the changed value, so a grammar that shares one combinator object in two places and changes it afterwards is not modelled.
- `DBG_MODE` printing, every `__repr__`/`__str__`, and `__set_name__` naming are left out.
- The engine parses a fully buffered source (the string a stopped `CharStream` holds). `CharStreams.StoppedStartsWith` ties the lazy stream to it. Pulling input while a parse runs is modelled only by the `CharStream` class itself.
- Negative start offsets and `Structure(…, parser=p)` self-registration are not modelled. The latter calls `add_struct` during construction.
- `OldParser.Parser.constructor` requires that every given combinator has a `name` attribute. Python raises `AttributeError` while building the dict; that path is modelled by `AddStruct`.
- `OldParser.Parser.SetItem` takes a typed setting. A value of the wrong kind for the key is a `TypeError` here, while Python's `setattr` stores anything.
- `OldStructs.NewRepeat`: the error for a pair given with `maxi` is raised at construction. In Python it only surfaces when the pair is unpacked or compared.
- `CrocoAst.AffectationFromToks` refuses a value or an in-place operator of the wrong kind with a `SyntaxError`. Python would build the node and fail later.
- `CrocoAst.NumberFromToks` accepts only ASCII digits. The signs, surrounding whitespace and underscores that `int()` also accepts are not modelled.
- `CrocoAst.StringFromToks` states the text's length only. Its content is stated by `FactoriesSeeSource` over tokens that lie back to back.
- Syntax tree nodes are values, not objects. `VarName.ctx` is not kept, and the object or block filled in later by the grammar is an `Option`.
- `CrocoPasses.FirstPassModule`: Python's `first_pass` returns `None` for an assignment and a collection. This is kept at the top, where it is visible; below the top, results are discarded as in Python.
- `Engine.Parse`, `Engine.Raw`, `Engine.AnyLoop`: their own contract is only the placement guarantee. What each combinator does is stated by the `EngineProps` lemmas and the `EngineLoops` methods.
- `OldStructs.Extract`, `OldStructs.FirstFrom`: likewise, what each older combinator does is stated by the `OldStructProps` lemmas.
- The return value `self` of `next_line`, `go_line` and `__add__`, used for chaining, is not modelled.
- The engine and the generator run the corrected rules of the Findings table, not the code as written. `Engine.MatchText`, the `Not` case of `Engine.Raw`, `Positions.Cursor.AddInPlace` and `Driver.Run`'s start cursor advance with the corrected `Positions.Add`. `CodeCreator.CodeGenerator.NextLine`, `GoLine` and `Build` follow the corrected `CodeTables.NextLine`. The code as written is modelled only by the as-written members named in that table.
- `Grammar.RepeatOf`: the engine has no `None` value, so `a * (mini, None)` (an explicit unbounded maximum) cannot be written; and any fourth positional argument becomes a factory that is not callable, so a callable factory passed by position is not modelled.
- `Not.increment` is a natural number here. Python accepts any int; a negative increment is not modelled.
- `OldStructs.SeqFrom` states only the keys of the `AST` it gives. The values saved, the token count and when the sequence fails are stated by `OldSeqProps.SequenceCons`, for any number of parts.
- `OldStructs.SkipSeps` states only those keys too; `OldSeqProps.SkipSepsIsSepRun` and `OldSeqProps.SequenceCons` state the rest.
- `OldStructs.SeqPart` states only those keys too; `OldSeqProps.SeqPartFirst` and `OldSeqProps.SequenceCons` state the rest.
- `Driver.AbcOrDefAcceptsAbc` is proved for a `CharStream` source. The test's own call passes a plain string, which the `Indexer` refuses (see Findings).
- `Driver.AbcOrDefAcceptsDef` is proved for a `CharStream` source, for the same reason.
- `Driver.AbcOrDefRejectsGhi` is proved for a `CharStream` source; on the plain string the test passes, the call raises `RuntimeError`, not `SyntaxError`.
- `join_elses` and `assign_block` in `croco/parser/syntax.py`, which attach blocks and else clauses while parsing, are not modelled; the tree is built with those parts already in place.

## Findings

| source | as written | input that shows it | evidently intended | confidence | as-written member | corrected member |
|---|---|---|---|---|---|---|
| parser_v2/token.py:19 | the new column counts from the last newline at or before `new_i`, because the search bound is `new_i+1` | on "a\nb\n", advancing from offset 0 by 3 in one step gives column 0, while two steps and the token's end column give 2 | count from the last newline strictly before `new_i`, so that advancing is additive and agrees with the token | high (not executed) | Positions.AsWrittenColumnCounterexample | Positions.Add (with Positions.CorrectedColumnExample, Positions.AddAdditive) |
| parser_v2/parser.py:38 | `namespace \| ns` with the default `namespace=None` | `parse(A, "abc")` as the parser's own test calls it raises `TypeError` | use the keywords alone when no namespace is given | high (not executed) | Driver.ModuleParseAsWritten (with Driver.ModuleParseDefaultNamespace) | Driver.ModuleParse |
| code_creator.py:104-105 | `next_line` returns at once when no instruction was added since the last mark, dropping `nlines` | `next_line(2)` on a fresh generator, as the module's demonstration at line 204 starts, leaves the line at 0; one instruction, `go_line(3)`, `go_line(7)` leaves the table accounting for line 3 only | add `nlines` to the delta still to record and to the current line | medium (not executed) | CodeTables.NextLineDropsLinesAsWritten (with CodeTables.GoLineLosesAccountAsWritten) | CodeTables.NextLine (with CodeTables.NextLineKeepsAccount) |
| tests/tests_parserv2/test_parser.py:11 | the test calls `A("abc")` with a plain string, but `_parse` builds `Indexer(code)`, whose constructor refuses anything but a `CharStream` (parser_v2/token.py:9-10) | `A("abc")`, `A("def")` and `A("ghi")` all raise `RuntimeError` (a bare `raise`) before any rule is tried | the source reaches the parser as a `CharStream`, and then "abc" and "def" parse and "ghi" is a `SyntaxError` | medium (not executed) | Driver.AbcOrDefOnPlainStringRaises | Driver.AbcOrDefAcceptsAbc |
