/** The lexer of the older `parser/` engine (`tokennify`): a string becomes a
    list of `CharToken`s; an escape character is dropped and marks the next
    character as escaped. */
module Lexer {
  import opened Base

  /** A character of the input and whether an escape marker preceded it.
      Two tokens are equal exactly when both fields are, as `CharToken.__eq__`
      compares them. */
  datatype CharToken = CharToken(ch: char, isEscaped: bool)

  /** The exception raised for an escape marker with nothing after it. */
  datatype LexError = EndAfterEscape

  /** What `tokennify(s, esc)` produces, read from the left. */
  function Lex(s: string, esc: set<char>): (r: Result<seq<CharToken>, LexError>)
    ensures r.Ok? ==> |r.value| <= |s|
    ensures r.Ok? && s != [] && s[0] !in esc ==> r.value != [] && r.value[0] == CharToken(s[0], false)
    ensures r.Ok? && |s| >= 2 && s[0] in esc ==> r.value != [] && r.value[0] == CharToken(s[1], true)
    decreases |s|
  {
    if s == [] then Ok([])
    else if s[0] in esc then
      if |s| == 1 then Err(EndAfterEscape)
      else
        match Lex(s[2..], esc)
        case Err(e) => Err(e)
        case Ok(ts) => Ok([CharToken(s[1], true)] + ts)
    else
      match Lex(s[1..], esc)
      case Err(e) => Err(e)
      case Ok(ts) => Ok([CharToken(s[0], false)] + ts)
  }

  /** `ts` in front of a lexing result. */
  function Prefixed(ts: seq<CharToken>, r: Result<seq<CharToken>, LexError>): Result<seq<CharToken>, LexError>
  {
    match r
    case Err(e) => Err(e)
    case Ok(us) => Ok(ts + us)
  }

  /** One token taken off the front of the input and put at the back of the output. */
  lemma PrefixedStep(ts: seq<CharToken>, t: CharToken, r: Result<seq<CharToken>, LexError>)
    ensures Prefixed(ts, Prefixed([t], r)) == Prefixed(ts + [t], r)
  {
    if r.Ok? {
      assert ts + ([t] + r.value) == (ts + [t]) + r.value;
    }
  }

  /** `tokennify`: one pass over the string with a running index. */
  method Tokennify(s: string, esc: set<char>) returns (r: Result<seq<CharToken>, LexError>)
    ensures r == Lex(s, esc)
  {
    var tokens: seq<CharToken> := [];
    var i := 0;
    assert s[0..] == s;
    assert Lex(s, esc).Ok? ==> [] + Lex(s, esc).value == Lex(s, esc).value;
    while i < |s|
      invariant i <= |s|
      invariant Lex(s, esc) == Prefixed(tokens, Lex(s[i..], esc))
    {
      if s[i] in esc {
        i := i + 1;
        if i == |s| {
          return Err(EndAfterEscape);
        }
        assert s[i - 1..][2..] == s[i + 1..];
        PrefixedStep(tokens, CharToken(s[i], true), Lex(s[i + 1..], esc));
        tokens := tokens + [CharToken(s[i], true)];
      } else {
        assert s[i..][1..] == s[i + 1..];
        PrefixedStep(tokens, CharToken(s[i], false), Lex(s[i + 1..], esc));
        tokens := tokens + [CharToken(s[i], false)];
      }
      i := i + 1;
    }
    assert s[i..] == [];
    r := Ok(tokens);
    assert tokens + [] == tokens;
  }

  /** Writing tokens back with the marker `m`: an escaped token as `m` and its
      character, any other as its character alone. */
  function Escape(ts: seq<CharToken>, m: char): (s: string)
    ensures |s| == |ts| + EscapedCount(ts)
    decreases |ts|
  {
    if ts == [] then []
    else (if ts[0].isEscaped then [m, ts[0].ch] else [ts[0].ch]) + Escape(ts[1..], m)
  }

  /** How many tokens are escaped. */
  function EscapedCount(ts: seq<CharToken>): nat
    decreases |ts|
  {
    if ts == [] then 0 else (if ts[0].isEscaped then 1 else 0) + EscapedCount(ts[1..])
  }

  /** Lexing loses nothing: with a single marker, writing the tokens back
      gives the input again. */
  lemma {:induction false} LexThenEscape(s: string, m: char)
    requires Lex(s, {m}).Ok?
    ensures Escape(Lex(s, {m}).value, m) == s
    decreases |s|
  {
    if s != [] {
      var ts := Lex(s, {m}).value;
      if s[0] == m {
        LexThenEscape(s[2..], m);
        assert ts[1..] == Lex(s[2..], {m}).value;
        assert s == [m, s[1]] + s[2..];
      } else {
        LexThenEscape(s[1..], m);
        assert ts[1..] == Lex(s[1..], {m}).value;
        assert s == [s[0]] + s[1..];
      }
    }
  }

  /** No unescaped token carries the marker. */
  predicate MarkerOnlyEscaped(ts: seq<CharToken>, m: char)
  {
    forall k :: 0 <= k < |ts| && !ts[k].isEscaped ==> ts[k].ch != m
  }

  /** Lexing undoes escaping: any token list whose unescaped tokens avoid the
      marker comes back from its written form unchanged. */
  lemma {:induction false} EscapeThenLex(ts: seq<CharToken>, m: char)
    requires MarkerOnlyEscaped(ts, m)
    ensures Lex(Escape(ts, m), {m}) == Ok(ts)
    decreases |ts|
  {
    if ts != [] {
      var s := Escape(ts, m);
      assert MarkerOnlyEscaped(ts[1..], m) by {
        forall k | 0 <= k < |ts[1..]| && !ts[1..][k].isEscaped
          ensures ts[1..][k].ch != m
        {
          assert ts[1..][k] == ts[k + 1];
        }
      }
      EscapeThenLex(ts[1..], m);
      if ts[0].isEscaped {
        assert s[2..] == Escape(ts[1..], m);
      } else {
        assert s[1..] == Escape(ts[1..], m);
      }
      assert ts == [ts[0]] + ts[1..];
    }
  }

  /** Every character that is not a marker yields an unescaped token and
      every marker is consumed, so no unescaped token is a marker. */
  lemma {:induction false} LexPlainTokensAreNotMarkers(s: string, esc: set<char>)
    requires Lex(s, esc).Ok?
    ensures forall k :: 0 <= k < |Lex(s, esc).value| && !Lex(s, esc).value[k].isEscaped ==>
              Lex(s, esc).value[k].ch !in esc
    decreases |s|
  {
    if s != [] {
      var ts := Lex(s, esc).value;
      var rest := if s[0] in esc then s[2..] else s[1..];
      LexPlainTokensAreNotMarkers(rest, esc);
      assert ts[1..] == Lex(rest, esc).value;
      forall k | 0 < k < |ts|
        ensures ts[k] == Lex(rest, esc).value[k - 1]
      {
      }
    }
  }

  /** Token count: the input's length less one per consumed marker. */
  lemma {:induction false} LexCount(s: string, esc: set<char>)
    requires Lex(s, esc).Ok?
    ensures |s| == |Lex(s, esc).value| + EscapedCount(Lex(s, esc).value)
    decreases |s|
  {
    if s != [] {
      var ts := Lex(s, esc).value;
      var rest := if s[0] in esc then s[2..] else s[1..];
      LexCount(rest, esc);
      assert ts[1..] == Lex(rest, esc).value;
    }
  }

  /** Lexing fails only on input that ends with a marker. */
  lemma {:induction false} LexFailsOnlyAtTrailingMarker(s: string, esc: set<char>)
    requires Lex(s, esc).Err?
    ensures s != [] && s[|s| - 1] in esc
    decreases |s|
  {
    if s[0] in esc && |s| == 1 {
    } else {
      var rest := if s[0] in esc then s[2..] else s[1..];
      LexFailsOnlyAtTrailingMarker(rest, esc);
      assert s[|s| - 1] == rest[|rest| - 1];
    }
  }

  /** A marker appended to input that lexes is left dangling: an error. */
  lemma {:induction false} LexTrailingMarkerFails(s: string, esc: set<char>, m: char)
    requires Lex(s, esc).Ok? && m in esc
    ensures Lex(s + [m], esc).Err?
    decreases |s|
  {
    if s == [] {
      assert s + [m] == [m];
    } else {
      var rest := if s[0] in esc then s[2..] else s[1..];
      LexTrailingMarkerFails(rest, esc, m);
      if s[0] in esc {
        assert (s + [m])[2..] == rest + [m];
      } else {
        assert (s + [m])[1..] == rest + [m];
      }
    }
  }
}
