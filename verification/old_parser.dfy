/** The `Parser` object of the older engine: escape characters, the named
    combinators usable through `StructGetter`, and a default major structure;
    parsing lexes the input and extracts the major structure from the tokens. */
module OldParser {
  import opened Base
  import opened Lexer
  import opened OldStructs

  /** The `name` attribute of a combinator: `Structure` and `StructGetter`
      have one (a `Structure` may have `None`); the others have none, and
      reading it is an `AttributeError`. */
  function StructName(s: OStruct): (r: Result<Option<string>, OErr>)
    ensures r.Ok? <==> s.Structure? || s.StructGetter?
    ensures s.Structure? ==> r == Ok(s.name)
    ensures s.StructGetter? ==> r == Ok(Some(s.getName))
  {
    match s
    case Structure(name, _, _) => Ok(name)
    case StructGetter(name, _) => Ok(Some(name))
    case _ => Err(AttributeError)
  }

  /** Whether every combinator in `structs` has a `name` attribute. */
  predicate AllNamed(structs: seq<OStruct>)
  {
    forall k :: 0 <= k < |structs| ==> StructName(structs[k]).Ok?
  }

  /** `{struct.name: struct for struct in structs}`: read from the left, so a
      later combinator with the same name replaces an earlier one. */
  function NameMap(structs: seq<OStruct>): (r: StructMap)
    requires AllNamed(structs)
    ensures forall n :: n in r ==> StructName(r[n]) == Ok(n)
    ensures structs != [] ==> var last := structs[|structs| - 1];
                              StructName(last).value in r && r[StructName(last).value] == last
    decreases |structs|
  {
    if structs == [] then map[]
    else
      var last := structs[|structs| - 1];
      NameMap(structs[..|structs| - 1])[StructName(last).value := last]
  }

  /** The map holds every given name, and each name is bound to the last
      combinator carrying it. */
  lemma {:induction false} NameMapLastWins(structs: seq<OStruct>)
    requires AllNamed(structs)
    ensures forall k :: 0 <= k < |structs| ==> StructName(structs[k]).value in NameMap(structs)
    ensures forall n :: n in NameMap(structs) ==>
              exists k :: 0 <= k < |structs| && StructName(structs[k]).value == n && NameMap(structs)[n] == structs[k]
                          && forall j :: k < j < |structs| ==> StructName(structs[j]).value != n
    decreases |structs|
  {
    if structs != [] {
      var init := structs[..|structs| - 1];
      assert AllNamed(init) by {
        forall k | 0 <= k < |init| ensures StructName(init[k]).Ok? {
          assert init[k] == structs[k];
        }
      }
      NameMapLastWins(init);
      LastWinsStep(structs, init, NameMap(init), NameMap(structs));
    }
    NameMapHoldsAll(structs);
  }

  /** Binding the last combinator's name to it, on top of a map in which
      every name is bound to the last of the earlier combinators carrying
      it, gives a map with the same property for all of them. */
  lemma LastWinsStep(structs: seq<OStruct>, init: seq<OStruct>, mi: StructMap, m: StructMap)
    requires AllNamed(structs) && structs != [] && init == structs[..|structs| - 1] && AllNamed(init)
    requires m == mi[StructName(structs[|structs| - 1]).value := structs[|structs| - 1]]
    requires forall n :: n in mi ==>
               exists k :: 0 <= k < |init| && StructName(init[k]).value == n && mi[n] == init[k]
                           && forall j :: k < j < |init| ==> StructName(init[j]).value != n
    ensures forall n :: n in m ==>
              exists k :: 0 <= k < |structs| && StructName(structs[k]).value == n && m[n] == structs[k]
                          && forall j :: k < j < |structs| ==> StructName(structs[j]).value != n
  {
    var last := structs[|structs| - 1];
    forall n | n in m
      ensures exists k :: 0 <= k < |structs| && StructName(structs[k]).value == n && m[n] == structs[k]
                          && forall j :: k < j < |structs| ==> StructName(structs[j]).value != n
    {
      if n == StructName(last).value {
        assert StructName(structs[|structs| - 1]).value == n && m[n] == structs[|structs| - 1];
      } else {
        assert n in mi && m[n] == mi[n];
        var k :| 0 <= k < |init| && StructName(init[k]).value == n && mi[n] == init[k]
                 && forall j :: k < j < |init| ==> StructName(init[j]).value != n;
        assert structs[k] == init[k];
        forall j | k < j < |structs| ensures StructName(structs[j]).value != n {
          if j < |init| {
            assert structs[j] == init[j];
          }
        }
      }
    }
  }

  /** Every given name is in the map. */
  lemma {:induction false} NameMapHoldsAll(structs: seq<OStruct>)
    requires AllNamed(structs)
    ensures forall k :: 0 <= k < |structs| ==> StructName(structs[k]).value in NameMap(structs)
    decreases |structs|
  {
    if structs != [] {
      var init := structs[..|structs| - 1];
      assert AllNamed(init) by {
        forall k | 0 <= k < |init| ensures StructName(init[k]).Ok? {
          assert init[k] == structs[k];
        }
      }
      NameMapHoldsAll(init);
      forall k | 0 <= k < |structs| ensures StructName(structs[k]).value in NameMap(structs) {
        if k < |init| {
          assert structs[k] == init[k];
        }
      }
    }
  }

  /** The two settings `Parser` accepts through item access, with their values. */
  datatype Setting = EscapeChars(chars: set<char>) | MajorStruct(major: Option<OStruct>)

  /** The default escape characters: a lone backslash. */
  const DefaultEscapeChars: set<char> := {'\\'}

  class Parser {
    var escapeChars: set<char>
    var structMap: StructMap
    var majorstruct: Option<OStruct>

    /** `Parser(escape_chars, structs, majorstruct)`: each combinator is
        registered under its name, built one entry at a time. */
    constructor (escapeChars: set<char>, structs: seq<OStruct>, majorstruct: Option<OStruct>)
      requires AllNamed(structs)
      ensures this.escapeChars == escapeChars && this.majorstruct == majorstruct
      ensures structMap == NameMap(structs)
    {
      this.escapeChars := escapeChars;
      this.majorstruct := majorstruct;
      var m: StructMap := map[];
      for k := 0 to |structs|
        invariant m == NameMap(structs[..k])
      {
        assert structs[..k + 1][..k] == structs[..k];
        m := m[StructName(structs[k]).value := structs[k]];
      }
      assert structs[..|structs|] == structs;
      structMap := m;
    }

    /** `parser[key]`: only the keys `escape_chars` and `majorstruct` exist. */
    function GetItem(key: string): (r: Result<Setting, OErr>)
      reads this
      ensures r.Err? <==> key != "escape_chars" && key != "majorstruct"
      ensures r.Err? ==> r.error == KeyError
      ensures key == "escape_chars" ==> r == Ok(EscapeChars(escapeChars))
      ensures key == "majorstruct" ==> r == Ok(MajorStruct(majorstruct))
    {
      if key == "escape_chars" then Ok(EscapeChars(escapeChars))
      else if key == "majorstruct" then Ok(MajorStruct(majorstruct))
      else Err(KeyError)
    }

    /** `parser[key] = value`: a key outside the two settings is a `KeyError`
        and changes nothing; otherwise reading the key back gives the value. */
    method SetItem(key: string, value: Setting) returns (r: Result<(), OErr>)
      modifies this
      ensures structMap == old(structMap)
      ensures key != "escape_chars" && key != "majorstruct" ==>
                r == Err(KeyError) && escapeChars == old(escapeChars) && majorstruct == old(majorstruct)
      ensures r.Ok? ==> GetItem(key) == Ok(value)
      ensures key == "escape_chars" && value.MajorStruct? ==> r == Err(TypeError) && unchanged(this)
      ensures key == "majorstruct" && value.EscapeChars? ==> r == Err(TypeError) && unchanged(this)
      ensures key == "escape_chars" && value.EscapeChars? ==>
                r.Ok? && escapeChars == value.chars && majorstruct == old(majorstruct)
      ensures key == "majorstruct" && value.MajorStruct? ==>
                r.Ok? && majorstruct == value.major && escapeChars == old(escapeChars)
    {
      if key == "escape_chars" {
        if value.EscapeChars? {
          escapeChars := value.chars;
          r := Ok(());
        } else {
          r := Err(TypeError);
        }
      } else if key == "majorstruct" {
        if value.MajorStruct? {
          majorstruct := value.major;
          r := Ok(());
        } else {
          r := Err(TypeError);
        }
      } else {
        r := Err(KeyError);
      }
    }

    /** `parse(string, majorstruct)`: the argument, else the stored major
        structure (a `ValueError` when neither is set); the input is lexed
        with the parser's escape characters (a dangling marker fails) and the
        major structure extracted from the tokens. Nothing requires that all
        of them be used. */
    function Parse(fuel: nat, s: string, major: Option<OStruct>): (o: XOutcome)
      reads this
      ensures major.None? && majorstruct.None? ==> o == XRaise(ValueError)
      ensures (major.Some? || majorstruct.Some?) && Lex(s, escapeChars).Err? ==> o == XRaise(LexFailed)
      ensures o.Got? ==> o.used <= |s| && (o.value.None? ==> o.used == 0)
      ensures major.Some? && Lex(s, escapeChars).Ok? ==>
                o == Extract(fuel, major.value, Lex(s, escapeChars).value, structMap)
    {
      var chosen := if major.Some? then major else majorstruct;
      if chosen.None? then XRaise(ValueError)
      else
        match Lex(s, escapeChars)
        case Err(_) => XRaise(LexFailed)
        case Ok(toks) => Extract(fuel, chosen.value, toks, structMap)
    }

    /** `add_struct(struct)`: a named combinator is registered (replacing any
        previous one of that name); an unnamed one is a `ValueError`, and one
        without a `name` attribute an `AttributeError`; neither changes the map. */
    method AddStruct(st: OStruct) returns (r: Result<(), OErr>)
      modifies this
      ensures escapeChars == old(escapeChars) && majorstruct == old(majorstruct)
      ensures StructName(st).Err? ==> r == Err(AttributeError) && structMap == old(structMap)
      ensures StructName(st) == Ok(None) ==> r == Err(ValueError) && structMap == old(structMap)
      ensures StructName(st).Ok? && StructName(st).value.Some? ==>
                r.Ok? && structMap == old(structMap)[StructName(st).value := st]
    {
      match StructName(st)
      case Err(e) =>
        r := Err(e);
      case Ok(name) =>
        if name.None? {
          r := Err(ValueError);
        } else {
          structMap := structMap[name := st];
          r := Ok(());
        }
    }
  }

  /** An input without escape markers lexes to one plain token per character. */
  lemma {:induction false} LexPlain(s: string, esc: set<char>)
    requires forall k :: 0 <= k < |s| ==> s[k] !in esc
    ensures Lex(s, esc) == Ok(PlainTokens(s))
    decreases |s|
  {
    if s != [] {
      LexPlain(s[1..], esc);
      assert PlainTokens(s) == [CharToken(s[0], false)] + PlainTokens(s[1..]);
    }
  }

  /** `parse` does not insist on reaching the end: a `String` major structure
      matches the front of a longer input and reports only the characters
      it used. */
  lemma ParseStopsAfterPrefix(p: Parser, fuel: nat, str: string, rest: string)
    requires forall k :: 0 <= k < |str + rest| ==> (str + rest)[k] !in p.escapeChars
    ensures p.Parse(fuel, str + rest, Some(String(str))) == Got(Some(Text(str)), |str|)
  {
    LexPlain(str + rest, p.escapeChars);
    assert PlainTokens(str + rest) == PlainTokens(str) + PlainTokens(rest);
    StringMatchesPrefix(str, PlainTokens(rest));
  }

  /** The argument wins over the stored major structure. */
  lemma ParseArgumentOverridesStored(p: Parser, fuel: nat, s: string, major: OStruct)
    ensures p.Parse(fuel, s, Some(major)) == if Lex(s, p.escapeChars).Err? then XRaise(LexFailed)
                                             else Extract(fuel, major, Lex(s, p.escapeChars).value, p.structMap)
    ensures p.majorstruct.Some? ==> p.Parse(fuel, s, None) == p.Parse(fuel, s, p.majorstruct)
  {
  }
}
