/**
 * The slash-command parser (src/utils/commands.ts).
 *
 * `ParseCommand` follows the source step by step: trim the input, split it on
 * runs of whitespace, lower-case the first part and switch on it; `/agent` and
 * `/session` carry the remaining parts joined by single spaces. `Tokens`, the
 * maximal runs of non-whitespace characters, is an independent description of
 * the same input, and the lemmas state the parser's behaviour in its terms.
 */
module Commands {
  import opened Wrappers

  /** The characters JavaScript's `trim` removes and its `\s` matches: white space and line terminators. */
  predicate IsWhitespace(c: char)
  {
    c == '\t' || c == '\n' || c == '\U{000B}' || c == '\U{000C}' || c == '\r' || c == ' ' ||
    c == '\U{00A0}' || c == '\U{1680}' || ('\U{2000}' <= c <= '\U{200A}') ||
    c == '\U{2028}' || c == '\U{2029}' || c == '\U{202F}' || c == '\U{205F}' ||
    c == '\U{3000}' || c == '\U{FEFF}'
  }

  predicate AllWhitespace(s: string)
  {
    forall i :: 0 <= i < |s| ==> IsWhitespace(s[i])
  }

  predicate NoWhitespace(s: string)
  {
    forall i :: 0 <= i < |s| ==> !IsWhitespace(s[i])
  }

  // ---------------------------------------------------------------------------
  // The string operations the parser uses

  /** Removes the leading whitespace. */
  function TrimStart(s: string): (r: string)
    ensures |r| <= |s| && r == s[|s| - |r|..]
    ensures AllWhitespace(s[..|s| - |r|])
    ensures r == [] || !IsWhitespace(r[0])
  {
    if s != [] && IsWhitespace(s[0]) then
      var r := TrimStart(s[1..]);
      assert s[..|s| - |r|] == [s[0]] + s[1..][..|s| - 1 - |r|];
      r
    else
      s
  }

  /** Removes the trailing whitespace. */
  function TrimEnd(s: string): (r: string)
    ensures |r| <= |s| && r == s[..|r|]
    ensures AllWhitespace(s[|r|..])
    ensures r == [] || !IsWhitespace(r[|r| - 1])
  {
    if s != [] && IsWhitespace(s[|s| - 1]) then
      var r := TrimEnd(s[..|s| - 1]);
      assert s[|r|..] == s[..|s| - 1][|r|..] + [s[|s| - 1]];
      r
    else
      s
  }

  /** JavaScript's `trim`: the input without its leading and trailing whitespace. */
  function Trim(s: string): (r: string)
    ensures r == [] || (!IsWhitespace(r[0]) && !IsWhitespace(r[|r| - 1]))
  {
    TrimStart(TrimEnd(s))
  }

  /** The index of the first whitespace character, or `|s|` when there is none. */
  function FirstWs(s: string): (i: nat)
    ensures i <= |s|
    ensures NoWhitespace(s[..i])
    ensures i < |s| ==> IsWhitespace(s[i])
  {
    if s == [] || IsWhitespace(s[0]) then 0
    else
      var i := 1 + FirstWs(s[1..]);
      assert s[..i] == [s[0]] + s[1..][..i - 1];
      i
  }

  /**
   * JavaScript's `s.split(/\s+/)`: the pieces between maximal runs of
   * whitespace, with an empty piece before a leading run and after a trailing
   * one; the empty string splits into one empty piece.
   */
  function SplitWs(s: string): (parts: seq<string>)
    ensures parts != []
    decreases |s|
  {
    var i := FirstWs(s);
    if i == |s| then [s]
    else [s[..i]] + SplitWs(TrimStart(s[i..]))
  }

  /** JavaScript's `parts.join(' ')`. */
  function JoinSpace(parts: seq<string>): string
  {
    if parts == [] then ""
    else if |parts| == 1 then parts[0]
    else parts[0] + " " + JoinSpace(parts[1..])
  }

  function LowerChar(c: char): char
  {
    if 'A' <= c <= 'Z' then (c as int + 32) as char else c
  }

  /** Lower-cases the ASCII letters and keeps every other character. */
  function AsciiLower(s: string): (r: string)
    ensures |r| == |s|
    ensures forall i :: 0 <= i < |s| ==> r[i] == LowerChar(s[i])
  {
    seq(|s|, i requires 0 <= i < |s| => LowerChar(s[i]))
  }

  // ---------------------------------------------------------------------------
  // The parser

  datatype CommandKind = Agent | Session | Memory | Config | Help | Export | Unknown

  /** The parsed command; only `Agent` and `Session` carry a payload. */
  datatype CommandAction = CommandAction(kind: CommandKind, payload: Option<string>)

  /** The switch on the lower-cased command word. */
  function CommandFor(command: string, payload: string): (a: CommandAction)
    ensures a.payload.Some? <==> a.kind == Agent || a.kind == Session
    ensures a.payload.Some? ==> a.payload.value == payload
  {
    if command == "/agent" then CommandAction(Agent, Some(payload))
    else if command == "/session" then CommandAction(Session, Some(payload))
    else if command == "/memory" then CommandAction(Memory, None)
    else if command == "/config" then CommandAction(Config, None)
    else if command == "/help" then CommandAction(Help, None)
    else if command == "/export" then CommandAction(Export, None)
    else CommandAction(Unknown, None)
  }

  /** Parses a line of user input into a command; defined on every input. */
  function ParseCommand(text: string): (a: CommandAction)
    ensures a.payload.Some? <==> a.kind == Agent || a.kind == Session
  {
    var parts := SplitWs(Trim(text));
    CommandFor(AsciiLower(parts[0]), JoinSpace(parts[1..]))
  }

  // ---------------------------------------------------------------------------
  // Tokens: the reference description of the input

  /** A possible token: non-empty, without whitespace. */
  predicate IsToken(w: string)
  {
    w != [] && NoWhitespace(w)
  }

  /** The maximal runs of non-whitespace characters, in order; each is non-empty and holds no whitespace. */
  function Tokens(s: string): (toks: seq<string>)
    ensures forall k :: 0 <= k < |toks| ==> IsToken(toks[k])
    decreases |s|
  {
    var t := TrimStart(s);
    if t == [] then []
    else
      var i := FirstWs(t);
      assert IsToken(t[..i]);
      [t[..i]] + Tokens(t[i..])
  }

  /** A payload as `ParseCommand` produces it: each whitespace character is a single space between two tokens. */
  predicate IsNormalised(p: string)
  {
    forall i :: 0 <= i < |p| && IsWhitespace(p[i]) ==>
      p[i] == ' ' && 0 < i < |p| - 1 && !IsWhitespace(p[i + 1])
  }

  lemma {:induction false} TrimStartOfWhitespace(lead: string, s: string)
    requires AllWhitespace(lead)
    ensures TrimStart(lead + s) == TrimStart(s)
    decreases |lead|
  {
    if lead != [] {
      assert (lead + s)[1..] == lead[1..] + s;
      TrimStartOfWhitespace(lead[1..], s);
    } else {
      assert lead + s == s;
    }
  }

  lemma {:induction false} TrimStartAppend(s: string, e: string)
    requires !AllWhitespace(s)
    ensures TrimStart(s + e) == TrimStart(s) + e
    decreases |s|
  {
    if IsWhitespace(s[0]) {
      assert (s + e)[1..] == s[1..] + e;
      assert !AllWhitespace(s[1..]) by {
        var j :| 0 <= j < |s| && !IsWhitespace(s[j]);
        assert s[1..][j - 1] == s[j];
      }
      TrimStartAppend(s[1..], e);
    }
  }

  lemma {:induction false} FirstWsAppend(u: string, e: string)
    requires e == [] || IsWhitespace(e[0])
    ensures FirstWs(u + e) == FirstWs(u)
    decreases |u|
  {
    if u == [] {
      assert u + e == e;
    } else if !IsWhitespace(u[0]) {
      assert (u + e)[1..] == u[1..] + e;
      FirstWsAppend(u[1..], e);
    }
  }

  lemma TrimStartTwice(s: string)
    ensures TrimStart(TrimStart(s)) == TrimStart(s)
  {
  }

  /** Leading whitespace adds no token. */
  lemma TokensOfTrimStart(s: string)
    ensures Tokens(TrimStart(s)) == Tokens(s)
  {
    TrimStartTwice(s);
  }

  lemma {:induction false} TokensOfAllWhitespace(s: string)
    requires AllWhitespace(s)
    ensures Tokens(s) == []
  {
    assert s[..|s| - |TrimStart(s)|] == s[..|s|];
  }

  /** Trailing whitespace adds no token. */
  lemma {:induction false} TokensTrailing(s: string, e: string)
    requires AllWhitespace(e)
    ensures Tokens(s + e) == Tokens(s)
    decreases |s|, 2
  {
    if AllWhitespace(s) {
      assert AllWhitespace(s + e) by {
        forall i | 0 <= i < |s + e|
          ensures IsWhitespace((s + e)[i])
        {
          if i >= |s| {
            assert (s + e)[i] == e[i - |s|];
          }
        }
      }
      TokensOfAllWhitespace(s);
      TokensOfAllWhitespace(s + e);
    } else {
      var u := TrimStart(s);
      TrimStartAppend(s, e);
      TokensOfTrimStart(s);
      TokensOfTrimStart(s + e);
      TokensTrailingTrimmed(u, e);
    }
  }

  lemma {:induction false} TokensTrailingTrimmed(u: string, e: string)
    requires u != [] && !IsWhitespace(u[0]) && AllWhitespace(e)
    ensures Tokens(u + e) == Tokens(u)
    decreases |u|, 1
  {
    var i := FirstWs(u);
    FirstWsAppend(u, e);
    assert TrimStart(u + e) == u + e;
    assert (u + e)[..i] == u[..i];
    assert (u + e)[i..] == u[i..] + e;
    assert Tokens(u + e) == [u[..i]] + Tokens(u[i..] + e);
    TokensTrailing(u[i..], e);
  }

  /** Trimming changes no token. */
  lemma TokensOfTrim(s: string)
    ensures Tokens(Trim(s)) == Tokens(s)
  {
    var t := TrimEnd(s);
    assert s == t + s[|t|..];
    TokensTrailing(t, s[|t|..]);
    assert TrimStart(TrimStart(t)) == TrimStart(t);
  }

  /** On input with no whitespace at either end, the source's split yields exactly the tokens. */
  lemma {:induction false} SplitTrimmed(t: string)
    requires t != [] && !IsWhitespace(t[0]) && !IsWhitespace(t[|t| - 1])
    ensures SplitWs(t) == Tokens(t)
    decreases |t|
  {
    var i := FirstWs(t);
    if i == |t| {
      assert t[..i] == t;
      assert Tokens(t[i..]) == [];
    } else {
      var u := TrimStart(t[i..]);
      assert u != [] && u[|u| - 1] == t[|t| - 1];
      assert SplitWs(t) == [t[..i]] + SplitWs(u);
      assert Tokens(t) == [t[..i]] + Tokens(t[i..]);
      TokensOfTrimStart(t[i..]);
      SplitTrimmed(u);
    }
  }

  /**
   * What the parser does, in terms of tokens: no token gives `Unknown` without
   * payload; otherwise the lower-cased first token picks the command and the
   * other tokens, joined by single spaces, are the payload.
   */
  lemma ParseByTokens(text: string)
    ensures var toks := Tokens(text);
      ParseCommand(text) ==
        if toks == [] then CommandAction(Unknown, None)
        else CommandFor(AsciiLower(toks[0]), JoinSpace(toks[1..]))
  {
    var t := Trim(text);
    TokensOfTrim(text);
    if t == [] {
      ParseBlank(text);
    } else {
      SplitOfTrim(text);
    }
  }

  lemma SplitOfTrim(text: string)
    requires Trim(text) != []
    ensures SplitWs(Trim(text)) == Tokens(Trim(text))
  {
    SplitTrimmed(Trim(text));
  }

  /** Input that trims to nothing splits into one empty part, which names no command. */
  lemma ParseBlank(text: string)
    requires Trim(text) == []
    ensures ParseCommand(text) == CommandAction(Unknown, None)
  {
    assert SplitWs(Trim(text)) == [""];
  }

  // ---------------------------------------------------------------------------
  // The command word

  /** The input split at its first token: whitespace, the token, and the rest (empty or starting with whitespace). */
  predicate SplitsAtFirstWord(lead: string, w: string, tail: string)
  {
    AllWhitespace(lead) && w != [] && NoWhitespace(w) && (tail == [] || IsWhitespace(tail[0]))
  }

  lemma TokensOfDecomposition(lead: string, w: string, tail: string)
    requires SplitsAtFirstWord(lead, w, tail)
    ensures Tokens(lead + w + tail) == [w] + Tokens(tail)
  {
    assert lead + w + tail == lead + (w + tail);
    TrimStartOfWhitespace(lead, w + tail);
    TokensOfTrimStart(lead + (w + tail));
    FirstWsAppend(w, tail);
    assert FirstWs(w) == |w|;
    assert (w + tail)[..|w|] == w;
    assert (w + tail)[|w|..] == tail;
  }

  /** Every input with a non-whitespace character splits at its first token. */
  lemma FirstWordExists(text: string) returns (lead: string, w: string, tail: string)
    requires !AllWhitespace(text)
    ensures text == lead + w + tail && SplitsAtFirstWord(lead, w, tail)
  {
    var rest := TrimStart(text);
    TrimStartNonEmpty(text);
    lead := text[..|text| - |rest|];
    w, tail := FirstToken(rest);
    PrefixRejoinsSuffix(text, |text| - |rest|);
    InsertSplit(text, lead, rest, w, tail);
  }

  /** A string is its prefix of length `i` followed by the rest. */
  lemma PrefixRejoinsSuffix(s: string, i: nat)
    requires i <= |s|
    ensures s == s[..i] + s[i..]
  {
  }

  /** Splitting the second half of a split string splits the whole in three. */
  lemma InsertSplit(text: string, lead: string, rest: string, w: string, tail: string)
    requires text == lead + rest && rest == w + tail
    ensures text == lead + w + tail
  {
  }

  lemma FirstToken(s: string) returns (w: string, tail: string)
    requires s != [] && !IsWhitespace(s[0])
    ensures s == w + tail && w != [] && NoWhitespace(w) && (tail == [] || IsWhitespace(tail[0]))
  {
    var i := FirstWs(s);
    w, tail := s[..i], s[i..];
    assert tail == [] || tail[0] == s[i];
    assert s == w + tail;
  }

  lemma {:induction false} TrimStartNonEmpty(text: string)
    requires !AllWhitespace(text)
    ensures TrimStart(text) != []
  {
    if text != [] && IsWhitespace(text[0]) {
      var i :| 0 <= i < |text| && !IsWhitespace(text[i]);
      assert i != 0;
      assert text[1..][i - 1] == text[i];
      TrimStartNonEmpty(text[1..]);
    }
  }

  /**
   * The command depends only on the first token, compared after lower-casing;
   * the payload is built from the tokens after it, with their case kept.
   */
  lemma CommandWordDecides(lead: string, w: string, tail: string)
    requires SplitsAtFirstWord(lead, w, tail)
    ensures ParseCommand(lead + w + tail) == CommandFor(AsciiLower(w), JoinSpace(Tokens(tail)))
  {
    ParseByTokens(lead + w + tail);
    TokensOfDecomposition(lead, w, tail);
    assert ([w] + Tokens(tail))[1..] == Tokens(tail);
  }

  /** Empty and whitespace-only input is an unknown command without payload. */
  lemma BlankIsUnknown(text: string)
    requires AllWhitespace(text)
    ensures ParseCommand(text) == CommandAction(Unknown, None)
  {
    ParseByTokens(text);
    TokensOfAllWhitespace(text);
  }

  /** Any first token other than the six command words gives an unknown command without payload. */
  lemma OtherWordIsUnknown(lead: string, w: string, tail: string)
    requires SplitsAtFirstWord(lead, w, tail)
    requires AsciiLower(w) !in {"/agent", "/session", "/memory", "/config", "/help", "/export"}
    ensures ParseCommand(lead + w + tail) == CommandAction(Unknown, None)
  {
    CommandWordDecides(lead, w, tail);
  }

  /** The command word is compared without regard to the case of its ASCII letters. */
  lemma CommandCaseInsensitive(lead: string, w: string, w': string, tail: string)
    requires SplitsAtFirstWord(lead, w, tail) && SplitsAtFirstWord(lead, w', tail)
    requires AsciiLower(w) == AsciiLower(w')
    ensures ParseCommand(lead + w + tail) == ParseCommand(lead + w' + tail)
  {
    CommandWordDecides(lead, w, tail);
    CommandWordDecides(lead, w', tail);
  }

  /** Apart from `/agent` and `/session`, what follows the command word is ignored and there is no payload. */
  lemma ExtraTokensIgnored(lead: string, w: string, tail: string, tail': string)
    requires SplitsAtFirstWord(lead, w, tail) && SplitsAtFirstWord(lead, w, tail')
    requires AsciiLower(w) != "/agent" && AsciiLower(w) != "/session"
    ensures ParseCommand(lead + w + tail).payload == None
    ensures ParseCommand(lead + w + tail) == ParseCommand(lead + w + tail')
  {
    CommandWordDecides(lead, w, tail);
    CommandWordDecides(lead, w, tail');
    CommandForIgnoresPayload(AsciiLower(w), JoinSpace(Tokens(tail)), JoinSpace(Tokens(tail')));
  }

  lemma CommandForIgnoresPayload(command: string, x: string, y: string)
    requires command != "/agent" && command != "/session"
    ensures CommandFor(command, x) == CommandFor(command, y) && CommandFor(command, x).payload == None
  {
  }

  // ---------------------------------------------------------------------------
  // The payload

  lemma NormalisedJoin(a: string, b: string)
    requires a != [] && NoWhitespace(a)
    requires b != [] && !IsWhitespace(b[0]) && IsNormalised(b)
    ensures IsNormalised(a + " " + b)
  {
    var r := a + " " + b;
    forall i | 0 <= i < |r| && IsWhitespace(r[i])
      ensures r[i] == ' ' && 0 < i < |r| - 1 && !IsWhitespace(r[i + 1])
    {
      if i == |a| {
        assert r[i + 1] == b[0];
      } else {
        assert i > |a|;
        var j := i - |a| - 1;
        assert r[i] == b[j];
        if j + 1 < |b| {
          assert r[i + 1] == b[j + 1];
        }
      }
    }
  }

  /** Tokens joined by single spaces form a normalised payload, empty exactly when there are no tokens. */
  lemma {:induction false} JoinNormalised(toks: seq<string>)
    requires forall k :: 0 <= k < |toks| ==> IsToken(toks[k])
    ensures IsNormalised(JoinSpace(toks))
    ensures JoinSpace(toks) == [] <==> toks == []
    ensures toks != [] ==> !IsWhitespace(JoinSpace(toks)[0])
  {
    if |toks| == 1 {
      assert !IsWhitespace(toks[0][0]);
    } else if |toks| > 1 {
      var rest := JoinSpace(toks[1..]);
      JoinNormalised(toks[1..]);
      assert !IsWhitespace(toks[0][0]);
      NormalisedJoin(toks[0], rest);
    }
  }

  /**
   * The payload of `/agent` and `/session` is normalised: no leading, trailing
   * or repeated whitespace, and empty exactly when no token follows the command word.
   */
  lemma PayloadNormalised(text: string)
    ensures var a := ParseCommand(text);
      a.payload.Some? ==>
        IsNormalised(a.payload.value) &&
        (a.payload.value == "" <==> |Tokens(text)| == 1)
  {
    ParseByTokens(text);
    var toks := Tokens(text);
    if toks != [] {
      JoinNormalised(toks[1..]);
    }
  }

  /** A normalised string is its own tokens joined by single spaces. */
  lemma {:induction false} NormalisedRoundTrip(p: string)
    requires IsNormalised(p)
    ensures JoinSpace(Tokens(p)) == p
    decreases |p|
  {
    if p != [] {
      assert !IsWhitespace(p[0]);
      assert TrimStart(p) == p;
      var i := FirstWs(p);
      if i == |p| {
        assert p[..i] == p;
        assert Tokens(p[i..]) == [];
      } else {
        var q := p[i + 1..];
        NormalisedAfterSpace(p, i);
        NormalisedRoundTrip(q);
        TokensAtSpace(p, i);
        JoinCons(p[..i], Tokens(q));
        SplitAtSpace(p, i);
      }
    }
  }

  /** After the first space of a normalised string comes a normalised, non-empty rest. */
  lemma NormalisedAfterSpace(p: string, i: nat)
    requires IsNormalised(p) && i < |p| && IsWhitespace(p[i])
    ensures p[i] == ' ' && i + 1 < |p|
    ensures IsNormalised(p[i + 1..]) && !IsWhitespace(p[i + 1])
    ensures TrimStart(p[i..]) == p[i + 1..]
  {
    var q := p[i + 1..];
    forall j | 0 <= j < |q| && IsWhitespace(q[j])
      ensures q[j] == ' ' && 0 < j < |q| - 1 && !IsWhitespace(q[j + 1])
    {
      assert q[j] == p[i + 1 + j];
    }
    assert p[i..][1..] == q;
  }

  lemma SplitAtSpace(s: string, i: nat)
    requires i < |s| && s[i] == ' '
    ensures s == s[..i] + " " + s[i + 1..]
  {
    assert s[i..] == [s[i]] + s[i + 1..];
    assert s == s[..i] + s[i..];
  }

  lemma TokensAtSpace(p: string, i: nat)
    requires p != [] && !IsWhitespace(p[0]) && i == FirstWs(p) && i < |p|
    requires TrimStart(p[i..]) == p[i + 1..] && p[i + 1..] != []
    ensures Tokens(p) == [p[..i]] + Tokens(p[i + 1..]) && Tokens(p[i + 1..]) != []
  {
    TokensOfTrimStart(p[i..]);
  }

  lemma JoinCons(x: string, ys: seq<string>)
    requires ys != []
    ensures JoinSpace([x] + ys) == x + " " + JoinSpace(ys)
  {
    assert ([x] + ys)[1..] == ys;
  }

  lemma LowerFixed(s: string)
    requires forall i :: 0 <= i < |s| ==> !('A' <= s[i] <= 'Z')
    ensures AsciiLower(s) == s
  {
  }

  /** Parsing `word + " " + p` for a normalised p gives p back as the payload. */
  lemma PayloadRoundTrip(word: string, p: string)
    requires word != [] && NoWhitespace(word) && IsNormalised(p)
    ensures ParseCommand(word + " " + p) == CommandFor(AsciiLower(word), p)
  {
    assert word + " " + p == [] + word + (" " + p);
    CommandWordDecides([], word, " " + p);
    assert (" " + p)[1..] == p;
    assert TrimStart(" " + p) == TrimStart(p);
    TokensOfTrimStart(" " + p);
    TokensOfTrimStart(p);
    NormalisedRoundTrip(p);
  }

  /** `/agent` followed by a normalised payload parses back to that payload. */
  lemma AgentRoundTrip(p: string)
    requires IsNormalised(p)
    ensures ParseCommand("/agent " + p) == CommandAction(Agent, Some(p))
  {
    assert "/agent " + p == "/agent" + " " + p;
    LowerFixed("/agent");
    PayloadRoundTrip("/agent", p);
  }

  /** `/session` followed by a normalised payload parses back to that payload. */
  lemma SessionRoundTrip(p: string)
    requires IsNormalised(p)
    ensures ParseCommand("/session " + p) == CommandAction(Session, Some(p))
  {
    assert "/session " + p == "/session" + " " + p;
    LowerFixed("/session");
    PayloadRoundTrip("/session", p);
  }

  // ---------------------------------------------------------------------------
  // Examples

  /** Leading and repeated spaces vanish, the command word's case is ignored and the payload's is kept. */
  lemma AgentExample(name: string, surname: string)
    requires name != [] && NoWhitespace(name) && surname != [] && NoWhitespace(surname)
    ensures ParseCommand("  /Agent   " + name + "  " + surname) == CommandAction(Agent, Some(name + " " + surname))
  {
    var tail := "   " + name + "  " + surname;
    assert "  /Agent   " + name + "  " + surname == "  " + "/Agent" + tail;
    CommandWordDecides("  ", "/Agent", tail);
    TwoTokens(name, surname);
    LowerAgent();
    assert JoinSpace([name, surname]) == name + " " + surname;
  }

  lemma TwoTokens(name: string, surname: string)
    requires name != [] && NoWhitespace(name) && surname != [] && NoWhitespace(surname)
    ensures Tokens("   " + name + "  " + surname) == [name, surname]
  {
    assert "   " + name + "  " + surname == "   " + name + ("  " + surname);
    TokensOfDecomposition("   ", name, "  " + surname);
    OneToken(surname);
  }

  lemma OneToken(surname: string)
    requires surname != [] && NoWhitespace(surname)
    ensures Tokens("  " + surname) == [surname]
  {
    assert "  " + surname == "  " + surname + [];
    TokensOfDecomposition("  ", surname, []);
  }

  lemma LowerAgent()
    ensures AsciiLower("/Agent") == "/agent"
  {
    var r := AsciiLower("/Agent");
    assert r[0] == '/' && r[1] == 'a' && r[2] == 'g' && r[3] == 'e' && r[4] == 'n' && r[5] == 't';
  }

  /** A command without payload ignores what follows it. */
  lemma HelpExample(rest: string)
    ensures ParseCommand("/HELP " + rest) == CommandAction(Help, None)
  {
    assert "/HELP " + rest == [] + "/HELP" + (" " + rest);
    CommandWordDecides([], "/HELP", " " + rest);
    LowerHelp();
  }

  lemma LowerHelp()
    ensures AsciiLower("/HELP") == "/help"
  {
    var r := AsciiLower("/HELP");
    assert r[0] == '/' && r[1] == 'h' && r[2] == 'e' && r[3] == 'l' && r[4] == 'p';
  }
}
