/**
 Batch scripts.  The broker prefixes a script with a line defining __INPUT__ as a
 quoted string; the worker recognises that line, extracts the input, and for a URL
 splices a fetch polyfill in after the first newline.
 */
module ScriptWrap {
  import opened Wrappers

  // ---------------------------------------------------------------- quoting

  /** The code points strconv.IsPrint accepts outside ASCII are a parameter. */
  type Printable = char -> bool

  predicate PlainAscii(c: char) { ' ' <= c <= '~' && c != '"' && c != '\\' }

  function Hex(n: nat, width: nat): string {
    if width == 0 then "" else Hex(n / 16, width - 1) + [HexDigit(n % 16)]
  }

  /** How %q writes one character between the quotes. */
  function Escape(c: char, p: Printable): string {
    if c == '"' then ['\\', '"']
    else if c == '\\' then ['\\', '\\']
    else if PlainAscii(c) || (c > '\U{7f}' && p(c)) then [c]
    else if c == '\U{07}' then "\\a"
    else if c == '\U{08}' then "\\b"
    else if c == '\U{0c}' then "\\f"
    else if c == '\n' then "\\n"
    else if c == '\r' then "\\r"
    else if c == '\t' then "\\t"
    else if c == '\U{0b}' then "\\v"
    else if c < ' ' || c == '\U{7f}' then "\\x" + Hex(c as int, 2)
    else if c as int < 0x10000 then "\\u" + Hex(c as int, 4)
    else "\\U" + Hex(c as int, 8)
  }

  function Escaped(s: string, p: Printable): string {
    if s == "" then "" else Escape(s[0], p) + Escaped(s[1..], p)
  }

  const PREFIX := "const __INPUT__ = "

  function InputLine(input: string, p: Printable): string {
    PREFIX + ['"'] + Escaped(input, p) + ['"', ';', '\n']
  }

  /** The definition of the quoted input on a line of its own, then the script. */
  function Wrap(input: string, script: string, p: Printable): string {
    InputLine(input, p) + script
  }

  /** Every character of an escaped text is printable as written: no newline, and quotes only behind a backslash. */
  lemma EscapeIsOneLine(c: char, p: Printable)
    ensures '\n' !in Escape(c, p)
    ensures Escape(c, p) != ""
  {
    HexHasNoSpecials(c as int, 2);
    HexHasNoSpecials(c as int, 4);
    HexHasNoSpecials(c as int, 8);
  }

  lemma {:induction false} HexHasNoSpecials(n: nat, width: nat)
    ensures forall c :: c in Hex(n, width) ==> '0' <= c <= '9' || 'a' <= c <= 'f'
  {
    if width > 0 { HexHasNoSpecials(n / 16, width - 1); }
  }

  lemma {:induction false} EscapedIsOneLine(s: string, p: Printable)
    ensures '\n' !in Escaped(s, p)
  {
    if s != "" {
      EscapeIsOneLine(s[0], p);
      EscapedIsOneLine(s[1..], p);
    }
  }

  // ----------------------------------------------------------- reading back

  predicate IsCodePoint(n: nat) { n < 0xD800 || 0xE000 <= n < 0x110000 }

  /** The number written in hexadecimal digits. */
  function HexNumber(s: string): Option<nat> {
    if s == "" then Some(0)
    else match (HexNumber(s[..|s| - 1]), HexValue(s[|s| - 1]))
      case (Some(n), Some(d)) => Some(16 * n + d)
      case _ => None
  }

  /** The first character of quoted text, and the length of its notation; a bare quote or newline cannot stand there. */
  function ReadOne(s: string): Option<(char, nat)>
    requires s != ""
  {
    if s[0] == '"' || s[0] == '\n' then None
    else if s[0] != '\\' then Some((s[0], 1))
    else if |s| == 1 then None
    else match s[1]
      case '"' => Some(('"', 2))
      case '\\' => Some(('\\', 2))
      case 'a' => Some(('\U{07}', 2))
      case 'b' => Some(('\U{08}', 2))
      case 'f' => Some(('\U{0c}', 2))
      case 'n' => Some(('\n', 2))
      case 'r' => Some(('\r', 2))
      case 't' => Some(('\t', 2))
      case 'v' => Some(('\U{0b}', 2))
      case 'x' => ReadHex(s, 2)
      case 'u' => ReadHex(s, 4)
      case 'U' => ReadHex(s, 8)
      case _ => None
  }

  /** A backslash, a letter, and the code point in `width` hexadecimal digits. */
  function ReadHex(s: string, width: nat): Option<(char, nat)> {
    if |s| < 2 + width then None
    else match HexNumber(s[2..2 + width])
      case None => None
      case Some(n) => if IsCodePoint(n) then Some((n as char, 2 + width)) else None
  }

  /** What the text between the quotes of a string literal denotes. */
  function Unquoted(s: string): Option<string> {
    if s == "" then Some("")
    else match ReadOne(s)
      case None => None
      case Some((c, k)) =>
        if k == 0 || k > |s| then None
        else match Unquoted(s[k..])
          case None => None
          case Some(rest) => Some([c] + rest)
  }

  function PowerOf16(width: nat): nat { if width == 0 then 1 else 16 * PowerOf16(width - 1) }

  lemma {:induction false} HexNumberReadsBack(n: nat, width: nat)
    requires n < PowerOf16(width)
    ensures |Hex(n, width)| == width && HexNumber(Hex(n, width)) == Some(n)
  {
    if width > 0 {
      HexNumberReadsBack(n / 16, width - 1);
      var s := Hex(n, width);
      assert s[..|s| - 1] == Hex(n / 16, width - 1);
    }
  }

  lemma HexReadsBack(c: char, letter: char, width: nat, rest: string)
    requires c as int < PowerOf16(width)
    ensures ReadHex(['\\', letter] + Hex(c as int, width) + rest, width) == Some((c, 2 + width))
    ensures |Hex(c as int, width)| == width
  {
    HexNumberReadsBack(c as int, width);
    var s := ['\\', letter] + Hex(c as int, width) + rest;
    assert s[2..2 + width] == Hex(c as int, width);
  }

  lemma NumberReadsBack(c: char, rest: string)
    ensures c as int < 0x100 ==> ReadOne("\\x" + Hex(c as int, 2) + rest) == Some((c, 4)) && |Hex(c as int, 2)| == 2
    ensures c as int < 0x10000 ==> ReadOne("\\u" + Hex(c as int, 4) + rest) == Some((c, 6)) && |Hex(c as int, 4)| == 4
    ensures ReadOne("\\U" + Hex(c as int, 8) + rest) == Some((c, 10)) && |Hex(c as int, 8)| == 8
  {
    assert PowerOf16(2) == 0x100 && PowerOf16(4) == 0x10000;
    assert PowerOf16(8) == 0x10000 * PowerOf16(4);
    if c as int < 0x100 { HexReadsBack(c, 'x', 2, rest); }
    if c as int < 0x10000 { HexReadsBack(c, 'u', 4, rest); }
    HexReadsBack(c, 'U', 8, rest);
  }

  lemma EscapeReadsBack(c: char, p: Printable, rest: string)
    ensures ReadOne(Escape(c, p) + rest) == Some((c, |Escape(c, p)|))
  {
    NumberReadsBack(c, rest);
  }

  /** A quoted input denotes the input, whatever characters it has. */
  lemma {:induction false} QuotingReadsBack(s: string, p: Printable)
    ensures Unquoted(Escaped(s, p)) == Some(s)
  {
    if s != "" {
      var e, rest := Escape(s[0], p), Escaped(s[1..], p);
      EscapeReadsBack(s[0], p, rest);
      EscapeIsOneLine(s[0], p);
      QuotingReadsBack(s[1..], p);
      assert (e + rest)[|e|..] == rest;
      assert s == [s[0]] + s[1..];
    }
  }

  // ---------------------------------------------------------------- splicing

  function IndexOf(s: string, c: char): Option<nat> {
    if s == "" then None
    else if s[0] == c then Some(0)
    else match IndexOf(s[1..], c) case None => None case Some(n) => Some(n + 1)
  }

  lemma {:induction false} IndexAfter(a: string, b: string, c: char)
    requires c !in a
    ensures IndexOf(a + [c] + b, c) == Some(|a|)
  {
    if a == "" {
      assert a + [c] + b == [c] + b;
    } else {
      IndexAfter(a[1..], b, c);
      assert (a + [c] + b)[1..] == a[1..] + [c] + b;
    }
  }

  /** The polyfill goes after the first newline, or in front when there is none. */
  function Splice(js: string, polyfill: string): string {
    match IndexOf(js, '\n')
    case Some(n) => if n < |js| then js[..n + 1] + polyfill + js[n + 1..] else polyfill + js
    case None => polyfill + js
  }

  lemma NotInParts(a: string, b: string, c: char)
    requires c !in a && c !in b
    ensures c !in a + b
  {
  }

  lemma LineEnds(a: string)
    ensures a + ['"', ';', '\n'] == a + ['"', ';'] + ['\n']
  {
    assert ['"', ';', '\n'] == ['"', ';'] + ['\n'];
  }

  /** The first newline of a wrapped script is the one that ends the __INPUT__ line, for every input. */
  lemma FirstNewlineEndsInputLine(input: string, script: string, p: Printable)
    ensures IndexOf(Wrap(input, script, p), '\n') == Some(|InputLine(input, p)| - 1)
  {
    EscapedIsOneLine(input, p);
    var a := PREFIX + ['"'] + Escaped(input, p) + ['"', ';'];
    NotInParts(PREFIX, ['"'], '\n');
    NotInParts(PREFIX + ['"'], Escaped(input, p), '\n');
    NotInParts(PREFIX + ['"'] + Escaped(input, p), ['"', ';'], '\n');
    IndexAfter(a, script, '\n');
    LineEnds(PREFIX + ['"'] + Escaped(input, p));
  }

  /** So the polyfill lands between the definition and the script, and cutting it out gives back the wrapped script. */
  lemma PolyfillFollowsDefinition(input: string, script: string, polyfill: string, p: Printable)
    ensures Splice(Wrap(input, script, p), polyfill) == InputLine(input, p) + polyfill + script
    ensures var out := Splice(Wrap(input, script, p), polyfill);
            var k := |InputLine(input, p)|;
            out[..k] + out[k + |polyfill|..] == Wrap(input, script, p)
  {
    FirstNewlineEndsInputLine(input, script, p);
    var js, line := Wrap(input, script, p), InputLine(input, p);
    assert js[..|line|] == line && js[|line|..] == script;
    var out := Splice(js, polyfill);
    assert out[..|line|] == line && out[|line| + |polyfill|..] == script;
  }

  // -------------------------------------------------------------- detection

  /** \s of the worker's regular expression. */
  predicate Space(c: char) { c == ' ' || c == '\t' || c == '\n' || c == '\U{0c}' || c == '\r' }

  predicate Quote(c: char) { c == '"' || c == '\'' }

  /** Drops leading characters of `s` while they satisfy `f`. */
  function SkipWhile(s: string, f: char -> bool): string {
    if s != "" && f(s[0]) then SkipWhile(s[1..], f) else s
  }

  function TakeWhile(s: string, f: char -> bool): string {
    if s != "" && f(s[0]) then [s[0]] + TakeWhile(s[1..], f) else ""
  }

  function AfterLiteral(s: string, lit: string): Option<string> {
    if lit <= s then Some(s[|lit|..]) else None
  }

  /**
   const\s+__INPUT__\s*=\s*["']([^"']+)["']; matched at the start of `s`.  Neighbouring
   parts accept disjoint characters, so each repetition can only match greedily.
   */
  function MatchHere(s: string): Option<string> {
    match AfterLiteral(s, "const")
    case None => None
    case Some(s1) =>
      if s1 == "" || !Space(s1[0]) then None
      else match AfterLiteral(SkipWhile(s1, Space), "__INPUT__")
        case None => None
        case Some(s2) =>
          match AfterLiteral(SkipWhile(s2, Space), "=")
          case None => None
          case Some(s3) => MatchString(SkipWhile(s3, Space))
  }

  /** ["']([^"']+)["']; */
  function MatchString(s: string): Option<string> {
    if s == "" || !Quote(s[0]) then None
    else
      var body := TakeWhile(s[1..], c => !Quote(c));
      var rest := SkipWhile(s[1..], c => !Quote(c));
      if body != "" && |rest| >= 2 && rest[1] == ';' then Some(body) else None
  }

  /** What the expression describes: the parts of a match at the start of `s`, `body` being the submatch. */
  predicate MatchParts(s: string, gap: string, left: string, right: string, open: char, body: string, close: char,
                       rest: string)
  {
    && s == "const" + (gap + ("__INPUT__" + (left + ("=" + (right + ([open] + (body + ([close, ';'] + rest))))))))
    && gap != "" && AllOf(gap, Space) && AllOf(left, Space) && AllOf(right, Space)
    && Quote(open) && body != "" && AllOf(body, c => !Quote(c)) && Quote(close)
  }

  predicate AllOf(s: string, f: char -> bool) { forall i :: 0 <= i < |s| ==> f(s[i]) }

  ghost predicate Describes(s: string, body: string) {
    exists gap, left, right, open, close, rest :: MatchParts(s, gap, left, right, open, body, close, rest)
  }

  lemma {:induction false} TakeAndSkip(s: string, f: char -> bool)
    ensures AllOf(TakeWhile(s, f), f) && s == TakeWhile(s, f) + SkipWhile(s, f)
    ensures SkipWhile(s, f) == "" || !f(SkipWhile(s, f)[0])
  {
    if s != "" && f(s[0]) { TakeAndSkip(s[1..], f); }
  }

  /** A run of characters that satisfy `f` ends where the first other one stands. */
  lemma {:induction false} RunIsTaken(a: string, b: string, f: char -> bool)
    requires AllOf(a, f) && (b == "" || !f(b[0]))
    ensures TakeWhile(a + b, f) == a && SkipWhile(a + b, f) == b
  {
    if a == "" {
      assert a + b == b;
    } else {
      RunIsTaken(a[1..], b, f);
      assert (a + b)[1..] == a[1..] + b;
    }
  }

  lemma StringIsDescribed(s: string) returns (open: char, close: char, rest: string)
    requires MatchString(s).Some?
    ensures var body := MatchString(s).value;
            && s == [open] + (body + ([close, ';'] + rest))
            && Quote(open) && body != "" && AllOf(body, c => !Quote(c)) && Quote(close)
  {
    TakeAndSkip(s[1..], c => !Quote(c));
    var tail := SkipWhile(s[1..], c => !Quote(c));
    open, close, rest := s[0], tail[0], tail[2..];
    assert tail == [close, ';'] + rest;
  }

  lemma DescribedString(open: char, body: string, close: char, rest: string)
    requires Quote(open) && body != "" && AllOf(body, c => !Quote(c)) && Quote(close)
    ensures MatchString([open] + (body + ([close, ';'] + rest))) == Some(body)
  {
    RunIsTaken(body, [close, ';'] + rest, c => !Quote(c));
    assert ([open] + (body + ([close, ';'] + rest)))[1..] == body + ([close, ';'] + rest);
  }

  lemma LiteralMatches(lit: string, s: string)
    ensures AfterLiteral(lit + s, lit) == Some(s)
  {
  }

  lemma LiteralSplits(s: string, lit: string)
    requires AfterLiteral(s, lit).Some?
    ensures s == lit + AfterLiteral(s, lit).value
  {
  }

  lemma MatchIsDescribed(s: string)
    requires MatchHere(s).Some?
    ensures Describes(s, MatchHere(s).value)
  {
    LiteralSplits(s, "const");
    var s1 := AfterLiteral(s, "const").value;
    TakeAndSkip(s1, Space);
    LiteralSplits(SkipWhile(s1, Space), "__INPUT__");
    var s2 := AfterLiteral(SkipWhile(s1, Space), "__INPUT__").value;
    TakeAndSkip(s2, Space);
    LiteralSplits(SkipWhile(s2, Space), "=");
    var s3 := AfterLiteral(SkipWhile(s2, Space), "=").value;
    TakeAndSkip(s3, Space);
    var open, close, rest := StringIsDescribed(SkipWhile(s3, Space));
    assert MatchParts(s, TakeWhile(s1, Space), TakeWhile(s2, Space), TakeWhile(s3, Space), open,
                      MatchHere(s).value, close, rest);
  }

  lemma DescribedIsMatched(s: string, gap: string, left: string, right: string, open: char, body: string, close: char,
                           rest: string)
    requires MatchParts(s, gap, left, right, open, body, close, rest)
    ensures MatchHere(s) == Some(body)
  {
    var quoted := [open] + (body + ([close, ';'] + rest));
    var s2 := left + ("=" + (right + quoted));
    LiteralMatches("const", gap + ("__INPUT__" + s2));
    RunIsTaken(gap, "__INPUT__" + s2, Space);
    LiteralMatches("__INPUT__", s2);
    RunIsTaken(left, "=" + (right + quoted), Space);
    LiteralMatches("=", right + quoted);
    RunIsTaken(right, quoted, Space);
    DescribedString(open, body, close, rest);
  }

  /** The greedy scan finds a match exactly where the expression describes one, with that submatch. */
  lemma MatchIff(s: string, body: string)
    ensures MatchHere(s) == Some(body) <==> Describes(s, body)
  {
    if MatchHere(s).Some? { MatchIsDescribed(s); }
    if Describes(s, body) {
      var gap, left, right, open, close, rest :| MatchParts(s, gap, left, right, open, body, close, rest);
      DescribedIsMatched(s, gap, left, right, open, body, close, rest);
    }
  }

  /** FindStringSubmatch: the leftmost match. */
  function Extract(s: string): Option<string> {
    match MatchHere(s)
    case Some(x) => Some(x)
    case None => if s == "" then None else Extract(s[1..])
  }

  /** A match starts at `k`, and none to the left of it. */
  ghost predicate LeftmostAt(s: string, k: nat, body: string) {
    && k <= |s| && Describes(s[k..], body)
    && (forall j: nat, other :: j < k ==> !Describes(s[j..], other))
  }

  /** What is extracted is the submatch of the leftmost match of the expression. */
  lemma {:induction false} ExtractIsLeftmost(s: string)
    ensures Extract(s).Some? ==> exists k: nat :: LeftmostAt(s, k, Extract(s).value)
    ensures Extract(s).None? ==> forall k: nat, body :: k <= |s| ==> !Describes(s[k..], body)
  {
    assert s[0..] == s;
    forall body ensures MatchHere(s).None? ==> !Describes(s, body) { MatchIff(s, body); }
    if MatchHere(s).Some? {
      MatchIff(s, MatchHere(s).value);
      assert LeftmostAt(s, 0, MatchHere(s).value);
    } else if s != "" {
      ExtractIsLeftmost(s[1..]);
      forall j: nat, body | j <= |s| && Describes(s[j..], body)
        ensures j > 0 && Describes(s[1..][j - 1..], body)
      {
        if j > 0 { assert s[j..] == s[1..][j - 1..]; }
      }
      if Extract(s).Some? {
        var k: nat :| LeftmostAt(s[1..], k, Extract(s).value);
        assert s[1..][k..] == s[k + 1..];
        assert LeftmostAt(s, k + 1, Extract(s).value);
      }
    }
  }

  predicate IsUrl(s: string) { "http://" <= s || "https://" <= s }

  /** `k` is the position just after the first newline, or the beginning when there is none. */
  predicate AfterFirstLine(data: string, k: nat) {
    && k <= |data|
    && (if k == 0 then '\n' !in data else data[k - 1] == '\n' && '\n' !in data[..k - 1])
  }

  ghost predicate SplicedAfterFirstLine(data: string, polyfill: string, result: string) {
    exists k: nat :: AfterFirstLine(data, k) && result == data[..k] + polyfill + data[k..]
  }

  lemma {:induction false} FirstLineEnds(data: string)
    ensures match IndexOf(data, '\n')
            case Some(n) => n < |data| && AfterFirstLine(data, n + 1)
            case None => AfterFirstLine(data, 0)
  {
    if data != "" && data[0] != '\n' {
      FirstLineEnds(data[1..]);
      assert data == [data[0]] + data[1..];
      match IndexOf(data[1..], '\n') {
        case Some(n) => assert data[..n + 1] == [data[0]] + data[1..][..n];
        case None =>
      }
    }
  }

  /** What the worker runs: a detected URL input gets the polyfill with the fetched page spliced in. */
  method PrepareScript(data: string, polyfillFor: string -> string) returns (executionData: string)
    ensures executionData == Prepared(data, polyfillFor)
    ensures match Extract(data)
            case None => executionData == data
            case Some(url) =>
              if "http://" <= url || "https://" <= url
              then SplicedAfterFirstLine(data, polyfillFor(url), executionData)
              else executionData == data
  {
    FirstLineEnds(data);
    executionData := data;
    var jsCode := data;
    var found := Extract(jsCode);
    if found.Some? {
      var targetUrl := found.value;
      if "http://" <= targetUrl || "https://" <= targetUrl {
        var polyfill := polyfillFor(targetUrl);
        var newline := IndexOf(jsCode, '\n');
        if newline.Some? && newline.value < |jsCode| {
          jsCode := jsCode[..newline.value + 1] + polyfill + jsCode[newline.value + 1..];
        } else {
          jsCode := polyfill + jsCode;
          assert AfterFirstLine(data, 0) && data[..0] == "" && data[0..] == data;
        }
        executionData := jsCode;
      }
    }
  }

  function Prepared(data: string, polyfillFor: string -> string): string {
    match Extract(data)
    case None => data
    case Some(url) => if IsUrl(url) then Splice(data, polyfillFor(url)) else data
  }

  // ------------------------------------------------- wrapping and detection

  /** Printable, and neither a quote nor a backslash. */
  predicate Verbatim(c: char, p: Printable) {
    c != '"' && c != '\'' && c != '\\' && (' ' <= c <= '~' || (c > '\U{7f}' && p(c)))
  }

  /** These are the characters that come through quoting and extraction unchanged. */
  lemma VerbatimIff(c: char, p: Printable)
    ensures Verbatim(c, p) <==> Escape(c, p) == [c] && !Quote(c)
  {
  }

  lemma {:induction false} TakeAvoidsQuotes(s: string)
    ensures forall c :: c in TakeWhile(s, c => !Quote(c)) ==> !Quote(c)
  {
    if s != "" { TakeAvoidsQuotes(s[1..]); }
  }

  /** Whatever is extracted is non-empty and contains no quote. */
  lemma {:induction false} ExtractedHasNoQuote(s: string)
    ensures Extract(s).Some? ==> Extract(s).value != "" && forall c :: c in Extract(s).value ==> !Quote(c)
  {
    MatchHasNoQuote(s);
    if MatchHere(s).None? && s != "" { ExtractedHasNoQuote(s[1..]); }
  }

  lemma MatchHasNoQuote(s: string)
    ensures MatchHere(s).Some? ==> MatchHere(s).value != "" && forall c :: c in MatchHere(s).value ==> !Quote(c)
  {
    forall t: string
      ensures MatchString(t).Some? ==>
                MatchString(t).value != "" && forall c :: c in MatchString(t).value ==> !Quote(c)
    {
      if t != "" { TakeAvoidsQuotes(t[1..]); }
    }
  }

  lemma PrefixParts(tail: string)
    ensures PREFIX + tail == "const" + ([' '] + ("__INPUT__" + ([' '] + ("=" + ([' '] + tail)))))
  {
    var rest := "=" + ([' '] + tail);
    assert " = " + tail == [' '] + rest;
    assert "__INPUT__ = " == "__INPUT__" + " = ";
    assert "__INPUT__ = " + tail == "__INPUT__" + (" = " + tail);
    assert PREFIX == "const " + "__INPUT__ = ";
    assert PREFIX + tail == "const " + ("__INPUT__ = " + tail);
    assert "const " == "const" + [' '];
  }

  lemma {:induction false} EscapedIsVerbatim(s: string, p: Printable)
    requires forall c :: c in s ==> Verbatim(c, p)
    ensures Escaped(s, p) == s
  {
    if s != "" {
      assert s[0] in s && s == [s[0]] + s[1..];
      VerbatimIff(s[0], p);
      EscapedIsVerbatim(s[1..], p);
    }
  }

  /** Escaping adds no apostrophe, adds a quote only for a quote, and is the identity only if nothing was escaped. */
  lemma {:induction false} EscapedQuotes(s: string, p: Printable)
    requires forall c :: c in s ==> !Quote(c)
    ensures forall c :: c in Escaped(s, p) ==> !Quote(c)
    ensures |Escaped(s, p)| >= |s|
    ensures Escaped(s, p) == s ==> forall c :: c in s ==> Verbatim(c, p)
    ensures s != "" ==> Escaped(s, p) != ""
  {
    if s != "" {
      EscapedQuotes(s[1..], p);
      EscapeIsOneLine(s[0], p);
      EscapeLength(s[0], p);
      HexHasNoSpecials(s[0] as int, 2);
      HexHasNoSpecials(s[0] as int, 4);
      HexHasNoSpecials(s[0] as int, 8);
      if Escaped(s, p) == s {
        assert Escape(s[0], p)[0] == s[0];
        assert s == [s[0]] + s[1..];
        VerbatimIff(s[0], p);
      }
    }
  }

  lemma EscapeLength(c: char, p: Printable)
    ensures |Escape(c, p)| >= 1 && (|Escape(c, p)| == 1 ==> Escape(c, p) == [c])
  {
  }

  lemma WrapParts(input: string, script: string, p: Printable)
    ensures Wrap(input, script, p) == PREFIX + (['"'] + (Escaped(input, p) + (['"', ';', '\n'] + script)))
  {
  }

  /** An input without quotes is extracted in its escaped form. */
  lemma ExtractsTheEscapedInput(input: string, script: string, p: Printable)
    requires input != "" && forall c :: c in input ==> !Quote(c)
    ensures Extract(Wrap(input, script, p)) == Some(Escaped(input, p))
  {
    var body := Escaped(input, p);
    var rest := ['\n'] + script;
    WrapParts(input, script, p);
    PrefixParts(['"'] + (body + (['"', ';'] + rest)));
    EscapedQuotes(input, p);
    assert ['"', ';', '\n'] + script == ['"', ';'] + rest;
    DescribedIsMatched(Wrap(input, script, p), [' '], [' '], [' '], '"', body, '"', rest);
  }

  /**
   The worker extracts exactly the submitted input if and only if the input is not
   empty and every character of it comes through quoting unchanged and is no quote.
   */
  lemma ExtractionIsExactIff(input: string, script: string, p: Printable)
    ensures Extract(Wrap(input, script, p)) == Some(input) <==> input != "" && forall c :: c in input ==> Verbatim(c, p)
  {
    if input != "" && forall c :: c in input ==> !Quote(c) {
      ExtractsTheEscapedInput(input, script, p);
      EscapedQuotes(input, p);
      if forall c :: c in input ==> Verbatim(c, p) { EscapedIsVerbatim(input, p); }
    } else {
      ExtractedHasNoQuote(Wrap(input, script, p));
    }
  }

  function FlatMap(s: string, f: char -> string): string {
    if s == "" then "" else f(s[0]) + FlatMap(s[1..], f)
  }

  lemma Associate(a: string, b: string, c: string)
    ensures a + (b + c) == a + b + c
  {
  }

  lemma {:induction false} FlatMapAppend(a: string, b: string, f: char -> string)
    ensures FlatMap(a + b, f) == FlatMap(a, f) + FlatMap(b, f)
  {
    if a == "" {
      assert a + b == b;
    } else {
      FlatMapAppend(a[1..], b, f);
      assert (a + b)[0] == a[0] && (a + b)[1..] == a[1..] + b;
      Associate(f(a[0]), FlatMap(a[1..], f), FlatMap(b, f));
    }
  }

  lemma {:induction false} EscapedIsFlatMap(s: string, p: Printable, f: char -> string)
    requires forall c :: f(c) == Escape(c, p)
    ensures Escaped(s, p) == FlatMap(s, f)
  {
    if s != "" { EscapedIsFlatMap(s[1..], p, f); }
  }

  lemma EscapedAppend(a: string, b: string, p: Printable)
    ensures Escaped(a + b, p) == Escaped(a, p) + Escaped(b, p)
  {
    var f := c => Escape(c, p);
    EscapedIsFlatMap(a, p, f);
    EscapedIsFlatMap(b, p, f);
    EscapedIsFlatMap(a + b, p, f);
    FlatMapAppend(a, b, f);
  }

  lemma OneEscape(c: char, p: Printable)
    ensures Escaped([c], p) == Escape(c, p)
  {
    assert [c][1..] == "";
  }

  /** A backslash in an otherwise plain input comes out doubled. */
  lemma BackslashIsDoubled(head: string, tail: string, script: string, p: Printable)
    requires (forall c :: c in head ==> Verbatim(c, p)) && (forall c :: c in tail ==> Verbatim(c, p))
    ensures Extract(Wrap(head + ['\\'] + tail, script, p)) == Some(head + ['\\', '\\'] + tail)
  {
    var input := head + ['\\'] + tail;
    EscapedAppend(head + ['\\'], tail, p);
    EscapedAppend(head, ['\\'], p);
    OneEscape('\\', p);
    EscapedIsVerbatim(head, p);
    EscapedIsVerbatim(tail, p);
    ExtractsTheEscapedInput(input, script, p);
  }

  /** So for this URL the worker fetches another one than was submitted. */
  lemma UrlWithBackslashIsChanged(script: string, p: Printable)
    ensures Extract(Wrap("http://a" + ['\\'] + "b", script, p)) == Some("http://a" + ['\\', '\\'] + "b")
    ensures Extract(Wrap("http://a" + ['\\'] + "b", script, p)) != Some("http://a" + ['\\'] + "b")
  {
    BackslashIsDoubled("http://a", "b", script, p);
    assert |"http://a" + ['\\', '\\'] + "b"| == 11 && |"http://a" + ['\\'] + "b"| == 10;
  }

  /** In particular non-empty printable ASCII without quotes and backslashes is extracted as submitted. */
  lemma PlainInputsAreExtracted(input: string, script: string, p: Printable)
    requires input != "" && forall c :: c in input ==> PlainAscii(c) && c != '\''
    ensures Extract(Wrap(input, script, p)) == Some(input)
  {
    ExtractionIsExactIff(input, script, p);
  }

  /** A plain URL input reaches the script with its own page's polyfill; any other plain input reaches it as is. */
  lemma PlainInputsAreServed(input: string, script: string, p: Printable, polyfillFor: string -> string)
    requires input != "" && forall c :: c in input ==> Verbatim(c, p)
    ensures Prepared(Wrap(input, script, p), polyfillFor)
         == InputLine(input, p) + (if IsUrl(input) then polyfillFor(input) else "") + script
  {
    ExtractionIsExactIff(input, script, p);
    if IsUrl(input) {
      PolyfillFollowsDefinition(input, script, polyfillFor(input), p);
    } else {
      assert InputLine(input, p) + "" == InputLine(input, p);
    }
  }
}
