/**
 * check_api_keys.py: the format checks for the OpenAI, Serper and Brave
 * keys, and the reading of one `KEY=value` line of a `.env` file.
 *
 * Each validator returns Python's `(bool, message)` pair, as a `Verdict`.
 * A key is `None` when the environment variable is unset.
 */
module ApiKeys {
  import opened Wrappers
  import opened PyText

  datatype Verdict = Verdict(valid: bool, message: string)

  // ---------------------------------------------------------------------
  // Character classes and the regular expressions

  predicate IsAsciiLetter(c: char) {
    ('a' <= c <= 'z') || ('A' <= c <= 'Z')
  }

  /** `[a-zA-Z0-9]`. */
  predicate IsAsciiAlnum(c: char) {
    IsAsciiLetter(c) || IsDigit(c)
  }

  /** `[a-zA-Z0-9-_]`: the `-` after a range is a literal hyphen. */
  predicate IsKeyChar(c: char) {
    IsAsciiAlnum(c) || c == '-' || c == '_'
  }

  /**
   * How the pattern's closing `$` behaves. Python's `$` also matches just
   * before a newline that ends the text; `EndOfText` is the anchor `\Z`,
   * which matches only at the very end.
   */
  datatype Anchor = PythonDollar | EndOfText

  /** Every character of `s` is in the class. */
  predicate AllIn(s: string, cls: char -> bool) {
    forall i :: 0 <= i < |s| ==> cls(s[i])
  }

  /**
   * `re.match` of `[cls]+` followed by the anchor, on all of `s`: one or
   * more characters of the class, and with `PythonDollar` optionally a
   * final "\n" after them.
   */
  predicate MatchesPlus(s: string, cls: char -> bool, anchor: Anchor) {
    || (|s| >= 1 && AllIn(s, cls))
    || (anchor == PythonDollar && |s| >= 2 && s[|s| - 1] == '\n' && AllIn(s[..|s| - 1], cls))
  }

  /** Python's `not api_key` for a string or None. */
  predicate IsMissing(key: Option<string>) {
    key == None || key.value == []
  }

  /** The service a key belongs to, as it is named in the messages. */
  datatype Service = OpenAI | Serper | Brave

  function ServiceName(s: Service): string {
    match s
    case OpenAI => "OpenAI"
    case Serper => "Serper"
    case Brave => "Brave"
  }

  /** Which check decided the verdict. */
  datatype Reason =
    | Empty
    | NoPrefix
    | TooShort(length: nat)
    | TooLong(length: nat)
    | BadCharacters
    | WellFormed

  /** The message each validator returns for a reason, as the source words it. */
  function Message(s: Service, r: Reason): string {
    match r
    case Empty => "API key is empty"
    case NoPrefix => ServiceName(s) + " API key should start with 'sk-'"
    case TooShort(n) => LengthMessage(s, "short", n)
    case TooLong(n) => LengthMessage(s, "long", n)
    case BadCharacters => ServiceName(s) + " API key contains invalid characters"
    case WellFormed => "Valid " + ServiceName(s) + " API key format"
  }

  /** The message for a key of `n` characters that is too short or too long. */
  function LengthMessage(s: Service, bound: string, n: nat): string {
    ServiceName(s) + " API key seems too " + bound + " (current: " + DecimalString(n) + " characters)"
  }

  function Judge(s: Service, r: Reason): Verdict {
    Verdict(r == WellFormed, Message(s, r))
  }

  // ---------------------------------------------------------------------
  // The validators

  /** The checks of `validate_openai_key`, in their order. */
  function OpenAIReason(key: Option<string>, anchor: Anchor): Reason {
    if IsMissing(key) then Empty
    else
      var k := key.value;
      if !StartsWith(k, "sk-") then NoPrefix
      else if |k| < 40 then TooShort(|k|)
      else if |k| > 200 then TooLong(|k|)
      else if !MatchesPlus(k[3..], IsKeyChar, anchor) then BadCharacters
      else WellFormed
  }

  /** The checks shared by `validate_serper_key` and `validate_brave_key`, in their order. */
  function AlnumReason(key: Option<string>, anchor: Anchor): Reason {
    if IsMissing(key) then Empty
    else
      var k := key.value;
      if |k| < 32 then TooShort(|k|)
      else if !MatchesPlus(k, IsAsciiAlnum, anchor) then BadCharacters
      else WellFormed
  }

  /** `validate_openai_key`, with the given reading of the pattern's `$`. */
  function ValidateOpenAIKey(key: Option<string>, anchor: Anchor): Verdict {
    Judge(OpenAI, OpenAIReason(key, anchor))
  }

  /** `validate_serper_key`, with the given reading of the pattern's `$`. */
  function ValidateSerperKey(key: Option<string>, anchor: Anchor): Verdict {
    Judge(Serper, AlnumReason(key, anchor))
  }

  /** `validate_brave_key`, with the given reading of the pattern's `$`. */
  function ValidateBraveKey(key: Option<string>, anchor: Anchor): Verdict {
    Judge(Brave, AlnumReason(key, anchor))
  }

  // ---------------------------------------------------------------------
  // Properties of the validators

  /**
   * Reads the reason back from a message: the first character tells the
   * empty key and the accepted key apart, the word after "API key" the
   * others, and a length message carries its length in decimal.
   */
  function ReadReason(s: Service, m: string): Option<Reason> {
    var n := |ServiceName(s)|;
    if m == [] then None
    else if m[0] == 'A' then Some(Empty)
    else if m[0] == 'V' then Some(WellFormed)
    else if |m| < n + 20 then None
    else if m[n + 10] == 'h' then Some(NoPrefix)
    else if m[n + 10] == 'o' then Some(BadCharacters)
    else
      var lo := n + (if m[n + 19] == 's' then 35 else 34);
      if |m| < lo + 12 || !AllDigits(m[lo..|m| - 12]) then None
      else if m[n + 19] == 's' then Some(TooShort(DecimalValue(m[lo..|m| - 12])))
      else Some(TooLong(DecimalValue(m[lo..|m| - 12])))
  }

  /** Every message reads back as its reason, so no two reasons share a message. */
  lemma MessageReadsBack(s: Service, r: Reason)
    ensures ReadReason(s, Message(s, r)) == Some(r)
  {
    var m := Message(s, r);
    var name := ServiceName(s);
    assert name[0] != 'A' && name[0] != 'V';
    match r
    case TooShort(k) =>
      LengthMessageReadsBack(s, "short", k);
    case TooLong(k) =>
      LengthMessageReadsBack(s, "long", k);
    case NoPrefix =>
      assert m[|name| + 10] == 'h';
    case BadCharacters =>
      assert m[|name| + 10] == 'o';
    case _ =>
  }

  /** A length message reads back as its bound and its length. */
  lemma LengthMessageReadsBack(s: Service, bound: string, n: nat)
    requires bound == "short" || bound == "long"
    ensures ReadReason(s, LengthMessage(s, bound, n)) == Some(if bound == "short" then TooShort(n) else TooLong(n))
  {
    var name := ServiceName(s);
    assert name[0] != 'A' && name[0] != 'V';
    LengthMessageShape(name, bound, DecimalString(n));
    DecimalRoundTrip(n);
    ReadLengthReason(s, LengthMessage(s, bound, n), bound == "short", n);
  }

  /** A message laid out like a length message reads back as that length. */
  lemma ReadLengthReason(s: Service, m: string, short: bool, n: nat)
    requires var k := |ServiceName(s)|;
      && |m| >= k + 47 && m[0] != 'A' && m[0] != 'V'
      && m[k + 10] == 'e' && m[k + 19] == (if short then 's' else 'l')
      && m[k + (if short then 35 else 34)..|m| - 12] == DecimalString(n)
      && DecimalValue(DecimalString(n)) == n
    ensures ReadReason(s, m) == Some(if short then TooShort(n) else TooLong(n))
  {
  }

  /** Where the service name, the bound and the count sit in a length message. */
  lemma LengthMessageShape(name: string, bound: string, d: string)
    requires name != [] && bound != []
    ensures var m := name + " API key seems too " + bound + " (current: " + d + " characters)";
      && |m| == |name| + |bound| + |d| + 42
      && m[0] == name[0] && m[|name| + 10] == 'e' && m[|name| + 19] == bound[0]
      && m[|name| + |bound| + 30..|m| - 12] == d
  {
    var head := name + " API key seems too " + bound + " (current: ";
    var m := head + d + " characters)";
    assert m[|head|..|m| - 12] == d;
  }

  /** A verdict is valid exactly when every check passed. */
  lemma ValidIffWellFormed(key: Option<string>, anchor: Anchor)
    ensures ValidateOpenAIKey(key, anchor).valid <==> OpenAIReason(key, anchor) == WellFormed
    ensures ValidateSerperKey(key, anchor).valid <==> AlnumReason(key, anchor) == WellFormed
    ensures ValidateBraveKey(key, anchor).valid <==> AlnumReason(key, anchor) == WellFormed
  {
  }

  /** Every validator rejects a missing or empty key first, with the same message. */
  lemma MissingKeyRejected(key: Option<string>, anchor: Anchor)
    requires IsMissing(key)
    ensures OpenAIReason(key, anchor) == Empty && AlnumReason(key, anchor) == Empty
    ensures ValidateOpenAIKey(key, anchor) == ValidateSerperKey(key, anchor) == ValidateBraveKey(key, anchor)
  {
  }

  /** Without the "sk-" prefix an OpenAI key is rejected for it, whatever its length and characters. */
  lemma OpenAIPrefixChecked(k: string, anchor: Anchor)
    requires k != [] && !StartsWith(k, "sk-")
    ensures OpenAIReason(Some(k), anchor) == NoPrefix
  {
  }

  /**
   * With the prefix, the length bounds come before the character check:
   * under 40 is too short and over 200 too long, whatever the characters.
   */
  lemma OpenAILengthChecked(k: string, anchor: Anchor)
    requires StartsWith(k, "sk-")
    ensures |k| < 40 ==> OpenAIReason(Some(k), anchor) == TooShort(|k|)
    ensures |k| > 200 ==> OpenAIReason(Some(k), anchor) == TooLong(|k|)
  {
  }

  /** A Serper or Brave key under 32 characters is too short, whatever its characters. */
  lemma AlnumLengthChecked(k: string, anchor: Anchor)
    requires 1 <= |k| < 32
    ensures AlnumReason(Some(k), anchor) == TooShort(|k|)
  {
  }

  /**
   * With `$` read as Python reads it, an OpenAI key is accepted exactly
   * when it starts with "sk-", has 40 to 200 characters, and every
   * character after the prefix is a key character, except that the last
   * one may be a newline.
   */
  lemma OpenAIAcceptedIff(k: string)
    ensures OpenAIReason(Some(k), PythonDollar) == WellFormed <==>
      && StartsWith(k, "sk-") && 40 <= |k| <= 200
      && (forall i :: 3 <= i < |k| - 1 ==> IsKeyChar(k[i]))
      && (IsKeyChar(k[|k| - 1]) || k[|k| - 1] == '\n')
  {
    if StartsWith(k, "sk-") && 40 <= |k| <= 200 {
      var b := k[3..];
      assert forall i :: 3 <= i < |k| ==> k[i] == b[i - 3];
      if IsKeyChar(k[|k| - 1]) {
        assert (forall i :: 3 <= i < |k| - 1 ==> IsKeyChar(k[i])) ==> AllIn(b, IsKeyChar);
      } else if k[|k| - 1] == '\n' {
        assert forall i :: 0 <= i < |b| - 1 ==> b[..|b| - 1][i] == b[i];
      }
    }
  }

  /**
   * A Serper or Brave key is accepted iff it has at least 32 characters,
   * all of them ASCII letters or digits except that the last may be a
   * newline.
   */
  lemma AlnumAcceptedIff(k: string)
    ensures AlnumReason(Some(k), PythonDollar) == WellFormed <==>
      && |k| >= 32
      && (forall i :: 0 <= i < |k| - 1 ==> IsAsciiAlnum(k[i]))
      && (IsAsciiAlnum(k[|k| - 1]) || k[|k| - 1] == '\n')
  {
    if |k| >= 32 && k[|k| - 1] == '\n' {
      assert forall i :: 0 <= i < |k| - 1 ==> k[..|k| - 1][i] == k[i];
    }
  }

  // ---------------------------------------------------------------------
  // The trailing newline

  /** `n` copies of `c`. */
  function Repeat(c: char, n: nat): (r: string)
    ensures |r| == n && forall i :: 0 <= i < n ==> r[i] == c
  {
    if n == 0 then [] else Repeat(c, n - 1) + [c]
  }

  /**
   * "sk-", 36 letters and a newline: 40 characters, of which only 39 are
   * part of a key, yet Python's `$` lets the pattern match.
   */
  lemma OpenAIAcceptsTrailingNewline()
    ensures var k := "sk-" + Repeat('a', 36) + "\n";
      && OpenAIReason(Some(k), PythonDollar) == WellFormed
      && OpenAIReason(Some(k), EndOfText) == BadCharacters
  {
    var k := "sk-" + Repeat('a', 36) + "\n";
    assert k[..3] == "sk-";
    OpenAIAcceptedIff(k);
    assert k[3..][|k| - 4] == '\n';
  }

  /** 31 letters and a newline pass the Serper and Brave length check and the pattern. */
  lemma AlnumAcceptsTrailingNewline()
    ensures var k := Repeat('a', 31) + "\n";
      && AlnumReason(Some(k), PythonDollar) == WellFormed
      && AlnumReason(Some(k), EndOfText) == BadCharacters
  {
    var k := Repeat('a', 31) + "\n";
    AlnumAcceptedIff(k);
    assert k[31] == '\n';
  }

  /**
   * Anchored at the end of the text, an accepted OpenAI key is exactly
   * "sk-" and 37 to 197 key characters: no newline gets through.
   */
  lemma StrictOpenAIAcceptedIff(k: string)
    ensures OpenAIReason(Some(k), EndOfText) == WellFormed <==>
      && StartsWith(k, "sk-") && 40 <= |k| <= 200
      && (forall i :: 3 <= i < |k| ==> IsKeyChar(k[i]))
    ensures OpenAIReason(Some(k), EndOfText) == WellFormed ==> '\n' !in k
  {
    if StartsWith(k, "sk-") && 40 <= |k| <= 200 {
      var b := k[3..];
      assert forall i :: 3 <= i < |k| ==> k[i] == b[i - 3];
      assert forall i :: 0 <= i < 3 ==> k[i] == "sk-"[i];
    }
  }

  /** Anchored at the end of the text, an accepted Serper or Brave key is 32 or more ASCII letters and digits. */
  lemma StrictAlnumAcceptedIff(k: string)
    ensures AlnumReason(Some(k), EndOfText) == WellFormed <==> |k| >= 32 && AllIn(k, IsAsciiAlnum)
  {
  }

  /** What the strict reading accepts, Python's reading accepts too, and for the same reason otherwise. */
  lemma StrictIsStricter(key: Option<string>)
    ensures OpenAIReason(key, EndOfText) == WellFormed ==> OpenAIReason(key, PythonDollar) == WellFormed
    ensures AlnumReason(key, EndOfText) == WellFormed ==> AlnumReason(key, PythonDollar) == WellFormed
    ensures OpenAIReason(key, PythonDollar) != WellFormed ==> OpenAIReason(key, EndOfText) == OpenAIReason(key, PythonDollar)
    ensures AlnumReason(key, PythonDollar) != WellFormed ==> AlnumReason(key, EndOfText) == AlnumReason(key, PythonDollar)
  {
  }

  // ---------------------------------------------------------------------
  // One line of a .env file

  predicate IsQuote(c: char) {
    c == '"' || c == '\''
  }

  /** Python's `v[1:-1]`: empty for fewer than two characters. */
  function Inner(v: string): (r: string)
    ensures |v| >= 2 ==> |r| == |v| - 2
  {
    if |v| >= 2 then v[1..|v| - 1] else []
  }

  /** The value without the quotes around it, when it starts and ends with the same kind of quote. */
  function StripQuotes(v: string): string {
    if (StartsWith(v, "\"") && EndsWith(v, "\"")) || (StartsWith(v, "'") && EndsWith(v, "'")) then Inner(v)
    else v
  }

  /**
   * A value that starts and ends with the same quote character loses
   * exactly its first and last characters (a lone quote becomes empty);
   * every other value is kept.
   */
  lemma StripQuotesSpec(v: string)
    ensures var q := |v| >= 1 && IsQuote(v[0]) && v[|v| - 1] == v[0];
      && (q && |v| >= 2 ==> StripQuotes(v) == v[1..|v| - 1])
      && (q && |v| == 1 ==> StripQuotes(v) == [])
      && (!q ==> StripQuotes(v) == v)
  {
    if |v| >= 1 {
      assert StartsWith(v, "\"") <==> v[0] == '"';
      assert StartsWith(v, "'") <==> v[0] == '\'';
      assert EndsWith(v, "\"") <==> v[|v| - 1] == '"';
      assert EndsWith(v, "'") <==> v[|v| - 1] == '\'';
    }
  }

  /** Quoting a value and stripping the quotes gives the value back. */
  lemma StripQuotesRoundTrip(v: string, q: char)
    requires IsQuote(q)
    ensures StripQuotes([q] + v + [q]) == v
  {
    var w := [q] + v + [q];
    StripQuotesSpec(w);
    assert w[1..|w| - 1] == v;
  }

  /** How a line of the file reads. */
  datatype EnvLine =
    /** Blank, or a comment. */
    | Skipped
    /** No '=': "Invalid format". */
    | Malformed
    | Entry(key: string, value: string)

  /**
   * The loop body of `check_env_file`: strip the line, then read it.
   */
  function ParseEnvLine(raw: string): EnvLine {
    ParseStripped(Strip(raw))
  }

  /**
   * A stripped line is skipped when empty or a comment (it starts with
   * '#'), malformed without '=', and otherwise split at its first '='.
   */
  function ParseStripped(line: string): EnvLine {
    if line == [] || line[0] == '#' then Skipped
    else if '=' !in line then Malformed
    else SplitAt(line, Find(line, '='))
  }

  /** `line.split('=', 1)`, both sides stripped, quotes removed from the value. */
  function SplitAt(line: string, i: nat): EnvLine
    requires i < |line|
  {
    Entry(Strip(line[..i]), StripQuotes(Strip(line[i + 1..])))
  }

  /**
   * How a line is classified, in both directions: blank lines and
   * comments are skipped, a line with an '=' is an entry and one without
   * is malformed. An entry's key never holds an '=': the cut is at the
   * first one, and later '=' characters stay in the value.
   */
  lemma ParseClassifies(raw: string)
    ensures var line := Strip(raw);
      && (ParseEnvLine(raw) == Skipped <==> line == [] || line[0] == '#')
      && (ParseEnvLine(raw) == Malformed <==> line != [] && line[0] != '#' && '=' !in line)
      && (ParseEnvLine(raw).Entry? <==> line != [] && line[0] != '#' && '=' in line)
    ensures ParseEnvLine(raw).Entry? ==> '=' !in ParseEnvLine(raw).key
  {
    var line := Strip(raw);
    if line != [] && line[0] != '#' && '=' in line {
      var i := Find(line, '=');
      FindPrefixFree(line, '=');
      StripKeepsOut(line[..i], '=');
    }
  }

  /**
   * Writing `key=value` and reading it back gives the key and the value
   * without its quotes, for any key that is non-empty, free of '=', not a
   * comment and without whitespace at either end, and any value without
   * whitespace at either end, '=' characters included.
   */
  lemma ParseEntryRoundTrip(key: string, value: string)
    requires key != [] && IsStripped(key) && '=' !in key && key[0] != '#'
    requires IsStripped(value)
    ensures ParseEnvLine(key + "=" + value) == Entry(key, StripQuotes(value))
  {
    var line := key + "=" + value;
    EntryLineEnds(key, value);
    StripUnchanged(line);
    ReadStrippedEntry(key, value);
  }

  /** A `key=value` line that is already stripped is cut after `key`. */
  lemma ReadStrippedEntry(key: string, value: string)
    requires key != [] && IsStripped(key) && '=' !in key && key[0] != '#'
    requires IsStripped(value)
    ensures ParseStripped(key + "=" + value) == Entry(key, StripQuotes(value))
  {
    var line := key + "=" + value;
    EntryLineShape(key, value);
    ReadAtCut(line, |key|);
  }

  /** A stripped line whose first '=' sits at `i` is cut there. */
  lemma ReadAtCut(line: string, i: nat)
    requires i < |line| && line[i] == '=' && '=' !in line[..i]
    requires line[..i] != [] && IsStripped(line[..i]) && line[0] != '#'
    requires IsStripped(line[i + 1..])
    ensures ParseStripped(line) == Entry(line[..i], StripQuotes(line[i + 1..]))
  {
    FindFirst(line, '=', i);
    StripUnchanged(line[..i]);
    StripUnchanged(line[i + 1..]);
  }

  /** Where the key, the '=' and the value sit in `key=value`. */
  lemma EntryLineShape(key: string, value: string)
    requires '=' !in key
    ensures var line := key + "=" + value;
      && line[..|key|] == key && line[|key|] == '=' && line[|key| + 1..] == value
      && '=' !in line[..|key|]
      && (key != [] ==> line[0] == key[0])
  {
    var line := key + "=" + value;
    assert line[..|key|] == key;
    assert line[|key| + 1..] == value;
  }

  /** `key=value` neither starts nor ends with whitespace when `key` and `value` do not. */
  lemma EntryLineEnds(key: string, value: string)
    requires key != [] && IsStripped(key) && IsStripped(value)
    ensures IsStripped(key + "=" + value)
  {
    var line := key + "=" + value;
    assert line[0] == key[0];
    if value != [] {
      assert line[|line| - 1] == value[|value| - 1];
    }
  }

  /** A quoted value written after `key=` reads back without its quotes. */
  lemma ParseQuotedValue(key: string, value: string, q: char)
    requires key != [] && IsStripped(key) && '=' !in key && key[0] != '#'
    requires IsQuote(q)
    ensures ParseEnvLine(key + "=" + ([q] + value + [q])) == Entry(key, value)
  {
    var w := [q] + value + [q];
    QuotedIsStripped(value, q);
    ParseEntryRoundTrip(key, w);
    StripQuotesRoundTrip(value, q);
  }

  lemma QuotedIsStripped(value: string, q: char)
    requires IsQuote(q)
    ensures IsStripped([q] + value + [q])
  {
    var w := [q] + value + [q];
    assert w[0] == q && w[|w| - 1] == q;
  }
}
