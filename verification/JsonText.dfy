/** How `JSON.stringify` writes strings and numbers, and how they are read back. */
module JsonText {
  import opened ControllerTypes
  import Decimal

  function HexDigit(n: nat): char
    requires n < 16
  {
    if n < 10 then '0' + n as char else 'a' + (n - 10) as char
  }

  function HexValue(c: char): Option<nat> {
    if '0' <= c <= '9' then Some((c - '0') as nat)
    else if 'a' <= c <= 'f' then Some((c - 'a') as nat + 10)
    else None
  }

  /** Control characters that have a letter of their own. */
  function ShortEscape(c: char): Option<char> {
    match c
    case '\"' => Some('\"')
    case '\\' => Some('\\')
    case '\U{8}' => Some('b')
    case '\t' => Some('t')
    case '\n' => Some('n')
    case '\U{c}' => Some('f')
    case '\r' => Some('r')
    case _ => None
  }

  function ShortUnescape(c: char): Option<char> {
    match c
    case '\"' => Some('\"')
    case '\\' => Some('\\')
    case 'b' => Some('\U{8}')
    case 't' => Some('\t')
    case 'n' => Some('\n')
    case 'f' => Some('\U{c}')
    case 'r' => Some('\r')
    case _ => None
  }

  function EscapeChar(c: char): string {
    if ShortEscape(c).Some? then ['\\', ShortEscape(c).value]
    else if c < ' ' then ['\\', 'u', '0', '0', HexDigit(c as nat / 16), HexDigit(c as nat % 16)]
    else [c]
  }

  /** Quotes, backslashes and five control characters have an escape of their own, the other control characters four digits in lower-case
      hexadecimal, and every other character stands for itself. */
  lemma EscapeTable(c: char)
    ensures EscapeChar('\"') == "\\\"" && EscapeChar('\\') == "\\\\" && EscapeChar('\t') == "\\t" && EscapeChar('\n') == "\\n"
    ensures EscapeChar('\r') == "\\r" && EscapeChar('\U{8}') == "\\b" && EscapeChar('\U{c}') == "\\f"
    ensures c < ' ' && c !in {'\t', '\n', '\r', '\U{8}', '\U{c}'} ==>
      EscapeChar(c) == "\\u00" + ["01"[c as nat / 16], "0123456789abcdef"[c as nat % 16]]
    ensures c >= ' ' && c !in {'\"', '\\'} ==> EscapeChar(c) == [c]
  {
  }

  function Escape(s: string): string {
    if s == "" then "" else EscapeChar(s[0]) + Escape(s[1..])
  }

  function Quote(s: string): string {
    "\"" + Escape(s) + "\""
  }

  datatype ReadChar = ReadChar(c: char, rest: string)
  datatype ReadText = ReadText(text: string, rest: string)

  /** One possibly escaped character; None at a closing quote and where the text is not well formed. */
  function Unescape(s: string): (r: Option<ReadChar>)
    ensures r.Some? ==> |r.value.rest| < |s|
  {
    if s == "" || s[0] == '\"' || s[0] < ' ' then None
    else if s[0] != '\\' then Some(ReadChar(s[0], s[1..]))
    else if |s| < 2 then None
    else if s[1] != 'u' then
      match ShortUnescape(s[1]) case None => None case Some(c) => Some(ReadChar(c, s[2..]))
    else if |s| < 6 || s[2] != '0' || s[3] != '0' || HexValue(s[4]) == None || HexValue(s[5]) == None then None
    else Some(ReadChar((16 * HexValue(s[4]).value + HexValue(s[5]).value) as char, s[6..]))
  }

  /** Characters up to and including the closing quote. */
  function ReadQuoted(s: string): (r: Option<ReadText>)
    ensures r.Some? ==> |r.value.rest| < |s|
    decreases |s|
  {
    if s != "" && s[0] == '\"' then Some(ReadText("", s[1..]))
    else match Unescape(s)
      case None => None
      case Some(read) =>
        match ReadQuoted(read.rest)
        case None => None
        case Some(more) => Some(ReadText([read.c] + more.text, more.rest))
  }

  lemma UnescapeEscaped(c: char, rest: string)
    ensures Unescape(EscapeChar(c) + rest) == Some(ReadChar(c, rest))
    ensures (EscapeChar(c) + rest)[0] != '\"'
  {
    var s := EscapeChar(c) + rest;
    if ShortEscape(c).Some? {
      assert s[2..] == rest;
    } else if c < ' ' {
      assert s[6..] == rest;
      assert 16 * (c as nat / 16) + c as nat % 16 == c as nat;
    } else {
      assert s[1..] == rest;
    }
  }

  lemma {:induction false} ReadEscaped(t: string, rest: string)
    ensures ReadQuoted(Escape(t) + "\"" + rest) == Some(ReadText(t, rest))
    decreases t
  {
    if t == "" {
      assert Escape(t) + "\"" + rest == "\"" + rest;
    } else {
      var tail := Escape(t[1..]) + "\"" + rest;
      assert Escape(t) + "\"" + rest == EscapeChar(t[0]) + tail;
      UnescapeEscaped(t[0], tail);
      ReadEscaped(t[1..], rest);
      assert [t[0]] + t[1..] == t;
    }
  }

  // ---------------------------------------------------------------- numbers

  predicate NumberChar(c: char) {
    Decimal.IsDigit(c) || c in {'-', '+', '.', 'e', 'E'}
  }

  /** The printed form of a finite number. */
  predicate NumberText(s: string) {
    && s != "" && (Decimal.IsDigit(s[0]) || s[0] == '-')
    && forall i :: 0 <= i < |s| ==> NumberChar(s[i])
  }

  function NumberRun(s: string): (k: nat)
    ensures k <= |s|
  {
    if s == "" || !NumberChar(s[0]) then 0 else 1 + NumberRun(s[1..])
  }

  /** What may follow a value inside canonical text. */
  predicate Follows(rest: string) {
    rest == "" || rest[0] in {',', ']', '}'}
  }

  lemma {:induction false} RunOfNumber(s: string, rest: string)
    requires (forall i :: 0 <= i < |s| ==> NumberChar(s[i])) && Follows(rest)
    ensures NumberRun(s + rest) == |s| && (s + rest)[..|s|] == s && (s + rest)[|s|..] == rest
  {
    if s == "" {
      assert s + rest == rest;
    } else {
      RunOfNumber(s[1..], rest);
      assert (s + rest)[1..] == s[1..] + rest;
    }
  }
}
