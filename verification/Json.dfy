/** `serde_json::to_string` on a list of strings, and a reader for what it prints. */
module Json {
  import opened Wrappers
  import opened Text

  predicate IsControl(c: char) {
    c < ' '
  }

  function HexDigit(n: nat): (c: char)
    requires n < 16
    ensures IsHexDigit(c)
  {
    if n < 10 then ('0' as int + n) as char else ('a' as int + n - 10) as char
  }

  function HexValue(c: char): (n: nat)
    requires IsHexDigit(c)
    ensures n < 16
  {
    if IsDigit(c) then c as int - '0' as int
    else if 'a' <= c then c as int - 'a' as int + 10
    else c as int - 'A' as int + 10
  }

  function EscapeChar(c: char): string {
    if c == '"' then "\\\""
    else if c == '\\' then "\\\\"
    else if c == '\U{08}' then "\\b"
    else if c == '\U{0C}' then "\\f"
    else if c == '\n' then "\\n"
    else if c == '\r' then "\\r"
    else if c == '\t' then "\\t"
    else if IsControl(c) then "\\u00" + [HexDigit(c as int / 16), HexDigit(c as int % 16)]
    else [c]
  }

  function Escaped(s: string): string {
    if s == "" then "" else EscapeChar(s[0]) + Escaped(s[1..])
  }

  function Quoted(s: string): string {
    "\"" + Escaped(s) + "\""
  }

  /** Elements after the first, and the closing bracket. */
  function MoreElements(ss: seq<string>): string {
    if ss == [] then "]" else "," + Quoted(ss[0]) + MoreElements(ss[1..])
  }

  function PrintStrings(ss: seq<string>): string {
    if ss == [] then "[]" else "[" + Quoted(ss[0]) + MoreElements(ss[1..])
  }

  // ── reading back ───────────────────────────────────────────────────────

  /** One character of a string body and the text after it. */
  function ReadChar(s: string): (r: Option<(char, string)>)
    ensures r.Some? ==> |r.value.1| < |s|
  {
    if s == "" then None
    else if s[0] != '\\' then Some((s[0], s[1..]))
    else if |s| < 2 then None
    else match s[1]
      case '"' => Some(('"', s[2..]))
      case '\\' => Some(('\\', s[2..]))
      case 'b' => Some(('\U{08}', s[2..]))
      case 'f' => Some(('\U{0C}', s[2..]))
      case 'n' => Some(('\n', s[2..]))
      case 'r' => Some(('\r', s[2..]))
      case 't' => Some(('\t', s[2..]))
      case 'u' =>
        if |s| >= 6 && s[2] == '0' && s[3] == '0' && IsHexDigit(s[4]) && IsHexDigit(s[5]) then
          Some(((HexValue(s[4]) * 16 + HexValue(s[5])) as char, s[6..]))
        else None
      case _ => None
  }

  /** A string body up to its closing quote, and the text after the quote. */
  function ReadBody(s: string): (r: Option<(string, string)>)
    ensures r.Some? ==> |r.value.1| < |s|
    decreases |s|
  {
    if s != "" && s[0] == '"' then Some(("", s[1..]))
    else match ReadChar(s)
      case None => None
      case Some((c, rest)) =>
        match ReadBody(rest)
        case None => None
        case Some((body, after)) => Some(([c] + body, after))
  }

  function ReadMore(s: string): (r: Option<(seq<string>, string)>)
    decreases |s|
  {
    if s != "" && s[0] == ']' then Some(([], s[1..]))
    else if ",\"" <= s then
      match ReadBody(s[2..])
      case None => None
      case Some((first, rest)) =>
        match ReadMore(rest)
        case None => None
        case Some((others, after)) => Some(([first] + others, after))
    else None
  }

  function ReadStrings(s: string): Option<(seq<string>, string)> {
    if "[]" <= s then Some(([], s[2..]))
    else if "[\"" <= s then
      match ReadBody(s[2..])
      case None => None
      case Some((first, rest)) =>
        match ReadMore(rest)
        case None => None
        case Some((others, after)) => Some(([first] + others, after))
    else None
  }

  lemma ReadEscapedChar(c: char, rest: string)
    ensures EscapeChar(c) != "" && EscapeChar(c)[0] != '"'
    ensures ReadChar(EscapeChar(c) + rest) == Some((c, rest))
    ensures '\n' !in EscapeChar(c)
  {
    var e := EscapeChar(c);
    assert (e + rest)[|e|..] == rest;
    if IsControl(c) && |e| == 6 {
      HexRoundTrip(c);
    }
  }

  lemma HexRoundTrip(c: char)
    requires IsControl(c)
    ensures HexValue(HexDigit(c as int / 16)) * 16 + HexValue(HexDigit(c as int % 16)) == c as int
  {
    HexValueOfDigit(c as int / 16);
    HexValueOfDigit(c as int % 16);
  }

  lemma HexValueOfDigit(n: nat)
    requires n < 16
    ensures HexValue(HexDigit(n)) == n
  {
  }

  lemma {:induction false} ReadEscaped(s: string, rest: string)
    ensures ReadBody(Escaped(s) + "\"" + rest) == Some((s, rest))
  {
    var text := Escaped(s) + "\"" + rest;
    if s == "" {
      assert text[1..] == rest;
    } else {
      var more := Escaped(s[1..]) + "\"" + rest;
      assert text == EscapeChar(s[0]) + more;
      ReadEscapedChar(s[0], more);
      ReadEscaped(s[1..], rest);
      assert s == [s[0]] + s[1..];
    }
  }

  /** Reassociating an element: its opening mark and quote, then the rest. */
  lemma ElementText(mark: string, body: string, more: string, rest: string)
    ensures mark + ("\"" + body + "\"") + more + rest == (mark + "\"") + (body + "\"" + (more + rest))
  {
  }

  lemma DropMark(mark: char, body: string)
    ensures ([mark] + "\"") <= ([mark] + "\"") + body
    ensures (([mark] + "\"") + body)[2..] == body
  {
  }

  lemma {:induction false} ReadMoreElements(ss: seq<string>, rest: string)
    ensures ReadMore(MoreElements(ss) + rest) == Some((ss, rest))
  {
    hide Escaped, ReadBody;
    var text := MoreElements(ss) + rest;
    if ss == [] {
      assert text[1..] == rest;
    } else {
      var more := MoreElements(ss[1..]) + rest;
      ElementText(",", Escaped(ss[0]), MoreElements(ss[1..]), rest);
      DropMark(',', Escaped(ss[0]) + "\"" + more);
      ReadEscaped(ss[0], more);
      ReadMoreElements(ss[1..], rest);
      assert ss == [ss[0]] + ss[1..];
    }
  }

  /** The printed list reads back as itself, whatever text follows. */
  lemma PrintedStringsReadBack(ss: seq<string>, rest: string)
    ensures ReadStrings(PrintStrings(ss) + rest) == Some((ss, rest))
  {
    hide Escaped, ReadBody, ReadMore, MoreElements;
    var text := PrintStrings(ss) + rest;
    if ss == [] {
      assert text[2..] == rest;
    } else {
      var more := MoreElements(ss[1..]) + rest;
      ElementText("[", Escaped(ss[0]), MoreElements(ss[1..]), rest);
      DropMark('[', Escaped(ss[0]) + "\"" + more);
      assert text[1] == '"' && "[\"" == ['['] + "\"";
      ReadEscaped(ss[0], more);
      ReadMoreElements(ss[1..], rest);
      assert ss == [ss[0]] + ss[1..];
    }
  }
}
