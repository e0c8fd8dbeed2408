/** Literal strings in a PDF: how they are written, and the reader's rules of section 7.3.4.2 of
    ISO 32000-1. */
module PdfStrings {
  import opened Tables

  /* ---- writing ---- */

  function EscapeByte(c: char): string {
    if c == '(' || c == ')' || c == '\\' then ['\\', c]
    else if c == '\n' then "\\n"
    else if c == '\r' then "\\r"
    else [c]
  }

  function Escaped(bytes: string): string {
    if bytes == "" then "" else EscapeByte(bytes[0]) + Escaped(bytes[1..])
  }

  lemma {:induction false} EscapedAppend(bytes: string, c: char)
    ensures Escaped(bytes + [c]) == Escaped(bytes) + EscapeByte(c)
  {
    if bytes == "" {
      assert bytes + [c] == [c];
    } else {
      assert (bytes + [c])[1..] == bytes[1..] + [c];
      EscapedAppend(bytes[1..], c);
    }
  }

  method EscapeString(bytes: string) returns (out: string)
    ensures out == "(" + Escaped(bytes) + ")"
  {
    out := "(";
    for i := 0 to |bytes|
      invariant out == "(" + Escaped(bytes[..i])
    {
      var c := bytes[i];
      EscapedAppend(bytes[..i], c);
      assert bytes[..i + 1] == bytes[..i] + [c];
      match c {
        case '(' => out := out + ['\\', c];
        case ')' => out := out + ['\\', c];
        case '\\' => out := out + ['\\', c];
        case '\n' => out := out + ['\\', 'n'];
        case '\r' => out := out + ['\\', 'r'];
        case _ => out := out + [c];
      }
    }
    assert bytes[..|bytes|] == bytes;
    out := out + ")";
  }

  /* ---- reading ---- */

  predicate IsOctal(c: char) { '0' <= c <= '7' }

  /** How many octal digits, at most n, the text begins with. */
  function OctalLength(s: string, n: nat): (k: nat)
    ensures k <= n && k <= |s| && forall i | 0 <= i < k :: IsOctal(s[i])
  {
    if n == 0 || s == "" || !IsOctal(s[0]) then 0 else 1 + OctalLength(s[1..], n - 1)
  }

  function OctalValue(s: string): nat
    requires forall i | 0 <= i < |s| :: IsOctal(s[i])
  {
    if s == "" then 0
    else
      assert IsOctal(s[|s| - 1]);
      8 * OctalValue(s[..|s| - 1]) + (s[|s| - 1] as int - '0' as int)
  }

  /** A line end inside a string counts as one line feed, however it is written. */
  function EndOfLine(s: string): nat {
    if s == "" then 0
    else if s[0] == '\r' then (if |s| > 1 && s[1] == '\n' then 2 else 1)
    else if s[0] == '\n' then 1
    else 0
  }

  /** After a backslash: the byte meant, if any, and how much text it takes. An unknown escape
      means just the character; an escaped line end means nothing. */
  function Escape(s: string): (string, nat)
    requires s != ""
    ensures 1 <= Escape(s).1 <= |s|
  {
    if s[0] == 'n' then ("\n", 1)
    else if s[0] == 'r' then ("\r", 1)
    else if s[0] == 't' then ("\t", 1)
    else if s[0] == 'b' then ([8 as char], 1)
    else if s[0] == 'f' then ([12 as char], 1)
    else if IsOctal(s[0]) then
      var k := OctalLength(s, 3);
      ([(OctalValue(s[..k]) % 256) as char], k)
    else if EndOfLine(s) > 0 then ("", EndOfLine(s))
    else ([s[0]], 1)
  }

  function Prepend(front: string, r: Option<(string, string)>): Option<(string, string)> {
    match r
    case None => None
    case Some((text, rest)) => Some((front + text, rest))
  }

  /** Reads a string from just behind its opening parenthesis, with depth more parentheses open:
      its bytes and the text behind it. */
  function Read(s: string, depth: nat): Option<(string, string)>
    decreases |s|
  {
    if s == "" then None
    else if s[0] == ')' then
      if depth == 0 then Some(("", s[1..])) else Prepend(")", Read(s[1..], depth - 1))
    else if s[0] == '(' then Prepend("(", Read(s[1..], depth + 1))
    else if s[0] == '\\' then
      if s[1..] == "" then None
      else
        var (text, k) := Escape(s[1..]);
        Prepend(text, Read(s[1..][k..], depth))
    else if EndOfLine(s) > 0 then Prepend("\n", Read(s[EndOfLine(s)..], depth))
    else Prepend([s[0]], Read(s[1..], depth))
  }

  /* ---- round trip ---- */

  /** Reading behind an escaped byte goes on behind it. */
  lemma ReadByte(c: char, s: string)
    ensures Read(EscapeByte(c) + s, 0) == Prepend([c], Read(s, 0))
  {
    var t := EscapeByte(c) + s;
    if |EscapeByte(c)| == 2 {
      assert t[1..] == [EscapeByte(c)[1]] + s;
      assert t[1..][1..] == s;
    } else {
      assert t[1..] == s;
    }
  }

  /** Any bytes, written as a literal string and followed by anything, read back as themselves. */
  lemma {:induction false} EscapeRoundTrip(bytes: string, rest: string)
    ensures Read(Escaped(bytes) + ")" + rest, 0) == Some((bytes, rest))
  {
    if bytes == "" {
      assert Escaped(bytes) + ")" + rest == ")" + rest;
      assert (")" + rest)[1..] == rest;
    } else {
      var tail := Escaped(bytes[1..]) + ")" + rest;
      EscapeRoundTrip(bytes[1..], rest);
      ReadByte(bytes[0], tail);
      assert Escaped(bytes) + ")" + rest == EscapeByte(bytes[0]) + tail;
      assert [bytes[0]] + bytes[1..] == bytes;
    }
  }
}
