/**
 The transport switch in `main` (golog.go:24-30): the mode "http" selects the
 HTTP transport; any other mode is a fatal error whose message names the mode
 quoted as Go's `%q` verb quotes a string (`strconv.Quote`).

 Quoting is modelled for the ASCII characters, which is where `strconv.Quote`
 escapes: a double quote and a backslash are backslashed, the printable
 characters are kept, seven control characters get their short escapes and the
 remaining control characters (and DEL) get `\xHH` with lower-case hex digits.
 Characters beyond ASCII are kept as they are.
 */
module Startup {

  datatype Option<T> = None | Some(value: T)

  datatype Transport = Http

  /** What `main` does with the mode: serve with a transport, or `log.Fatal`. */
  datatype Dispatch = Serve(transport: Transport) | Fatal(message: string)

  function SelectMode(mode: string): Dispatch {
    if mode == "http" then Serve(Http)
    else Fatal("mode " + Quote(mode) + " not supported")
  }

  function HexDigit(d: nat): char
    requires d < 16
  {
    if d < 10 then ('0' as int + d) as char else ('a' as int + d - 10) as char
  }

  function HexValue(c: char): (v: Option<nat>)
    ensures v.Some? ==> v.value < 16
  {
    if '0' <= c <= '9' then Some(c as int - '0' as int)
    else if 'a' <= c <= 'f' then Some(c as int - 'a' as int + 10)
    else if 'A' <= c <= 'F' then Some(c as int - 'A' as int + 10)
    else None
  }

  /** The escape written for one character. */
  function EscapeChar(c: char): string {
    if c == '"' || c == '\\' then ['\\', c]
    else if ' ' <= c <= '~' || c as int >= 0x80 then [c]
    else if c as int == 7 then "\\a"
    else if c as int == 8 then "\\b"
    else if c as int == 12 then "\\f"
    else if c == '\n' then "\\n"
    else if c == '\r' then "\\r"
    else if c == '\t' then "\\t"
    else if c as int == 11 then "\\v"
    else ['\\', 'x', HexDigit(c as int / 16), HexDigit(c as int % 16)]
  }

  function Escape(s: string): string {
    if s == [] then [] else EscapeChar(s[0]) + Escape(s[1..])
  }

  /** `%q` on a string. */
  function Quote(s: string): string {
    "\"" + Escape(s) + "\""
  }

  /** The character that a one-letter escape `\e` stands for. */
  function SimpleEscape(e: char): Option<char> {
    if e == '"' || e == '\\' then Some(e)
    else if e == 'a' then Some(7 as char)
    else if e == 'b' then Some(8 as char)
    else if e == 'f' then Some(12 as char)
    else if e == 'n' then Some('\n')
    else if e == 'r' then Some('\r')
    else if e == 't' then Some('\t')
    else if e == 'v' then Some(11 as char)
    else None
  }

  function Prepend(c: char, rest: Option<string>): Option<string> {
    match rest
    case Some(t) => Some([c] + t)
    case None => None
  }

  /** Reads back the text between the quotes: the inverse of `Escape`. An
      unescaped double quote or an unknown escape is rejected. */
  function Unescape(s: string): Option<string>
    decreases |s|
  {
    if s == [] then Some([])
    else if s[0] == '"' then None
    else if s[0] != '\\' then Prepend(s[0], Unescape(s[1..]))
    else if |s| < 2 then None
    else if s[1] == 'x' then
      if |s| < 4 then None
      else match (HexValue(s[2]), HexValue(s[3]))
        case (Some(hi), Some(lo)) => Prepend((16 * hi + lo) as char, Unescape(s[4..]))
        case _ => None
    else match SimpleEscape(s[1])
      case Some(c) => Prepend(c, Unescape(s[2..]))
      case None => None
  }

  function Unquote(q: string): Option<string> {
    if 2 <= |q| && q[0] == '"' && q[|q| - 1] == '"' then Unescape(q[1..|q| - 1]) else None
  }

  lemma HexRoundTrip(d: nat)
    requires d < 16
    ensures HexValue(HexDigit(d)) == Some(d)
  {
  }

  lemma UnescapeEscapeChar(c: char, rest: string)
    ensures Unescape(EscapeChar(c) + rest) == Prepend(c, Unescape(rest))
  {
    var e := EscapeChar(c);
    var s := e + rest;
    if |e| == 1 {
      assert s[0] == c && s[1..] == rest;
    } else if |e| == 2 {
      assert s[0] == '\\' && s[1] == e[1] && s[2..] == rest;
    } else {
      var n := c as int;
      HexRoundTrip(n / 16);
      HexRoundTrip(n % 16);
      assert s[0] == '\\' && s[1] == 'x' && s[2] == HexDigit(n / 16) && s[3] == HexDigit(n % 16);
      assert s[4..] == rest;
    }
  }

  /** Unescaping undoes escaping, for every string. */
  lemma {:induction false} UnescapeEscape(s: string)
    ensures Unescape(Escape(s)) == Some(s)
    decreases |s|
  {
    if s != [] {
      UnescapeEscapeChar(s[0], Escape(s[1..]));
      UnescapeEscape(s[1..]);
      assert [s[0]] + s[1..] == s;
    }
  }

  /** The quoted form reads back as the original string, so the fatal message
      names the mode unambiguously. */
  lemma UnquoteQuote(s: string)
    ensures Unquote(Quote(s)) == Some(s)
  {
    var q := Quote(s);
    assert q[1..|q| - 1] == Escape(s);
    UnescapeEscape(s);
  }

  /** A mode made of printable ASCII with no double quote or backslash is
      quoted by just surrounding it with double quotes. */
  lemma {:induction false} QuotePlain(s: string)
    requires forall k :: 0 <= k < |s| ==> ' ' <= s[k] <= '~' && s[k] != '"' && s[k] != '\\'
    ensures Escape(s) == s
    ensures Quote(s) == "\"" + s + "\""
    decreases |s|
  {
    if s != [] {
      QuotePlain(s[1..]);
      assert [s[0]] + s[1..] == s;
    }
  }

  /** "http" is the one mode served; every other mode is fatal, and its message
      is "mode ", the quoted mode, then " not supported", from which the mode
      can be read back. */
  lemma SelectModeSpec(mode: string)
    ensures SelectMode(mode).Serve? <==> mode == "http"
    ensures SelectMode(mode).Serve? ==> SelectMode(mode).transport == Http
    ensures SelectMode(mode).Fatal? ==>
              var m := SelectMode(mode).message;
              && 19 <= |m|
              && m[..5] == "mode "
              && m[|m| - 14..] == " not supported"
              && Unquote(m[5..|m| - 14]) == Some(mode)
  {
    if mode != "http" {
      var q := Quote(mode);
      var m := SelectMode(mode).message;
      assert |q| >= 2;
      assert m == "mode " + q + " not supported";
      assert m[..5] == "mode ";
      assert m[5..|m| - 14] == q;
      assert m[|m| - 14..] == " not supported";
      UnquoteQuote(mode);
    }
  }

  /** A mode other than "http", such as "zmq", is refused with `mode "zmq" not supported`. */
  lemma ZmqRefused()
    ensures SelectMode("zmq") == Fatal("mode \"zmq\" not supported")
  {
    QuotePlain("zmq");
    assert Quote("zmq") == "\"zmq\"";
    assert "mode " + "\"zmq\"" + " not supported" == "mode \"zmq\" not supported";
  }
}
