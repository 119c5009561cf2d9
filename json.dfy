/** The one JSON shape that travels between the chat route, the browser and
    session storage: an object with a single string field, `{"content": s}`.
    `EncodeContent` writes it as `JSON.stringify` does; `DecodeContent` reads
    it back as `JSON.parse` followed by `.content` does. */
module Json {
  import opened Wrappers

  /** Lower-case hexadecimal digit, as `JSON.stringify` writes in `\u00XX`. */
  function HexDigit(d: nat): char
    requires d < 16
  {
    "0123456789abcdef"[d]
  }

  /** Value of a hexadecimal digit of either case. */
  function HexValue(c: char): (r: Option<nat>)
    ensures r.Some? ==> r.value < 16
  {
    if '0' <= c <= '9' then Some(c as int - '0' as int)
    else if 'a' <= c <= 'f' then Some(c as int - 'a' as int + 10)
    else if 'A' <= c <= 'F' then Some(c as int - 'A' as int + 10)
    else None
  }

  /** The value of four hexadecimal digits. */
  function Hex4(s: string): (r: Option<nat>)
    requires |s| == 4
    ensures r.Some? ==> r.value < 0x10000
  {
    match (HexValue(s[0]), HexValue(s[1]), HexValue(s[2]), HexValue(s[3]))
    case (Some(a), Some(b), Some(c), Some(d)) => Some(((a * 16 + b) * 16 + c) * 16 + d)
    case _ => None
  }

  /** How `JSON.stringify` writes one character inside a string literal: the
      quote, the backslash and every control character are escaped. */
  function EscapeChar(c: char): (r: string)
    ensures |r| >= 1
    ensures forall i :: 0 <= i < |r| ==> ' ' <= r[i]
  {
    if c == '"' then "\\\""
    else if c == '\\' then "\\\\"
    else if c == '\n' then "\\n"
    else if c == '\r' then "\\r"
    else if c == '\t' then "\\t"
    else if c == '\U{0008}' then "\\b"
    else if c == '\U{000C}' then "\\f"
    else if c < ' ' then "\\u00" + [HexDigit(c as int / 16), HexDigit(c as int % 16)]
    else [c]
  }

  /** The body of a JSON string literal for `s`; it holds no control character. */
  function Escape(s: string): string
  {
    if s == [] then [] else EscapeChar(s[0]) + Escape(s[1..])
  }

  lemma {:induction false} EscapePrintable(s: string)
    ensures forall i :: 0 <= i < |Escape(s)| ==> ' ' <= Escape(s)[i]
  {
    if s != [] {
      EscapePrintable(s[1..]);
      var e, rest := EscapeChar(s[0]), Escape(s[1..]);
      assert forall i :: 0 <= i < |e + rest| ==> (e + rest)[i] == if i < |e| then e[i] else rest[i - |e|];
    }
  }

  /** Reads the escape sequence that follows a backslash: the character it
      stands for and how many characters it takes. */
  function UnescapeOne(s: string): (r: Option<(char, nat)>)
    ensures r.Some? ==> 1 <= r.value.1 <= |s|
  {
    if |s| == 0 then None
    else if s[0] == '"' then Some(('"', 1))
    else if s[0] == '\\' then Some(('\\', 1))
    else if s[0] == '/' then Some(('/', 1))
    else if s[0] == 'b' then Some(('\U{0008}', 1))
    else if s[0] == 'f' then Some(('\U{000C}', 1))
    else if s[0] == 'n' then Some(('\n', 1))
    else if s[0] == 'r' then Some(('\r', 1))
    else if s[0] == 't' then Some(('\t', 1))
    else if s[0] == 'u' && |s| >= 5 then
      match Hex4(s[1..5])
      case Some(v) => if v < 0xD800 || 0xE000 <= v then Some((v as char, 5)) else None
      case None => None
    else None
  }

  function Cons(c: char, r: Option<string>): Option<string>
  {
    match r
    case Some(t) => Some([c] + t)
    case None => None
  }

  /** Reads the body of a JSON string literal: `None` when it holds a bare
      quote, a bare control character or a malformed escape. */
  function Unescape(s: string): Option<string>
    decreases |s|
  {
    if s == [] then Some("")
    else if s[0] == '\\' then UnescapeAfterBackslash(s[1..])
    else if s[0] == '"' || s[0] < ' ' then None
    else Cons(s[0], Unescape(s[1..]))
  }

  /** Reads the rest of a body that follows a backslash: the escape sequence,
      then the remaining body. */
  function UnescapeAfterBackslash(s: string): Option<string>
    decreases |s|
  {
    match UnescapeOne(s)
    case Some((c, k)) => Cons(c, Unescape(s[k..]))
    case None => None
  }

  /** The characters `JSON.stringify` writes as a backslash and one letter. */
  predicate HasShortEscape(c: char) {
    c == '"' || c == '\\' || c == '\n' || c == '\r' || c == '\t' || c == '\U{0008}' || c == '\U{000C}'
  }

  lemma UnescapeShortEscape(c: char, t: string)
    requires HasShortEscape(c)
    ensures Unescape(EscapeChar(c) + t) == Cons(c, Unescape(t))
  {
    var e := EscapeChar(c);
    var u := (e + t)[1..];
    assert |e| == 2 && e[0] == '\\';
    assert u == [e[1]] + t;
    assert UnescapeOne(u) == Some((c, 1));
    assert u[1..] == t;
  }

  lemma UnescapeUnicodeEscape(c: char, t: string)
    requires c < ' ' && !HasShortEscape(c)
    ensures Unescape(EscapeChar(c) + t) == Cons(c, Unescape(t))
  {
    var e := EscapeChar(c);
    var hi, lo := c as int / 16, c as int % 16;
    var u := (e + t)[1..];
    assert e == "\\u00" + [HexDigit(hi), HexDigit(lo)];
    assert u[0] == 'u';
    assert u[1..5] == "00" + [HexDigit(hi), HexDigit(lo)];
    assert Hex4(u[1..5]) == Some(c as int);
    assert UnescapeOne(u) == Some((c, 5));
    assert u[5..] == t;
  }

  lemma UnescapeEscapeChar(c: char, t: string)
    ensures Unescape(EscapeChar(c) + t) == Cons(c, Unescape(t))
  {
    if HasShortEscape(c) {
      UnescapeShortEscape(c, t);
    } else if c < ' ' {
      UnescapeUnicodeEscape(c, t);
    } else {
      assert (EscapeChar(c) + t)[1..] == t;
    }
  }

  /** Escaping loses nothing: the escaped body reads back as the original. */
  lemma {:induction false} UnescapeEscape(s: string)
    ensures Unescape(Escape(s)) == Some(s)
  {
    if s != [] {
      UnescapeEscapeChar(s[0], Escape(s[1..]));
      UnescapeEscape(s[1..]);
      assert [s[0]] + s[1..] == s;
    }
  }

  const ContentOpen: string := "{\"content\":\""
  const ContentClose: string := "\"}"

  /** The object with the single string field `content` set to `s`, as `JSON.stringify` writes it. */
  function EncodeContent(s: string): string
  {
    ContentOpen + Escape(s) + ContentClose
  }

  /** An encoded payload is an object and holds no control character, in
      particular no line feed, so it always fits on one line. */
  lemma EncodePrintable(s: string)
    ensures |EncodeContent(s)| >= 1 && EncodeContent(s)[0] == '{'
    ensures forall i :: 0 <= i < |EncodeContent(s)| ==> ' ' <= EncodeContent(s)[i]
  {
    EscapePrintable(s);
    var e := Escape(s);
    assert forall i :: 0 <= i < |ContentOpen + e + ContentClose| ==>
      (ContentOpen + e + ContentClose)[i] == if i < |ContentOpen| then ContentOpen[i] else if i < |ContentOpen| + |e| then e[i - |ContentOpen|] else ContentClose[i - |ContentOpen| - |e|];
  }

  /** What is left of `s` after `prefix`, if `s` starts with it. */
  function StripPrefix(s: string, prefix: string): Option<string>
  {
    if prefix == [] then Some(s)
    else if s != [] && s[0] == prefix[0] then StripPrefix(s[1..], prefix[1..])
    else None
  }

  /** Stripping succeeds exactly on strings that start with the prefix, and
      leaves what follows it. */
  lemma {:induction false} StripPrefixIff(s: string, prefix: string)
    ensures StripPrefix(s, prefix).Some? <==> prefix <= s
    ensures StripPrefix(s, prefix).Some? ==> s == prefix + StripPrefix(s, prefix).value
  {
    if prefix != [] && s != [] && s[0] == prefix[0] {
      StripPrefixIff(s[1..], prefix[1..]);
      assert s == [s[0]] + s[1..];
      assert prefix == [prefix[0]] + prefix[1..];
    }
  }

  lemma {:induction false} StripPrefixAppend(prefix: string, t: string)
    ensures StripPrefix(prefix + t, prefix) == Some(t)
  {
    if prefix != [] {
      assert (prefix + t)[1..] == prefix[1..] + t;
      StripPrefixAppend(prefix[1..], t);
    } else {
      assert prefix + t == t;
    }
  }

  /** What is left of `s` before `suffix`, if `s` ends with it. */
  function StripSuffix(s: string, suffix: string): Option<string>
  {
    if suffix == [] then Some(s)
    else if s != [] && s[|s| - 1] == suffix[|suffix| - 1] then StripSuffix(s[..|s| - 1], suffix[..|suffix| - 1])
    else None
  }

  lemma {:induction false} StripSuffixAppend(t: string, suffix: string)
    ensures StripSuffix(t + suffix, suffix) == Some(t)
  {
    if suffix != [] {
      var n := |suffix| - 1;
      assert (t + suffix)[..|t + suffix| - 1] == t + suffix[..n];
      StripSuffixAppend(t, suffix[..n]);
    } else {
      assert t + suffix == t;
    }
  }

  /** `JSON.parse(data).content` for the canonical one-field object; any other
      text reads as `None`. */
  function DecodeContent(data: string): Option<string>
  {
    match StripPrefix(data, ContentOpen)
    case None => None
    case Some(rest) =>
      match StripSuffix(rest, ContentClose)
      case None => None
      case Some(body) => Unescape(body)
  }

  /** What the server or a form encodes, the browser decodes to the same text. */
  lemma DecodeEncode(s: string)
    ensures DecodeContent(EncodeContent(s)) == Some(s)
  {
    assert EncodeContent(s) == ContentOpen + (Escape(s) + ContentClose);
    StripPrefixAppend(ContentOpen, Escape(s) + ContentClose);
    StripSuffixAppend(Escape(s), ContentClose);
    UnescapeEscape(s);
  }
}
