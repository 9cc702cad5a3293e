/**
 * `JSON.stringify` of the user's server switches, an object whose values are booleans, as
 * the TypeScript event cache uses it in its keys; and a reader for that text, to show that
 * the text determines the switches.
 */
module Json {
  import opened Wrappers
  import opened Text
  import Seqs

  function HexDigit(d: nat): (c: char)
    requires d < 16
  {
    if d < 10 then ('0' as int + d) as char else ('a' as int + d - 10) as char
  }

  function HexValue(c: char): (r: Option<nat>)
    ensures r.Some? ==> r.value < 16
  {
    if '0' <= c <= '9' then Some(c as int - '0' as int)
    else if 'a' <= c <= 'f' then Some(c as int - 'a' as int + 10)
    else None
  }

  lemma HexRoundTrip(d: nat)
    requires d < 16
    ensures HexValue(HexDigit(d)) == Some(d)
  {
  }

  /**
   * How a string literal writes one character: `"` and `\` behind a backslash, the five
   * control characters with short escapes, other control characters as `\u00xx`, and
   * everything else as itself.
   */
  function EscapeChar(c: char): (r: string)
    ensures |r| >= 1
  {
    var n := c as int;
    if c == '"' then "\\\""
    else if c == '\\' then "\\\\"
    else if n == 8 then "\\b"
    else if n == 12 then "\\f"
    else if n == 10 then "\\n"
    else if n == 13 then "\\r"
    else if n == 9 then "\\t"
    else if n < 0x20 then "\\u00" + [HexDigit(n / 16), HexDigit(n % 16)]
    else [c]
  }

  function Escape(s: string): string
  {
    if s == [] then [] else EscapeChar(s[0]) + Escape(s[1..])
  }

  function Quote(s: string): string
  {
    "\"" + Escape(s) + "\""
  }

  function BoolText(b: bool): string
  {
    if b then "true" else "false"
  }

  /** The members of an object, separated by commas, in insertion order. */
  function Members(r: seq<(string, bool)>): string
  {
    if r == [] then ""
    else Quote(r[0].0) + ":" + BoolText(r[0].1) + (if |r| == 1 then "" else "," + Members(r[1..]))
  }

  /** `JSON.stringify(object)` for an object with boolean values. */
  function Stringify(r: seq<(string, bool)>): (t: string)
    ensures |t| >= 2 && t[0] == '{' && t[|t| - 1] == '}'
  {
    "{" + Members(r) + "}"
  }

  // ---------------------------------------------------------------------------------------
  // Reading the text back

  /** The character a two-character escape `\e` stands for. */
  function ShortEscape(e: char): Option<char>
  {
    if e == '"' then Some('"')
    else if e == '\\' then Some('\\')
    else if e == 'b' then Some(8 as char)
    else if e == 'f' then Some(12 as char)
    else if e == 'n' then Some(10 as char)
    else if e == 'r' then Some(13 as char)
    else if e == 't' then Some(9 as char)
    else None
  }

  /** The character `\u00xy` stands for, from the two hex digits after `00`. */
  function ByteEscape(s: string): Option<char>
  {
    if |s| >= 6 && s[0] == '\\' && s[1] == 'u' && s[2] == '0' && s[3] == '0' then
      match (HexValue(s[4]), HexValue(s[5]))
      case (Some(h), Some(l)) => Some((16 * h + l) as char)
      case _ => None
    else None
  }

  /** The contents of a string literal up to its closing quote, and the text after it. */
  function ReadString(s: string): (r: Option<(string, string)>)
    ensures r.Some? ==> |r.value.1| < |s|
    decreases |s|
  {
    if s == [] then None
    else if s[0] == '"' then Some(([], s[1..]))
    else if s[0] == '\\' then
      if |s| >= 2 && ShortEscape(s[1]).Some? then
        match ReadString(s[2..])
        case None => None
        case Some((v, rest)) => Some(([ShortEscape(s[1]).value] + v, rest))
      else if ByteEscape(s).Some? then
        match ReadString(s[6..])
        case None => None
        case Some((v, rest)) => Some(([ByteEscape(s).value] + v, rest))
      else None
    else
      match ReadString(s[1..])
      case None => None
      case Some((v, rest)) => Some(([s[0]] + v, rest))
  }

  /** The members of an object from their first quote to the closing brace. */
  function ReadMembers(s: string): Option<seq<(string, bool)>>
    decreases |s|, 0
  {
    if s == [] || s[0] != '"' then None
    else match ReadString(s[1..])
      case None => None
      case Some((k, rest)) =>
        if rest == [] || rest[0] != ':' then None
        else
          var after := rest[1..];
          var b := StartsWith(after, "true");
          if !b && !StartsWith(after, "false") then None
          else
            MembersAfter(k, b, if b then after[4..] else after[5..])
  }

  /** After a member `k: b`: the closing brace, or a comma and more members. */
  function MembersAfter(k: string, b: bool, tail: string): Option<seq<(string, bool)>>
    decreases |tail|, 1
  {
    if tail == "}" then Some([(k, b)])
    else if tail != [] && tail[0] == ',' then
      match ReadMembers(tail[1..])
      case None => None
      case Some(m) => Some([(k, b)] + m)
    else None
  }

  function Parse(t: string): Option<seq<(string, bool)>>
  {
    if t == "{}" then Some([])
    else if t != [] && t[0] == '{' then ReadMembers(t[1..])
    else None
  }

  // ---------------------------------------------------------------------------------------
  // Round trip

  lemma ReadEscapedChar(c: char, t: string)
    requires ReadString(t).Some?
    ensures ReadString(EscapeChar(c) + t) == Some(([c] + ReadString(t).value.0, ReadString(t).value.1))
  {
    var n := c as int;
    var s := EscapeChar(c) + t;
    if c == '"' || c == '\\' || n == 8 || n == 12 || n == 10 || n == 13 || n == 9 {
      assert s[2..] == t;
      assert ShortEscape(s[1]) == Some(c);
    } else if n < 0x20 {
      HexRoundTrip(n / 16);
      HexRoundTrip(n % 16);
      assert s[6..] == t;
      assert s[0] == '\\' && s[1] == 'u';
      assert ShortEscape(s[1]).None?;
      assert ByteEscape(s) == Some(c);
    } else {
      assert s[1..] == t;
    }
  }

  /** The escaped first character, then the rest of the escaped text with its quote and tail. */
  lemma EscapeRegroup(k: string, rest: string)
    requires k != []
    ensures Escape(k) + "\"" + rest == EscapeChar(k[0]) + (Escape(k[1..]) + "\"" + rest)
  {
    var a, b := EscapeChar(k[0]), Escape(k[1..]);
    assert Escape(k) == a + b;
    Seqs.AppendAssoc(a, b, "\"");
    Seqs.AppendAssoc(a, b + "\"", rest);
  }

  lemma {:induction false} ReadQuoted(k: string, rest: string)
    ensures ReadString(Escape(k) + "\"" + rest) == Some((k, rest))
  {
    if k == [] {
      assert Escape(k) + "\"" + rest == "\"" + rest;
      assert ("\"" + rest)[1..] == rest;
    } else {
      ReadQuoted(k[1..], rest);
      ReadEscapedChar(k[0], Escape(k[1..]) + "\"" + rest);
      EscapeRegroup(k, rest);
      assert [k[0]] + k[1..] == k;
    }
  }

  /** What follows the colon: the value, then the rest. */
  lemma ReadBool(b: bool, x: string)
    ensures var after := BoolText(b) + x;
      StartsWith(after, "true") == b && (b || StartsWith(after, "false")) &&
      (if b then after[4..] else after[5..]) == x
  {
    var after := BoolText(b) + x;
    if b {
      assert after[..4] == "true";
    } else {
      assert after[0] == 'f';
      assert after[..5] == "false";
    }
  }

  /** The text after the key of a member: the colon, the value, then `x`. */
  lemma ReadValue(k: string, b: bool, x: string, rest: string)
    requires rest == ":" + BoolText(b) + x
    ensures rest != [] && rest[0] == ':'
    ensures var after := rest[1..];
      StartsWith(after, "true") == b && (b || StartsWith(after, "false")) &&
      (if b then after[4..] else after[5..]) == x
  {
    assert rest[1..] == BoolText(b) + x;
    ReadBool(b, x);
  }

  /** One round of `ReadMembers`, from the facts about its pieces. */
  lemma ReadMembersStep(s: string, k: string, rest: string, b: bool, x: string)
    requires s != [] && s[0] == '"' && ReadString(s[1..]) == Some((k, rest))
    requires rest != [] && rest[0] == ':'
    requires StartsWith(rest[1..], "true") == b && (b || StartsWith(rest[1..], "false"))
    requires (if b then rest[1..][4..] else rest[1..][5..]) == x
    ensures ReadMembers(s) == MembersAfter(k, b, x)
  {
  }

  /** The text `s` of one member, then `x`, read as a member list. */
  lemma ReadMember(k: string, b: bool, x: string, s: string)
    requires s == Quote(k) + ":" + BoolText(b) + x
    ensures ReadMembers(s) == MembersAfter(k, b, x)
  {
    var rest := ":" + BoolText(b) + x;
    assert s == Quote(k) + rest;
    ReadKey(k, rest, s);
    ReadValue(k, b, x, rest);
    ReadMembersStep(s, k, rest, b, x);
  }

  /** A quoted key, then `rest`: the key is read back and `rest` is left. */
  lemma ReadKey(k: string, rest: string, s: string)
    requires s == Quote(k) + rest
    ensures s != [] && s[0] == '"' && ReadString(s[1..]) == Some((k, rest))
  {
    assert s[1..] == Escape(k) + "\"" + rest;
    ReadQuoted(k, rest);
  }

  /** After a member, a comma and the rest of the list. */
  lemma MembersAfterComma(k: string, b: bool, tail: string, m: seq<(string, bool)>)
    requires tail != [] && tail[0] == ',' && ReadMembers(tail[1..]) == Some(m)
    ensures MembersAfter(k, b, tail) == Some([(k, b)] + m)
  {
    assert tail != "}" by {
      assert tail[0] != "}"[0];
    }
  }

  /** The text of a non-empty member list, with the closing brace, split after its first member. */
  lemma MembersHead(r: seq<(string, bool)>)
    requires r != []
    ensures Members(r) + "}" == Quote(r[0].0) + ":" + BoolText(r[0].1) + (if |r| == 1 then "}" else "," + Members(r[1..]) + "}")
    ensures |Members(r)| >= 1
  {
  }

  /** Dropping the opening character of `c m }` leaves `m }`. */
  lemma DropFirst(c: char, m: string)
    ensures ([c] + m + "}")[1..] == m + "}"
  {
    assert ([c] + m + "}")[1..] == [c][1..] + m + "}";
  }

  lemma {:induction false} ReadMembersRoundTrip(r: seq<(string, bool)>)
    requires r != []
    ensures ReadMembers(Members(r) + "}") == Some(r)
  {
    var k := r[0].0;
    var b := r[0].1;
    var x := if |r| == 1 then "}" else "," + Members(r[1..]) + "}";
    MembersHead(r);
    ReadMember(k, b, x, Members(r) + "}");
    assert [(k, b)] + r[1..] == r;
    if |r| > 1 {
      ReadMembersRoundTrip(r[1..]);
      DropFirst(',', Members(r[1..]));
      MembersAfterComma(k, b, x, r[1..]);
    } else {
      assert MembersAfter(k, b, x) == Some([(k, b)]);
      assert r == [(k, b)];
    }
  }

  /** Reading the text of an object gives the object back. */
  lemma ParseStringify(r: seq<(string, bool)>)
    ensures Parse(Stringify(r)) == Some(r)
  {
    if r != [] {
      var t := Stringify(r);
      MembersHead(r);
      assert t != "{}" by {
        assert |t| > 2;
      }
      DropFirst('{', Members(r));
      ReadMembersRoundTrip(r);
    }
  }

  /** Different switch lists are written differently. */
  lemma StringifyInjective(a: seq<(string, bool)>, b: seq<(string, bool)>)
    requires Stringify(a) == Stringify(b)
    ensures a == b
  {
    ParseStringify(a);
    ParseStringify(b);
  }
}
