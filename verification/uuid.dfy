/** Lobby identifiers: a version-4 UUID, 128 bits kept as 32 hexadecimal
    digits. The bot renders it with `to_hyphenated().to_string()` (lower case,
    8-4-4-4-12 groups, 36 characters) and reads user input with
    `Uuid::parse_str`, which accepts the 32-digit simple form, the hyphenated
    form and the hyphenated form behind a `urn:uuid:` prefix, in either case. */
module Uuid {
  import opened Common
  import opened Text

  type Nibble = x: nat | x < 16

  type Uuid = s: seq<Nibble> | |s| == 32 witness seq(32, _ => 0)

  /** Length of the hyphenated rendering; the listener splits custom ids here. */
  const HYPHENATED_LENGTH: nat := 36

  function HexValue(c: char): Option<Nibble>
  {
    if '0' <= c <= '9' then Some(c as int - '0' as int)
    else if 'a' <= c <= 'f' then Some(c as int - 'a' as int + 10)
    else if 'A' <= c <= 'F' then Some(c as int - 'A' as int + 10)
    else None
  }

  function HexChar(n: Nibble): char
  {
    ['0', '1', '2', '3', '4', '5', '6', '7', '8', '9', 'a', 'b', 'c', 'd', 'e', 'f'][n]
  }

  lemma HexCharValue(n: Nibble)
    ensures HexValue(HexChar(n)) == Some(n)
  {
  }

  function HexText(ns: seq<Nibble>): (s: string)
    ensures |s| == |ns|
    ensures forall i :: 0 <= i < |ns| ==> s[i] == HexChar(ns[i])
  {
    seq(|ns|, i requires 0 <= i < |ns| => HexChar(ns[i]))
  }

  /** The digits of `s` when every character of it is a hexadecimal digit. */
  function ParseHex(s: string): (r: Option<seq<Nibble>>)
    ensures r.Some? ==> |r.value| == |s|
  {
    if forall i :: 0 <= i < |s| ==> HexValue(s[i]).Some?
    then Some(seq(|s|, i requires 0 <= i < |s| => HexValue(s[i]).value))
    else None
  }

  /** `to_hyphenated().to_string()`. */
  function Hyphenated(u: Uuid): (s: string)
    ensures |s| == HYPHENATED_LENGTH
    ensures s[8] == '-' && s[13] == '-' && s[18] == '-' && s[23] == '-'
  {
    HexText(u[..8]) + "-" + HexText(u[8..12]) + "-" + HexText(u[12..16]) + "-"
    + HexText(u[16..20]) + "-" + HexText(u[20..])
  }

  /** The 32 digit characters of a 36-character hyphenated text. */
  function HyphenatedDigits(s: string): (d: string)
    requires |s| == HYPHENATED_LENGTH
    ensures |d| == 32
  {
    s[..8] + s[9..13] + s[14..18] + s[19..23] + s[24..]
  }

  function ParseHyphenated(s: string): Option<Uuid>
    requires |s| == HYPHENATED_LENGTH
  {
    if s[8] == '-' && s[13] == '-' && s[18] == '-' && s[23] == '-' then
      var digits := ParseHex(HyphenatedDigits(s));
      if digits.Some? then Some(digits.value) else None
    else None
  }

  /** `Uuid::parse_str`. */
  function ParseStr(s: string): (r: Option<Uuid>)
    ensures r.Some? ==> |s| in {32, 36, 45}
  {
    if |s| == 45 && StartsWith(s, "urn:uuid:") then ParseHyphenated(s[9..])
    else if |s| == 32 then
      var digits := ParseHex(s);
      if digits.Some? then Some(digits.value) else None
    else if |s| == HYPHENATED_LENGTH then ParseHyphenated(s)
    else None
  }

  /** Every rendered lobby id parses back to the same UUID. */
  lemma ParseHyphenatedRoundTrip(u: Uuid)
    ensures ParseStr(Hyphenated(u)) == Some(u)
  {
    var s := Hyphenated(u);
    var d := HyphenatedDigits(s);
    assert d == HexText(u) by {
      forall i | 0 <= i < 32 ensures d[i] == HexText(u)[i] {
        if i < 8 { assert d[i] == s[i]; }
        else if i < 12 { assert d[i] == s[i + 1]; }
        else if i < 16 { assert d[i] == s[i + 2]; }
        else if i < 20 { assert d[i] == s[i + 3]; }
        else { assert d[i] == s[i + 4]; }
      }
    }
    forall i | 0 <= i < 32 ensures HexValue(d[i]) == Some(u[i]) {
      HexCharValue(u[i]);
    }
    var parsed := ParseHex(d);
    assert parsed.Some?;
    assert parsed.value == u;
  }

  /** Distinct lobbies have distinct registry keys. */
  lemma HyphenatedInjective(u: Uuid, v: Uuid)
    ensures Hyphenated(u) == Hyphenated(v) <==> u == v
  {
    if Hyphenated(u) == Hyphenated(v) {
      ParseHyphenatedRoundTrip(u);
      ParseHyphenatedRoundTrip(v);
    }
  }
}
