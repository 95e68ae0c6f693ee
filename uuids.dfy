/** UUIDs and their string form as section 3 of RFC 4122 writes it: 32
    hexadecimal digits in groups of 8-4-4-4-12 separated by hyphens.
    `Parse` is `UUID.fromString` read strictly (either letter case is
    accepted); `ToString` is `UUID.toString`, which writes lower case. */
module Uuids {
  import opened Common

  type Nibble = x: int | 0 <= x < 16

  /** The 128 bits of a UUID as its 32 hexadecimal digits, most significant first. */
  type Uuid = s: seq<Nibble> | |s| == 32 witness seq(32, _ => 0)

  /** Positions of the four hyphens in the 36-character text. */
  predicate IsHyphenPos(i: int) {
    i == 8 || i == 13 || i == 18 || i == 23
  }

  /** Text position of the `k`-th hexadecimal digit. */
  function TextPos(k: int): (i: int)
    requires 0 <= k < 32
    ensures 0 <= i < 36 && !IsHyphenPos(i)
  {
    if k < 8 then k else if k < 12 then k + 1 else if k < 16 then k + 2 else if k < 20 then k + 3 else k + 4
  }

  /** Which hexadecimal digit a non-hyphen text position holds. */
  function DigitIndex(i: int): (k: int)
    requires 0 <= i < 36 && !IsHyphenPos(i)
    ensures 0 <= k < 32 && TextPos(k) == i
  {
    if i < 8 then i else if i < 13 then i - 1 else if i < 18 then i - 2 else if i < 23 then i - 3 else i - 4
  }

  predicate IsHexChar(c: char) {
    ('0' <= c <= '9') || ('a' <= c <= 'f') || ('A' <= c <= 'F')
  }

  predicate IsLowerHexChar(c: char) {
    ('0' <= c <= '9') || ('a' <= c <= 'f')
  }

  function HexValue(c: char): Nibble
    requires IsHexChar(c)
  {
    if '0' <= c <= '9' then c as int - '0' as int
    else if 'a' <= c <= 'f' then c as int - 'a' as int + 10
    else c as int - 'A' as int + 10
  }

  /** The lower-case digit `UUID.toString` writes. */
  function HexChar(n: Nibble): (c: char)
    ensures IsLowerHexChar(c) && HexValue(c) == n
  {
    if n < 10 then ('0' as int + n) as char else ('a' as int + n - 10) as char
  }

  /** Text in the 8-4-4-4-12 form, hexadecimal digits of either case. */
  predicate WellFormed(s: string) {
    |s| == 36 && forall i :: 0 <= i < 36 ==> if IsHyphenPos(i) then s[i] == '-' else IsHexChar(s[i])
  }

  /** Text in the form `UUID.toString` produces: well formed and lower case. */
  predicate Canonical(s: string) {
    |s| == 36 && forall i :: 0 <= i < 36 ==> if IsHyphenPos(i) then s[i] == '-' else IsLowerHexChar(s[i])
  }

  /** `UUID.fromString(s)`; None stands for its IllegalArgumentException. */
  function Parse(s: string): (r: Option<Uuid>)
    ensures r.Some? <==> WellFormed(s)
    ensures r.Some? ==> forall k :: 0 <= k < 32 ==> r.value[k] == HexValue(s[TextPos(k)])
  {
    if WellFormed(s) then Some(seq(32, k requires 0 <= k < 32 => HexValue(s[TextPos(k)]))) else None
  }

  /** `uuid.toString()`. */
  function ToString(u: Uuid): (s: string)
    ensures Canonical(s)
    ensures forall k :: 0 <= k < 32 ==> s[TextPos(k)] == HexChar(u[k])
  {
    var s := seq(36, i requires 0 <= i < 36 => if IsHyphenPos(i) then '-' else HexChar(u[DigitIndex(i)]));
    assert forall k :: 0 <= k < 32 ==> s[TextPos(k)] == HexChar(u[k]) by {
      forall k | 0 <= k < 32 ensures s[TextPos(k)] == HexChar(u[k]) {
        assert DigitIndex(TextPos(k)) == k;
      }
    }
    s
  }

  lemma CanonicalIsWellFormed(s: string)
    requires Canonical(s)
    ensures WellFormed(s)
  {
  }

  /** Reading back the text of a UUID gives the same UUID. */
  lemma ParseToString(u: Uuid)
    ensures Parse(ToString(u)) == Some(u)
  {
    var s := ToString(u);
    CanonicalIsWellFormed(s);
    var v := Parse(s).value;
    forall k | 0 <= k < 32 ensures v[k] == u[k] {
      assert s[TextPos(k)] == HexChar(u[k]);
    }
    assert v == u;
  }

  /** Canonical text is exactly the text of the UUID it denotes. */
  lemma ToStringParse(s: string)
    requires Canonical(s)
    ensures Parse(s).Some? && ToString(Parse(s).value) == s
  {
    CanonicalIsWellFormed(s);
    var u := Parse(s).value;
    var t := ToString(u);
    forall i | 0 <= i < 36 ensures t[i] == s[i] {
      if !IsHyphenPos(i) {
        var k := DigitIndex(i);
        assert t[TextPos(k)] == HexChar(u[k]);
        assert HexChar(HexValue(s[i])) == s[i];
      }
    }
  }

  /** Distinct UUIDs have distinct texts. */
  lemma ToStringInjective(u: Uuid, v: Uuid)
    requires ToString(u) == ToString(v)
    ensures u == v
  {
    ParseToString(u);
    ParseToString(v);
  }
}
