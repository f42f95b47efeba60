/** The broker's strict decoder for canonical padded base64 (RFC 4648, sections 4 and 3.5). */
module Base64 {
  import opened Identifiers

  newtype Byte = b: int | 0 <= b < 256

  newtype Sextet = v: int | 0 <= v < 64

  // ---------------------------------------------------------------- the encoding of RFC 4648

  /** The alphabet of table 1. */
  function Digit(v: Sextet): char {
    if v < 26 then ('A' as int + v as int) as char
    else if v < 52 then ('a' as int + v as int - 26) as char
    else if v < 62 then ('0' as int + v as int - 52) as char
    else if v == 62 then '+' else '/'
  }

  predicate IsDigit(c: char) { 'A' <= c <= 'Z' || 'a' <= c <= 'z' || '0' <= c <= '9' || c == '+' || c == '/' }

  function Value(c: char): Sextet
    requires IsDigit(c)
  {
    if 'A' <= c <= 'Z' then (c as int - 'A' as int) as Sextet
    else if 'a' <= c <= 'z' then (c as int - 'a' as int + 26) as Sextet
    else if '0' <= c <= '9' then (c as int - '0' as int + 52) as Sextet
    else if c == '+' then 62 else 63
  }

  lemma DigitsCorrespond()
    ensures forall v: Sextet :: IsDigit(Digit(v)) && Value(Digit(v)) == v
    ensures forall c | IsDigit(c) :: Digit(Value(c)) == c
  {
  }

  /** Three bytes become four digits. */
  function Group(a: Byte, b: Byte, c: Byte): (g: string)
    ensures |g| == 4
  {
    [Digit((a / 4) as Sextet), Digit((a % 4 * 16 + b / 16) as Sextet), Digit((b % 16 * 4 + c / 64) as Sextet), Digit((c % 64) as Sextet)]
  }

  function Encode(bytes: seq<Byte>): (s: string)
    ensures |s| % 4 == 0 && |s| == (|bytes| + 2) / 3 * 4
  {
    if bytes == [] then ""
    else if |bytes| == 1 then Group(bytes[0], 0, 0)[..2] + "=="
    else if |bytes| == 2 then Group(bytes[0], bytes[1], 0)[..3] + "="
    else Group(bytes[0], bytes[1], bytes[2]) + Encode(bytes[3..])
  }

  // ---------------------------------------------------------------- decoding

  /** Only digits, up to two padding characters at the very end, in whole groups. */
  ghost predicate Shaped(s: string) {
    |s| % 4 == 0 && forall i | 0 <= i < |s| - Padding(s) :: IsDigit(s[i])
  }

  function Padding(s: string): (n: nat)
    ensures n <= |s|
  {
    if |s| >= 2 && s[|s| - 2..] == "==" then 2 else if |s| >= 1 && s[|s| - 1] == '=' then 1 else 0
  }

  function ValueAt(s: string, i: nat): int
    requires i < |s|
  {
    if IsDigit(s[i]) then Value(s[i]) as int else 0
  }

  /** The bytes of one group; a padding character contributes nothing. */
  function Ungroup(s: string): seq<Byte>
    requires |s| == 4
  {
    var (w, x, y, z) := (ValueAt(s, 0), ValueAt(s, 1), ValueAt(s, 2), ValueAt(s, 3));
    [(w * 4 + x / 16) as Byte, (x % 16 * 16 + y / 4) as Byte, (y % 4 * 64 + z) as Byte][..3 - Padding(s)]
  }

  /** `Buffer.from(value, 'base64')` on text of that shape: bits that do not fill a byte are dropped. */
  function Decode(s: string): seq<Byte>
    requires |s| % 4 == 0
  {
    if s == "" then []
    else if |s| == 4 then Ungroup(s)
    else Ungroup(s[..4]) + Decode(s[4..])
  }

  /** The bits of three bytes, cut into four and put together again. */
  lemma Recompose(a: int, b: int, c: int)
    requires 0 <= a < 256 && 0 <= b < 256 && 0 <= c < 256
    ensures var (w, x, y, z) := (a / 4, a % 4 * 16 + b / 16, b % 16 * 4 + c / 64, c % 64);
            w * 4 + x / 16 == a && x % 16 * 16 + y / 4 == b && y % 4 * 64 + z == c
  {
  }

  lemma GroupValues(a: Byte, b: Byte, c: Byte)
    ensures var g := Group(a, b, c);
            && |g| == 4 && (forall i | 0 <= i < 4 :: IsDigit(g[i]) && g[i] != '=')
            && ValueAt(g, 0) == a as int / 4 && ValueAt(g, 1) == a as int % 4 * 16 + b as int / 16
            && ValueAt(g, 2) == b as int % 16 * 4 + c as int / 64 && ValueAt(g, 3) == c as int % 64
  {
    DigitsCorrespond();
    hide Digit, Value;
  }

  lemma GroupRoundTrip(a: Byte, b: Byte, c: Byte)
    ensures Padding(Group(a, b, c)) == 0 && Ungroup(Group(a, b, c)) == [a, b, c]
  {
    hide ValueAt, Group, IsDigit;
    GroupValues(a, b, c);
    Recompose(a as int, b as int, c as int);
    var g := Group(a, b, c);
    assert g[2..][0] == g[2];
  }

  /** A padded group decodes to the bytes it was made of. */
  lemma OnePadded(a: Byte, b: Byte)
    ensures Ungroup(Group(a, b, 0)[..3] + "=") == [a, b]
  {
    hide Group;
    GroupValues(a, b, 0);
    Recompose(a as int, b as int, 0);
    var (g, p) := (Group(a, b, 0), Group(a, b, 0)[..3] + "=");
    assert p[0] == g[0] && p[1] == g[1] && p[2] == g[2] && p[3] == '=';
    assert p[2..][0] == p[2];
    SameValue(p, g, 0);
    SameValue(p, g, 1);
    SameValue(p, g, 2);
    hide ValueAt, IsDigit;
    assert Padding(p) == 1;
  }

  lemma TwoPadded(a: Byte)
    ensures Ungroup(Group(a, 0, 0)[..2] + "==") == [a]
  {
    hide Group;
    GroupValues(a, 0, 0);
    Recompose(a as int, 0, 0);
    var (g, p) := (Group(a, 0, 0), Group(a, 0, 0)[..2] + "==");
    assert p[0] == g[0] && p[1] == g[1] && p[2..] == "==";
    SameValue(p, g, 0);
    SameValue(p, g, 1);
    hide ValueAt, IsDigit;
    assert Padding(p) == 2;
  }

  lemma SameValue(p: string, g: string, i: nat)
    requires i < |p| && i < |g| && p[i] == g[i]
    ensures ValueAt(p, i) == ValueAt(g, i)
  {
  }

  /** Decoding inverts encoding. */
  lemma {:induction false} DecodeEncode(bytes: seq<Byte>)
    ensures Decode(Encode(bytes)) == bytes
  {
    hide Group, Ungroup;
    if |bytes| == 0 {
    } else if |bytes| == 1 {
      TwoPadded(bytes[0]);
    } else if |bytes| == 2 {
      OnePadded(bytes[0], bytes[1]);
    } else {
      var group := Group(bytes[0], bytes[1], bytes[2]);
      GroupRoundTrip(bytes[0], bytes[1], bytes[2]);
      DecodeEncode(bytes[3..]);
      var s := Encode(bytes);
      if |bytes| == 3 {
        assert Encode(bytes[3..]) == "";
        assert s == group;
      } else {
        assert s[..4] == group && s[4..] == Encode(bytes[3..]);
      }
      assert bytes == bytes[..3] + bytes[3..];
    }
  }

  /** So no two byte strings share an encoding. */
  lemma EncodeInjective(x: seq<Byte>, y: seq<Byte>)
    requires Encode(x) == Encode(y)
    ensures x == y
  {
    DecodeEncode(x);
    DecodeEncode(y);
  }

  ghost predicate AllDigits(g: string) { |g| == 4 && forall i | 0 <= i < 4 :: IsDigit(g[i]) && g[i] != '=' }

  lemma FullGroupShaped(g: string, rest: string)
    requires AllDigits(g) && Shaped(rest)
    ensures Shaped(g + rest)
  {
    hide IsDigit;
    var s := g + rest;
    if rest == "" {
      assert s == g;
      assert g[2..][0] == g[2];
    } else {
      assert s[|s| - 2..] == rest[|rest| - 2..];
      forall i | 0 <= i < |s| - Padding(s) ensures IsDigit(s[i]) {
        if i >= 4 { assert s[i] == rest[i - 4]; } else { assert s[i] == g[i]; }
      }
    }
  }

  lemma PaddedGroupShaped(g: string)
    requires AllDigits(g)
    ensures Shaped(g[..2] + "==") && Shaped(g[..3] + "=")
  {
    hide IsDigit;
    var (one, two) := (g[..3] + "=", g[..2] + "==");
    assert one[2..][0] == g[2] && one[3] == '=' && Padding(one) == 1;
    assert two[2..] == "==" && Padding(two) == 2;
  }

  /** An encoding is made of digits and at most two padding characters at its end. */
  lemma {:induction false} EncodingIsShaped(bytes: seq<Byte>)
    ensures Shaped(Encode(bytes))
  {
    hide Group, IsDigit, Shaped;
    if |bytes| == 0 {
      NothingIsShaped();
    } else {
      var b := if |bytes| >= 2 then bytes[1] else 0;
      var c := if |bytes| >= 3 then bytes[2] else 0;
      GroupValues(bytes[0], b, c);
      PaddedGroupShaped(Group(bytes[0], b, c));
      if |bytes| >= 3 {
        EncodingIsShaped(bytes[3..]);
        FullGroupShaped(Group(bytes[0], b, c), Encode(bytes[3..]));
      }
    }
  }

  lemma NothingIsShaped()
    ensures Shaped("")
  {
  }

  // ---------------------------------------------------------------- the decoder

  /** The canonical encoding of some bytes within the limits. */
  ghost predicate Accepts(value: Option<string>, exact: Option<nat>, max: nat, out: seq<Byte>) {
    value == Some(Encode(out)) && |out| <= max && (exact.Some? ==> |out| == exact.value)
  }

  /** What acceptance says of the string. */
  lemma AcceptedText(value: Option<string>, exact: Option<nat>, max: nat)
    requires exists out :: Accepts(value, exact, max, out)
    ensures value.Some? && Shaped(value.value) && |value.value| <= (max + 2) / 3 * 4
    ensures var bytes := Decode(value.value);
            Encode(bytes) == value.value && |bytes| <= max && (exact.Some? ==> |bytes| == exact.value)
  {
    hide Encode, Decode, IsDigit, Padding;
    var out :| Accepts(value, exact, max, out);
    EncodingIsShaped(out);
    DecodeEncode(out);
  }

  lemma IsAccepted(s: string, exact: Option<nat>, max: nat, bytes: seq<Byte>)
    requires Encode(bytes) == s && |bytes| <= max && (exact.Some? ==> |bytes| == exact.value)
    ensures Accepts(Some(s), exact, max, bytes)
  {
    hide Encode;
  }

  /** `b64`: it accepts a string exactly when it is the canonical padded encoding of some byte string
      within `max`, and of length `exact` when given, and returns those bytes. */
  method Parse(value: Option<string>, exact: Option<nat>, max: nat) returns (output: Option<seq<Byte>>)
    ensures output.Some? ==> Accepts(value, exact, max, output.value)
    ensures output.Some? <==> exists out :: Accepts(value, exact, max, out)
  {
    hide Encode, Decode, IsDigit, Accepts;
    if exists out :: Accepts(value, exact, max, out) { AcceptedText(value, exact, max); }
    if value == None { return None; }
    var s := value.value;
    if |s| > (max + 2) / 3 * 4 { return None; }
    var shaped := HasShape(s);
    if !shaped { return None; }
    var bytes := Decode(s);
    if |bytes| > max || Encode(bytes) != s || (exact.Some? && |bytes| != exact.value) { return None; }
    IsAccepted(s, exact, max, bytes);
    return Some(bytes);
  }

  /** The length, padding and alphabet checks. */
  method HasShape(s: string) returns (shaped: bool)
    ensures shaped <==> Shaped(s)
  {
    hide IsDigit;
    if |s| % 4 != 0 { return false; }
    var padding := if |s| >= 2 && s[|s| - 2..] == "==" then 2 else if |s| >= 1 && s[|s| - 1] == '=' then 1 else 0;
    var contentLength := |s| - padding;
    if (padding == 1 && contentLength % 4 != 3) || (padding == 2 && contentLength % 4 != 2) { return false; }
    shaped := OnlyDigits(s[..contentLength]);
    assert padding == Padding(s);
    assert forall i | 0 <= i < contentLength :: s[..contentLength][i] == s[i];
  }

  /** The loop over the character codes. */
  method OnlyDigits(content: string) returns (only: bool)
    ensures only <==> forall i | 0 <= i < |content| :: IsDigit(content[i])
  {
    for index := 0 to |content|
      invariant forall i | 0 <= i < index :: IsDigit(content[i])
    {
      var c := content[index];
      if !('A' <= c <= 'Z' || 'a' <= c <= 'z' || '0' <= c <= '9' || c == '+' || c == '/') { return false; }
    }
    return true;
  }

  /** No two accepted strings share a decoding. */
  lemma AcceptedDecodeApart(s: string, t: string, exact: Option<nat>, max: nat, out: seq<Byte>)
    requires Accepts(Some(s), exact, max, out) && Accepts(Some(t), exact, max, out)
    ensures s == t && Decode(s) == out
  {
    DecodeEncode(out);
  }

  // ---------------------------------------------------------------- stray bits

  /** The bits of the last digit that no byte takes up. */
  function StrayBits(s: string): nat {
    if Padding(s) == 1 && |s| >= 2 then ValueAt(s, |s| - 2) % 4
    else if Padding(s) == 2 && |s| >= 3 then ValueAt(s, |s| - 3) % 16
    else 0
  }

  /** Four digits, put together into bytes and cut again. */
  lemma Recut(w: int, x: int, y: int, z: int)
    requires 0 <= w < 64 && 0 <= x < 64 && 0 <= y < 64 && 0 <= z < 64
    ensures var (a, b, c) := (w * 4 + x / 16, x % 16 * 16 + y / 4, y % 4 * 64 + z);
            && 0 <= a < 256 && 0 <= b < 256 && 0 <= c < 256
            && a / 4 == w && a % 4 * 16 + b / 16 == x && b % 16 * 4 + c / 64 == y && c % 64 == z
            && b % 16 * 4 == y - y % 4 && a % 4 * 16 == x - x % 16
  {
  }

  /** The digit at a place, from its value. */
  lemma DigitAt(g: string, i: nat)
    requires i < |g|
    ensures 0 <= ValueAt(g, i) < 64
    ensures IsDigit(g[i]) ==> g[i] != '=' && forall v: Sextet :: Digit(v) == g[i] <==> v as int == ValueAt(g, i)
  {
    DigitsCorrespond();
  }

  /** What a group decodes to before padding is taken into account. */
  function Bytes(w: int, x: int, y: int, z: int): (u: seq<Byte>)
    requires 0 <= w < 64 && 0 <= x < 64 && 0 <= y < 64 && 0 <= z < 64
    ensures |u| == 3
  {
    [(w * 4 + x / 16) as Byte, (x % 16 * 16 + y / 4) as Byte, (y % 4 * 64 + z) as Byte]
  }

  lemma UngroupIs(g: string)
    requires |g| == 4
    ensures forall i | 0 <= i < 4 :: 0 <= ValueAt(g, i) < 64
    ensures Ungroup(g) == Bytes(ValueAt(g, 0), ValueAt(g, 1), ValueAt(g, 2), ValueAt(g, 3))[..3 - Padding(g)]
  {
    hide IsDigit, Value, ValueAt, Padding;
    DigitAt(g, 0);
    DigitAt(g, 1);
    DigitAt(g, 2);
    DigitAt(g, 3);
  }

  /** The digits that the bytes of a group encode to; without its last bits a digit is `x0` or `y0`. */
  lemma Regroup(w: Sextet, x: Sextet, y: Sextet, z: Sextet, x0: Sextet, y0: Sextet)
    requires x0 as int == x as int - x as int % 16 && y0 as int == y as int - y as int % 4
    ensures var u := Bytes(w as int, x as int, y as int, z as int);
            && Group(u[0], u[1], u[2]) == [Digit(w), Digit(x), Digit(y), Digit(z)]
            && Group(u[0], u[1], 0)[..3] == [Digit(w), Digit(x), Digit(y0)]
            && Group(u[0], 0, 0)[..2] == [Digit(w), Digit(x0)]
  {
    hide Digit;
    Recut(w as int, x as int, y as int, z as int);
  }

  /** One full group is always the encoding of its bytes. */
  lemma FullGroupIsCanonical(g: string)
    requires |g| == 4 && forall i | 0 <= i < 4 :: IsDigit(g[i])
    ensures Padding(g) == 0 && |Ungroup(g)| == 3 && Group(Ungroup(g)[0], Ungroup(g)[1], Ungroup(g)[2]) == g
  {
    hide IsDigit, Digit, ValueAt, Bytes, Group, Ungroup;
    DigitAt(g, 0);
    DigitAt(g, 1);
    DigitAt(g, 2);
    DigitAt(g, 3);
    assert g[2..][0] == g[2];
    UngroupIs(g);
    var (w, x, y, z) := (ValueAt(g, 0), ValueAt(g, 1), ValueAt(g, 2), ValueAt(g, 3));
    var (x0, y0) := ((x - x % 16) as Sextet, (y - y % 4) as Sextet);
    Regroup(w as Sextet, x as Sextet, y as Sextet, z as Sextet, x0, y0);
    assert g == [g[0], g[1], g[2], g[3]];
  }

  lemma OnePaddedIsCanonical(g: string)
    requires |g| == 4 && g[3] == '=' && forall i | 0 <= i < 3 :: IsDigit(g[i])
    ensures Padding(g) == 1 && |Ungroup(g)| == 2
    ensures Group(Ungroup(g)[0], Ungroup(g)[1], 0)[..3] + "=" == g <==> ValueAt(g, 2) % 4 == 0
  {
    hide IsDigit, Digit, ValueAt, Bytes, Group, Ungroup;
    DigitAt(g, 0);
    DigitAt(g, 1);
    DigitAt(g, 2);
    assert g[2..][0] == g[2];
    UngroupIs(g);
    var (w, x, y, z) := (ValueAt(g, 0), ValueAt(g, 1), ValueAt(g, 2), ValueAt(g, 3));
    var (x0, y0) := ((x - x % 16) as Sextet, (y - y % 4) as Sextet);
    Regroup(w as Sextet, x as Sextet, y as Sextet, z as Sextet, x0, y0);
    var e := Group(Ungroup(g)[0], Ungroup(g)[1], 0)[..3] + "=";
    assert e[0] == g[0] && e[1] == g[1] && e[3] == g[3];
    assert e[2] == Digit(y0);
    if e[2] == g[2] { assert e == g; }
  }

  lemma TwoPaddedIsCanonical(g: string)
    requires |g| == 4 && g[2..] == "==" && forall i | 0 <= i < 2 :: IsDigit(g[i])
    ensures Padding(g) == 2 && |Ungroup(g)| == 1
    ensures Group(Ungroup(g)[0], 0, 0)[..2] + "==" == g <==> ValueAt(g, 1) % 16 == 0
  {
    hide IsDigit, Digit, ValueAt, Bytes, Group, Ungroup;
    DigitAt(g, 0);
    DigitAt(g, 1);
    UngroupIs(g);
    var (w, x, y, z) := (ValueAt(g, 0), ValueAt(g, 1), ValueAt(g, 2), ValueAt(g, 3));
    var (x0, y0) := ((x - x % 16) as Sextet, (y - y % 4) as Sextet);
    Regroup(w as Sextet, x as Sextet, y as Sextet, z as Sextet, x0, y0);
    var e := Group(Ungroup(g)[0], 0, 0)[..2] + "==";
    assert e[0] == g[0] && g == g[..2] + g[2..];
    assert e[1] == Digit(x0);
    if e[1] == g[1] { assert e[..2] == g[..2]; }
  }

  lemma TailPadding(s: string)
    requires |s| > 4 && |s| % 4 == 0
    ensures Padding(s[4..]) == Padding(s)
  {
    var rest := s[4..];
    assert s[|s| - 2..] == rest[|rest| - 2..];
  }

  lemma TailValue(s: string, i: nat)
    requires 4 <= i < |s|
    ensures ValueAt(s[4..], i - 4) == ValueAt(s, i)
  {
  }

  lemma TailStray(s: string)
    requires |s| > 4 && |s| % 4 == 0
    ensures StrayBits(s[4..]) == StrayBits(s)
  {
    hide ValueAt, Padding;
    TailPadding(s);
    TailValue(s, |s| - 2);
    TailValue(s, |s| - 3);
  }

  lemma TailOf(s: string)
    requires Shaped(s) && |s| > 4
    ensures Shaped(s[4..]) && StrayBits(s[4..]) == StrayBits(s)
    ensures forall i | 0 <= i < 4 :: IsDigit(s[..4][i])
  {
    hide IsDigit, StrayBits, Padding;
    TailPadding(s);
    TailStray(s);
    PaddingAtMostTwo(s);
    var rest := s[4..];
    forall i | 0 <= i < |rest| - Padding(rest) ensures IsDigit(rest[i]) { assert rest[i] == s[i + 4]; }
    forall i | 0 <= i < 4 ensures IsDigit(s[..4][i]) { assert s[..4][i] == s[i]; }
  }

  lemma PaddingAtMostTwo(s: string)
    ensures Padding(s) <= 2
  {
  }

  /** A well-shaped string is the encoding of its own bytes exactly when no stray bit is set. */
  lemma {:induction false} CanonicalExactlyWhen(s: string)
    requires Shaped(s)
    ensures Encode(Decode(s)) == s <==> StrayBits(s) == 0
  {
    hide Group, Ungroup, IsDigit, ValueAt;
    if s == "" {
    } else if |s| == 4 {
      OneGroup(s);
    } else {
      var (g, rest) := (s[..4], s[4..]);
      assert s == g + rest;
      TailOf(s);
      FullGroupIsCanonical(g);
      CanonicalExactlyWhen(rest);
      EncodeGroup(Ungroup(g), Decode(rest));
      var e := Encode(Decode(s));
      assert e == g + Encode(Decode(rest));
      assert e[4..] == Encode(Decode(rest));
    }
  }

  lemma EncodeGroup(u: seq<Byte>, more: seq<Byte>)
    requires |u| == 3
    ensures Encode(u + more) == Group(u[0], u[1], u[2]) + Encode(more)
  {
    assert (u + more)[3..] == more;
  }

  lemma OneGroup(s: string)
    requires Shaped(s) && |s| == 4
    ensures Encode(Decode(s)) == s <==> StrayBits(s) == 0
  {
    hide Group, Ungroup, IsDigit, ValueAt;
    if Padding(s) == 0 {
      FullGroupIsCanonical(s);
      EncodeGroup(Ungroup(s), []);
      assert Ungroup(s) + [] == Ungroup(s);
    } else if Padding(s) == 1 {
      OnePaddedIsCanonical(s);
    } else {
      TwoPaddedIsCanonical(s);
    }
  }

  /** So a well-shaped string is refused for every limit and length exactly when some padding bit is
      not zero, and accepted within its own length otherwise. */
  lemma StrayBitsAreRefused(s: string)
    requires Shaped(s)
    ensures StrayBits(s) != 0 <==> forall exact, max, out :: !Accepts(Some(s), exact, max, out)
  {
    hide Shaped, StrayBits, Encode, Decode;
    CanonicalExactlyWhen(s);
    if StrayBits(s) == 0 {
      IsAccepted(s, None, |Decode(s)|, Decode(s));
    } else {
      forall exact, max, out ensures !Accepts(Some(s), exact, max, out) {
        if exists o :: Accepts(Some(s), exact, max, o) { AcceptedText(Some(s), exact, max); }
      }
    }
  }
}
