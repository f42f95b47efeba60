/** Truncation of text to a byte budget. Text is a sequence of Unicode scalar values; its bytes are
    UTF-8 (RFC 3629, section 3), decoded as the WHATWG decoder of the platform does. */
module Utf8Truncate {

  type Scalar = c: int | 0 <= c < 0xD800 || 0xE000 <= c < 0x11_0000

  type Byte = b: int | 0 <= b < 256

  const REPLACEMENT: Scalar := 0xFFFD
  const BYTE_ORDER_MARK: Scalar := 0xFEFF
  const ELLIPSIS: Scalar := 0x2026
  const ELLIPSIS_BYTES: nat := 3

  // ---------------------------------------------------------------- encoding

  function Width(c: Scalar): (n: nat)
    ensures 1 <= n <= 4
  {
    if c < 0x80 then 1 else if c < 0x800 then 2 else if c < 0x1_0000 then 3 else 4
  }

  function EncodeOne(c: Scalar): (bytes: seq<Byte>)
    ensures |bytes| == Width(c)
  {
    if c < 0x80 then [c]
    else if c < 0x800 then [0xC0 + c / 64, 0x80 + c % 64]
    else if c < 0x1_0000 then [0xE0 + c / 4096, 0x80 + c / 64 % 64, 0x80 + c % 64]
    else [0xF0 + c / 0x4_0000, 0x80 + c / 4096 % 64, 0x80 + c / 64 % 64, 0x80 + c % 64]
  }

  function Encode(s: seq<Scalar>): seq<Byte> {
    if s == [] then [] else EncodeOne(s[0]) + Encode(s[1..])
  }

  function Size(s: seq<Scalar>): nat { |Encode(s)| }

  // ---------------------------------------------------------------- decoding

  /** How many continuation bytes a lead byte asks for; none for a byte that cannot lead. */
  function Needed(lead: Byte): (n: nat)
    ensures n <= 3
  {
    if 0xC2 <= lead <= 0xDF then 1 else if 0xE0 <= lead <= 0xEF then 2 else if 0xF0 <= lead <= 0xF4 then 3 else 0
  }

  /** Whether `b` may be continuation byte number `k` after `lead`. */
  predicate Continues(lead: Byte, k: nat, b: Byte) {
    && 0x80 <= b <= 0xBF
    && (k == 1 && lead == 0xE0 ==> b >= 0xA0) && (k == 1 && lead == 0xED ==> b <= 0x9F)
    && (k == 1 && lead == 0xF0 ==> b >= 0x90) && (k == 1 && lead == 0xF4 ==> b <= 0x8F)
  }

  /** How far the sequence that begins here goes on, at most as far as its lead byte asks. */
  function Run(bytes: seq<Byte>, k: nat): (n: nat)
    requires 1 <= k <= |bytes|
    ensures k <= n <= |bytes| && (k <= Needed(bytes[0]) + 1 ==> n <= Needed(bytes[0]) + 1)
    decreases |bytes| - k
  {
    if k <= Needed(bytes[0]) && k < |bytes| && Continues(bytes[0], k, bytes[k]) then Run(bytes, k + 1) else k
  }

  /** The value of a complete sequence. */
  function Assemble(bytes: seq<Byte>): int
    requires 1 <= |bytes| <= 4
  {
    var at := (i: nat) requires i < |bytes| => bytes[i] as int;
    if |bytes| == 1 then at(0)
    else if |bytes| == 2 then (at(0) - 0xC0) * 64 + (at(1) - 0x80)
    else if |bytes| == 3 then (at(0) - 0xE0) * 4096 + (at(1) - 0x80) * 64 + (at(2) - 0x80)
    else (at(0) - 0xF0) * 0x4_0000 + (at(1) - 0x80) * 4096 + (at(2) - 0x80) * 64 + (at(3) - 0x80)
  }

  function OrReplacement(c: int): Scalar {
    if 0 <= c < 0xD800 || 0xE000 <= c < 0x11_0000 then c else REPLACEMENT
  }

  /** A sequence that is cut short or ill formed becomes one replacement character. */
  function Decode(bytes: seq<Byte>): seq<Scalar>
  {
    if bytes == [] then []
    else if bytes[0] < 0x80 then [bytes[0]] + Decode(bytes[1..])
    else
      var (needed, n) := (Needed(bytes[0]), Run(bytes, 1));
      [if needed > 0 && n == needed + 1 then OrReplacement(Assemble(bytes[..n])) else REPLACEMENT] + Decode(bytes[n..])
  }

  /** `TextDecoder.decode` also drops a leading byte order mark. */
  function DecodeText(bytes: seq<Byte>): seq<Scalar> {
    var s := Decode(bytes);
    if s != [] && s[0] == BYTE_ORDER_MARK then s[1..] else s
  }

  predicate EndsReplaced(s: seq<Scalar>) { s != [] && s[|s| - 1] == REPLACEMENT }

  // ---------------------------------------------------------------- decoding a prefix of encoded text

  lemma LeadByte(c: Scalar)
    ensures var e := EncodeOne(c);
            && (c < 0x80 <==> e[0] < 0x80) && (c >= 0x80 ==> Needed(e[0]) == Width(c) - 1)
  {
  }

  lemma ContinuationBytes(c: Scalar, k: nat)
    requires 1 <= k < Width(c)
    ensures Continues(EncodeOne(c)[0], k, EncodeOne(c)[k])
  {
  }

  lemma AssembleEncoded(c: Scalar)
    ensures Assemble(EncodeOne(c)) == c
  {
    if c >= 0x1_0000 {
      assert c / 64 == c / 4096 * 64 + c / 64 % 64;
      assert c / 4096 == c / 0x4_0000 * 64 + c / 4096 % 64;
    } else if c >= 0x800 {
      assert c / 64 == c / 4096 * 64 + c / 64 % 64;
    }
  }

  /** On bytes that begin like an encoded scalar the run goes to its end, or to theirs. */
  lemma {:induction false} RunIs(c: Scalar, bytes: seq<Byte>, k: nat)
    requires 1 <= k <= |bytes| && k <= Width(c) && c >= 0x80
    requires forall i | 0 <= i < |bytes| && i < Width(c) :: bytes[i] == EncodeOne(c)[i]
    ensures Run(bytes, k) == if |bytes| < Width(c) then |bytes| else Width(c)
    decreases |bytes| - k
  {
    hide EncodeOne, Needed, Continues, Width;
    LeadByte(c);
    assert bytes[0] == EncodeOne(c)[0];
    if k < |bytes| && k < Width(c) {
      ContinuationBytes(c, k);
      assert bytes[k] == EncodeOne(c)[k];
      RunIs(c, bytes, k + 1);
    }
  }

  lemma DecodeOne(c: Scalar, rest: seq<Byte>)
    ensures Decode(EncodeOne(c) + rest) == [c] + Decode(rest)
  {
    hide EncodeOne, Needed, Run, Assemble;
    var bytes := EncodeOne(c) + rest;
    LeadByte(c);
    assert bytes[0] == EncodeOne(c)[0];
    if c < 0x80 {
      OneByte(c);
      assert bytes[1..] == rest;
    } else {
      RunIs(c, bytes, 1);
      assert bytes[..Width(c)] == EncodeOne(c) && bytes[Width(c)..] == rest;
      AssembleEncoded(c);
    }
  }

  lemma OneByte(c: Scalar)
    requires c < 0x80
    ensures EncodeOne(c) == [c] && Width(c) == 1
  {
  }

  /** A proper prefix of one scalar's bytes decodes to one replacement character. */
  lemma DecodePartial(c: Scalar, k: nat)
    requires 1 <= k < Width(c)
    ensures Decode(EncodeOne(c)[..k]) == [REPLACEMENT]
  {
    hide EncodeOne, Needed, Run, Assemble;
    var bytes := EncodeOne(c)[..k];
    LeadByte(c);
    assert bytes[0] == EncodeOne(c)[0];
    if c < 0x80 { OneByte(c); }
    RunIs(c, bytes, 1);
    assert bytes[k..] == [];
  }

  /** How many scalars of `s` lie wholly within its first `cut` bytes. */
  function Whole(s: seq<Scalar>, cut: nat): (k: nat)
    ensures k <= |s| && Size(s[..k]) <= cut
    ensures k < |s| ==> cut < Size(s[..k]) + Width(s[k])
    ensures forall j | 0 <= j <= |s| && Size(s[..j]) <= cut :: j <= k
  {
    if s == [] then 0
    else if cut < Width(s[0]) then
      assert forall j | 1 <= j <= |s| :: Size(s[..j]) >= Width(s[0]) by {
        forall j | 1 <= j <= |s| ensures Size(s[..j]) >= Width(s[0]) { assert s[..j][0] == s[0]; }
      }
      0
    else
      var k := 1 + Whole(s[1..], cut - Width(s[0]));
      assert s[..k][1..] == s[1..][..k - 1];
      assert forall j | 0 <= j <= |s| && Size(s[..j]) <= cut :: j <= k by {
        forall j | 0 <= j <= |s| && Size(s[..j]) <= cut ensures j <= k {
          if j > 0 { assert s[..j][1..] == s[1..][..j - 1] && s[..j][0] == s[0]; }
        }
      }
      k
  }

  /** What a cut leaves of `s`. */
  ghost function CutAt(s: seq<Scalar>, cut: nat): seq<Scalar> {
    s[..Whole(s, cut)] + (if Size(s[..Whole(s, cut)]) == cut then [] else [REPLACEMENT])
  }

  lemma CutInside(s: seq<Scalar>, cut: nat)
    requires s != [] && cut < Width(s[0])
    ensures CutAt(s, cut) == if cut == 0 then [] else [REPLACEMENT]
  {
    assert s[..0] == [];
  }

  lemma CutBeyond(s: seq<Scalar>, cut: nat)
    requires s != [] && cut >= Width(s[0])
    ensures CutAt(s, cut) == [s[0]] + CutAt(s[1..], cut - Width(s[0]))
  {
    var k := Whole(s, cut);
    assert s[..k] == [s[0]] + s[1..][..k - 1];
    assert s[..k][1..] == s[1..][..k - 1];
    assert Size(s[..k]) == Width(s[0]) + Size(s[1..][..k - 1]);
  }

  lemma DecodeNothing()
    ensures Decode([]) == []
  {
  }

  /** Decoding the first `cut` bytes gives the whole scalars, and one replacement if the cut is inside one. */
  lemma {:induction false} DecodePrefix(s: seq<Scalar>, cut: nat)
    requires cut <= Size(s)
    ensures Decode(Encode(s)[..cut]) == CutAt(s, cut)
  {
    hide Decode, EncodeOne, Whole, CutAt, Width;
    if s == [] {
      DecodeNothing();
      CutNothing();
    } else {
      var (e, rest) := (EncodeOne(s[0]), Encode(s[1..]));
      assert Encode(s) == e + rest;
      if cut < Width(s[0]) {
        CutInside(s, cut);
        assert (e + rest)[..cut] == e[..cut];
        if cut == 0 { DecodeNothing(); } else { DecodePartial(s[0], cut); }
      } else {
        CutBeyond(s, cut);
        assert (e + rest)[..cut] == e + rest[..cut - |e|];
        DecodeOne(s[0], rest[..cut - |e|]);
        DecodePrefix(s[1..], cut - |e|);
      }
    }
  }

  lemma CutNothing()
    ensures CutAt([], 0) == []
  {
  }

  // ---------------------------------------------------------------- sizes

  lemma {:induction false} SizeAdds(s: seq<Scalar>, t: seq<Scalar>)
    ensures Size(s + t) == Size(s) + Size(t)
  {
    if s == [] {
      assert s + t == t;
    } else {
      SizeAdds(s[1..], t);
      assert (s + t)[1..] == s[1..] + t && (s + t)[0] == s[0];
    }
  }

  lemma SizeOne(c: Scalar)
    ensures Size([c]) == Width(c)
  {
    assert [c][1..] == [];
    assert Encode([c]) == EncodeOne(c) + Encode([]);
  }

  lemma CutSize(s: seq<Scalar>, cut: nat)
    requires cut <= Size(s)
    ensures Size(CutAt(s, cut)) <= cut + 2 && (!EndsReplaced(CutAt(s, cut)) ==> Size(CutAt(s, cut)) <= cut)
  {
    hide EncodeOne, Encode;
    var k := Whole(s, cut);
    SizeOne(REPLACEMENT);
    SizeAdds(s[..k], [REPLACEMENT]);
    if Size(s[..k]) == cut { assert CutAt(s, cut) == s[..k]; }
    assert s[..|s|] == s;
  }

  /** Dropping a byte order mark only makes text shorter. */
  lemma TailSize(d: seq<Scalar>)
    requires d != []
    ensures Size(d[1..]) <= Size(d)
  {
  }

  /** What a cut decodes to takes at most two bytes more than the cut, and none more if it does not
      end in a replacement character. */
  lemma DecodedSize(s: seq<Scalar>, cut: nat)
    requires cut <= Size(s)
    ensures var d := DecodeText(Encode(s)[..cut]);
            Size(d) <= cut + 2 && (!EndsReplaced(d) ==> Size(d) <= cut)
  {
    hide Decode, EncodeOne, Encode, CutAt, Size;
    DecodePrefix(s, cut);
    CutSize(s, cut);
    var d := CutAt(s, cut);
    if d != [] {
      TailSize(d);
      if d[0] == BYTE_ORDER_MARK && EndsReplaced(d) { assert d[|d| - 1] == d[1..][|d| - 2]; }
    }
  }

  // ---------------------------------------------------------------- boundaries

  /** The first `cut` bytes end where a scalar ends. */
  ghost predicate IsBoundary(s: seq<Scalar>, cut: nat) { Size(s[..Whole(s, cut)]) == cut }

  /** Without a replacement character in the text, a decoded prefix ends in one exactly when the cut
      is not a boundary. */
  lemma ReplacedIffInside(s: seq<Scalar>, cut: nat)
    requires cut <= Size(s) && REPLACEMENT !in s
    ensures var (d, k) := (DecodeText(Encode(s)[..cut]), Whole(s, cut));
            && (EndsReplaced(d) <==> !IsBoundary(s, cut))
            && (IsBoundary(s, cut) ==> d == if k > 0 && s[0] == BYTE_ORDER_MARK then s[..k][1..] else s[..k])
  {
    hide Decode, EncodeOne, Encode, Width;
    DecodePrefix(s, cut);
    var k := Whole(s, cut);
    var d := Decode(Encode(s)[..cut]);
    assert forall i | 0 <= i < k :: s[i] in s;
    if IsBoundary(s, cut) { assert d == s[..k]; } else { assert d == s[..k] + [REPLACEMENT]; }
  }

  /** The first boundary met going down from the budget holds the longest prefix that fits. */
  lemma FirstBoundary(s: seq<Scalar>, cut: nat, budget: nat)
    requires cut <= budget && IsBoundary(s, cut) && forall c: nat | cut < c <= budget :: !IsBoundary(s, c)
    ensures Whole(s, cut) == Whole(s, budget)
  {
    hide Encode, Width;
    var k := Whole(s, budget);
    var c := Size(s[..k]);
    assert Whole(s, c) == k;
    assert IsBoundary(s, c);
  }

  /** A boundary lies within three bytes below any cut. */
  lemma FourStepsReachBoundary(s: seq<Scalar>, budget: nat)
    requires budget <= Size(s)
    ensures exists c: nat :: budget - 3 <= c <= budget && IsBoundary(s, c)
  {
    hide Encode;
    var k := Whole(s, budget);
    var c := Size(s[..k]);
    assert Whole(s, c) == k;
    assert s[..|s|] == s;
    assert IsBoundary(s, c);
  }

  lemma NothingAtZero(s: seq<Scalar>, cut: nat)
    requires cut <= Size(s)
    ensures cut == 0 ==> !EndsReplaced(DecodeText(Encode(s)[..cut]))
  {
    if cut == 0 {
      assert Encode(s)[..0] == [];
      DecodeNothing();
    }
  }

  lemma AppendEllipsis(d: seq<Scalar>)
    ensures Size(d + [ELLIPSIS]) == Size(d) + ELLIPSIS_BYTES
  {
    SizeAdds(d, [ELLIPSIS]);
    SizeOne(ELLIPSIS);
  }

  // ---------------------------------------------------------------- truncation

  /** The longest prefix of `s` that fits, and the ellipsis. */
  function Shortened(s: seq<Scalar>, budget: nat): seq<Scalar> { s[..Whole(s, budget)] + [ELLIPSIS] }

  /** Where `slice(0, cut)` ends: a negative cut counts from the end. */
  function SliceEnd(length: nat, cut: int): (end: nat)
    ensures end <= length
  {
    if cut > length then length else if cut >= 0 then cut else if length + cut >= 0 then length + cut else 0
  }

  /** What a decoder that drops a leading byte order mark makes of the longest prefix that fits. */
  function Expected(s: seq<Scalar>, budget: nat): seq<Scalar> {
    if Whole(s, budget) > 0 && s[0] == BYTE_ORDER_MARK then Shortened(s, budget)[1..] else Shortened(s, budget)
  }

  /** `truncateToBytes`, for every budget. Text that fits is unchanged. The result fits exactly when
      the text does or there is room for the ellipsis. Truncated text without a replacement character
      is the longest prefix that fits before the ellipsis, where a budget too small for the ellipsis
      counts from the end of the text. */
  method TruncateToBytes(input: seq<Scalar>, maxBytes: int) returns (output: seq<Scalar>)
    ensures Size(input) <= maxBytes ==> output == input
    ensures Size(output) <= maxBytes <==> maxBytes >= ELLIPSIS_BYTES || Size(input) <= maxBytes
    ensures Size(input) > maxBytes && REPLACEMENT !in input ==>
              output == Expected(input, SliceEnd(Size(input), maxBytes - ELLIPSIS_BYTES))
  {
    hide Decode, EncodeOne, Encode, Whole, Width;
    var bytes := Encode(input);
    if |bytes| <= maxBytes { return input; }
    var cut := maxBytes - ELLIPSIS_BYTES;
    ghost var budget := SliceEnd(|bytes|, cut);
    for i := 0 to 4
      invariant cut == maxBytes - ELLIPSIS_BYTES - i && (maxBytes >= ELLIPSIS_BYTES ==> cut >= 0)
      invariant SliceEnd(|bytes|, cut) == budget - i
      invariant REPLACEMENT !in input ==> forall c: nat | budget - i < c <= budget :: !IsBoundary(input, c)
    {
      var end := SliceEnd(|bytes|, cut);
      var decoded := DecodeText(bytes[..end]);
      DecodedSize(input, end);
      AppendEllipsis(decoded);
      if REPLACEMENT !in input { ReplacedIffInside(input, end); }
      if !EndsReplaced(decoded) {
        if REPLACEMENT !in input { FirstBoundary(input, end, budget); }
        return decoded + [ELLIPSIS];
      }
      NothingAtZero(input, end);
      cut := cut - 1;
    }
    var end := SliceEnd(|bytes|, if cut > 0 then cut else 0);
    var decoded := DecodeText(bytes[..end]);
    DecodedSize(input, end);
    AppendEllipsis(decoded);
    if REPLACEMENT !in input { FourStepsReachBoundary(input, budget); }
    return decoded + [ELLIPSIS];
  }
}
