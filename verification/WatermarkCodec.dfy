/**
 * Watermarks as text: a decimal seq, or the opaque form, base64url (section 5
 * of RFC 4648, unpadded) of "seq:" and the decimal seq.
 */
module WatermarkCodec {
  import opened Prefix

  // ---------------------------------------------------------------------
  // Decimal numbers
  // ---------------------------------------------------------------------

  predicate IsDigit(c: char) {
    '0' <= c <= '9'
  }

  function Decimal(n: nat): (s: string)
    ensures s != ""
  {
    var last := [(n % 10 + 48) as char];
    if n < 10 then last else Decimal(n / 10) + last
  }

  function DigitValue(c: char): nat {
    if IsDigit(c) then c as int - 48 else 0
  }

  function ValueOf(s: string): nat {
    if s == "" then 0 else ValueOf(s[..|s| - 1]) * 10 + DigitValue(s[|s| - 1])
  }

  function Pow10(k: nat): (p: nat)
    ensures p >= 1
  {
    if k == 0 then 1 else 10 * Pow10(k - 1)
  }

  /** Digits without a leading zero, at most `most` of them: what both clients take for a seq. */
  predicate IsDecimal(s: string, most: nat) {
    && s != "" && |s| <= most
    && (|s| > 1 ==> s[0] != '0')
    && forall i :: 0 <= i < |s| ==> IsDigit(s[i])
  }

  lemma {:induction false} DecimalIsCanonical(n: nat)
    ensures IsDecimal(Decimal(n), |Decimal(n)|) && ValueOf(Decimal(n)) == n && (n > 0 ==> Decimal(n)[0] != '0')
  {
    var s := Decimal(n);
    var c := (n % 10 + 48) as char;
    assert DigitValue(c) == n % 10 && IsDigit(c);
    if n >= 10 {
      var front := Decimal(n / 10);
      DecimalIsCanonical(n / 10);
      assert s[..|s| - 1] == front && s[0] == front[0];
    }
  }

  lemma {:induction false} ValueIsBelowPower(s: string)
    ensures ValueOf(s) < Pow10(|s|)
  {
    if s != "" {
      ValueIsBelowPower(s[..|s| - 1]);
    }
  }

  lemma {:induction false} ValueIsAbovePower(s: string)
    requires s != "" && IsDigit(s[0]) && s[0] != '0'
    ensures ValueOf(s) >= Pow10(|s| - 1)
  {
    if |s| > 1 {
      ValueIsAbovePower(s[..|s| - 1]);
    } else {
      assert s[..0] == "";
    }
  }

  lemma {:induction false} Pow10Grows(j: nat, k: nat)
    requires j <= k
    ensures Pow10(j) <= Pow10(k)
    decreases k - j
  {
    if j < k {
      Pow10Grows(j + 1, k);
    }
  }

  /** A bound on the number of digits is a bound on the seq. */
  lemma ShortIffSmall(s: string, most: nat)
    requires IsDecimal(s, |s|) && most >= 1
    ensures |s| <= most <==> ValueOf(s) < Pow10(most)
  {
    ValueIsBelowPower(s);
    if |s| <= most {
      Pow10Grows(|s|, most);
    } else {
      ValueIsAbovePower(s);
      Pow10Grows(most, |s| - 1);
    }
  }

  // ---------------------------------------------------------------------
  // Numbers
  // ---------------------------------------------------------------------

  /** 2^53: up to here every natural number is a double. */
  const EXACT := 9007199254740992

  /** The distance between neighbouring doubles at `n`. */
  function Spacing(n: nat): (u: nat)
    ensures u >= 1
  {
    if n < EXACT then 1 else 2 * Spacing(n / 2)
  }

  /** What `Number` makes of the digits of `n`: the nearest double, and of two equally near the one with the even significand. */
  function Nearest(n: nat): nat {
    var u := Spacing(n);
    var r := n % u;
    RemainderIsBelow(n, u);
    if 2 * r < u || (2 * r == u && n / u % 2 == 0) then n - r else n - r + u
  }

  lemma RemainderIsBelow(n: nat, u: nat)
    requires u >= 1
    ensures n % u <= n
  {
    assert n == u * (n / u) + n % u && u * (n / u) >= 0;
  }

  /** The seqs of at most 16 digits that are doubles. */
  predicate Exact(n: nat) {
    n <= EXACT || n % 2 == 0
  }

  lemma PowerOfSixteen()
    ensures Pow10(16) == 10000000000000000
  {
    assert Pow10(2) == 100;
    assert Pow10(4) == 10000;
    assert Pow10(6) == 1000000;
    assert Pow10(8) == 100000000;
    assert Pow10(10) == 10000000000;
    assert Pow10(12) == 1000000000000;
    assert Pow10(14) == 100000000000000;
  }

  /** A seq of at most 16 digits is read exactly, or as the neighbour that is divisible by four. */
  lemma NearestOf(n: nat)
    requires n < Pow10(16)
    ensures Nearest(n) == if Exact(n) then n else if n % 4 == 1 then n - 1 else n + 1
    ensures !Exact(n) ==> Nearest(n) % 4 == 0
    ensures Nearest(n) == n <==> Exact(n)
  {
    PowerOfSixteen();
    SpacingOf(n);
    hide Spacing, Pow10;
    if n < EXACT {
      assert n / 1 == n && n % 1 == 0;
    } else {
      hide Nearest;
      NearestOfLarge(n);
    }
  }

  lemma NearestOfLarge(n: nat)
    requires Spacing(n) == 2
    ensures Nearest(n) == if n % 2 == 0 then n else if n % 4 == 1 then n - 1 else n + 1
  {
    hide Spacing;
    assert n % 4 == 2 * (n / 2 % 2) + n % 2;
  }

  lemma SpacingOf(n: nat)
    requires n < 2 * EXACT
    ensures Spacing(n) == if n < EXACT then 1 else 2
  {
    if n >= EXACT {
      assert Spacing(n / 2) == 1;
    }
  }

  // ---------------------------------------------------------------------
  // Base64
  // ---------------------------------------------------------------------

  type Byte = x: int | 0 <= x < 256

  type Sextet = x: int | 0 <= x < 64

  /** Three bytes make four sextets; one or two bytes left make two or three. */
  function Packed(b: seq<Byte>): seq<Sextet> {
    if b == [] then []
    else if |b| == 1 then [b[0] / 4, b[0] % 4 * 16]
    else if |b| == 2 then [b[0] / 4, b[0] % 4 * 16 + b[1] / 16, b[1] % 16 * 4]
    else [b[0] / 4, b[0] % 4 * 16 + b[1] / 16, b[1] % 16 * 4 + b[2] / 64, b[2] % 64] + Packed(b[3..])
  }

  function Byte0(x: int, y: int): int {
    x * 4 + y / 16
  }

  function Byte1(x: int, y: int): int {
    x % 16 * 16 + y / 4
  }

  function Byte2(x: int, y: int): int {
    x % 4 * 64 + y
  }

  /** The bits that are left over are dropped, whatever they are. */
  function Unpacked(q: seq<Sextet>): seq<Byte> {
    if |q| <= 1 then []
    else if |q| == 2 then [Byte0(q[0], q[1])]
    else if |q| == 3 then [Byte0(q[0], q[1]), Byte1(q[1], q[2])]
    else [Byte0(q[0], q[1]), Byte1(q[1], q[2]), Byte2(q[2], q[3])] + Unpacked(q[4..])
  }

  lemma BytesCompose(a: Byte, b: Byte, c: Byte)
    ensures Byte0(a / 4, a % 4 * 16 + b / 16) == a && Byte1(a % 4 * 16 + b / 16, b % 16 * 4 + c / 64) == b
    ensures Byte2(b % 16 * 4 + c / 64, c % 64) == c
  {
  }

  lemma {:induction false} UnpackedInverts(b: seq<Byte>)
    ensures Unpacked(Packed(b)) == b && |Packed(b)| % 4 != 1
  {
    hide Byte0, Byte1, Byte2;
    if |b| >= 3 {
      BytesCompose(b[0], b[1], b[2]);
      UnpackedInverts(b[3..]);
      assert Packed(b)[4..] == Packed(b[3..]);
      assert b == [b[0], b[1], b[2]] + b[3..];
    } else if |b| == 2 {
      BytesCompose(b[0], b[1], 0);
      assert b == [b[0], b[1]];
    } else if |b| == 1 {
      BytesCompose(b[0], 0, 0);
      assert b == [b[0]];
    }
  }

  /** The character of six bits; the alphabets differ in the last two. */
  function Char(n: Sextet, url: bool): char {
    if n < 26 then (n + 65) as char
    else if n < 52 then (n - 26 + 97) as char
    else if n < 62 then (n - 52 + 48) as char
    else if n == 62 then (if url then '-' else '+')
    else (if url then '_' else '/')
  }

  function Bits(c: char, url: bool): Option<Sextet> {
    if 'A' <= c <= 'Z' then Some(c as int - 65)
    else if 'a' <= c <= 'z' then Some(c as int - 97 + 26)
    else if '0' <= c <= '9' then Some(c as int - 48 + 52)
    else if c == (if url then '-' else '+') then Some(62)
    else if c == (if url then '_' else '/') then Some(63)
    else None
  }

  function Spelled(q: seq<Sextet>, url: bool): string {
    seq(|q|, i requires 0 <= i < |q| => Char(q[i], url))
  }

  predicate InAlphabet(s: string, url: bool) {
    forall i :: 0 <= i < |s| ==> Bits(s[i], url).Some?
  }

  function Read(s: string, url: bool): seq<Sextet>
    requires InAlphabet(s, url)
  {
    seq(|s|, i requires 0 <= i < |s| => Bits(s[i], url).value)
  }

  lemma ReadInverts(q: seq<Sextet>, url: bool)
    ensures InAlphabet(Spelled(q, url), url) && Read(Spelled(q, url), url) == q
  {
  }

  predicate IsBinary(s: string) {
    forall i :: 0 <= i < |s| ==> s[i] as int < 256
  }

  function Codes(s: string): seq<Byte>
    requires IsBinary(s)
  {
    seq(|s|, i requires 0 <= i < |s| => s[i] as int)
  }

  function Chars(b: seq<Byte>): string {
    seq(|b|, i requires 0 <= i < |b| => b[i] as char)
  }

  /** Any text over the alphabet has a meaning, unless a single character is left over. */
  function Decoded(s: string, url: bool): Option<string> {
    if |s| % 4 == 1 || !InAlphabet(s, url) then None else Some(Chars(Unpacked(Read(s, url))))
  }

  function Replaced(s: string, from: char, to: char): string {
    seq(|s|, i requires 0 <= i < |s| => if s[i] == from then to else s[i])
  }

  function Repeated(c: char, n: nat): string {
    seq(n, _ => c)
  }

  function TrimmedRight(s: string): string {
    if s != "" && s[|s| - 1] == '=' then TrimmedRight(s[..|s| - 1]) else s
  }

  function Padding(n: nat): nat {
    (4 - n % 4) % 4
  }

  // ---------------------------------------------------------------------
  // The TypeScript codec
  // ---------------------------------------------------------------------

  /** btoa: the standard alphabet, padded. */
  function Btoa(s: string): string
    requires IsBinary(s)
  {
    var t := Spelled(Packed(Codes(s)), false);
    t + Repeated('=', Padding(|t|))
  }

  function UrlEncode(s: string): string
    requires IsBinary(s)
  {
    TrimmedRight(Replaced(Replaced(Btoa(s), '+', '-'), '/', '_'))
  }

  predicate IsSpace(c: char) {
    c == ' ' || c == '\t' || c == '\n' || c == '\r' || c == 12 as char
  }

  function WithoutSpaces(s: string): string {
    if s == "" then ""
    else
      var front := WithoutSpaces(s[..|s| - 1]);
      if IsSpace(s[|s| - 1]) then front else front + [s[|s| - 1]]
  }

  function WithoutPadding(s: string): string {
    if |s| % 4 != 0 then s
    else if |s| >= 2 && s[|s| - 2..] == "==" then s[..|s| - 2]
    else if |s| >= 1 && s[|s| - 1] == '=' then s[..|s| - 1]
    else s
  }

  /** atob: spaces are ignored, and so is the padding of a text of full length. */
  function Atob(s: string): Option<string> {
    Decoded(WithoutPadding(WithoutSpaces(s)), false)
  }

  /** The text in the standard alphabet. */
  function Standard(w: string): string {
    Replaced(Replaced(w, '-', '+'), '_', '/')
  }

  function UrlDecode(s: string): Option<string> {
    var t := Standard(s);
    Atob(t + Repeated('=', Padding(|t|)))
  }

  function Opaque(n: nat): string {
    DecimalIsCanonical(n);
    UrlEncode("seq:" + Decimal(n))
  }

  function SeqOf(decoded: Option<string>, most: nat): Option<nat> {
    if decoded.Some? && "seq:" <= decoded.value && IsDecimal(decoded.value[4..], most) then Some(ValueOf(decoded.value[4..]))
    else None
  }

  function Rounded(n: Option<nat>): Option<nat> {
    if n.Some? then Some(Nearest(n.value)) else None
  }

  function ParseWatermark(w: string): Option<nat> {
    if w == "" then None
    else if IsDecimal(w, 16) then Some(Nearest(ValueOf(w)))
    else Rounded(SeqOf(UrlDecode(w), 16))
  }

  // ---------------------------------------------------------------------
  // The Go codec
  // ---------------------------------------------------------------------

  function WithoutNewlines(s: string): string {
    if s == "" then ""
    else
      var front := WithoutNewlines(s[..|s| - 1]);
      if s[|s| - 1] == '\n' || s[|s| - 1] == '\r' then front else front + [s[|s| - 1]]
  }

  /** RawURLEncoding.DecodeString of the text without the padding at its end. */
  function GoDecode(s: string): Option<string> {
    Decoded(WithoutNewlines(TrimmedRight(s)), true)
  }

  function GoSeq(w: string): Option<nat> {
    if IsDecimal(w, 18) then Some(ValueOf(w)) else SeqOf(GoDecode(w), 18)
  }

  // ---------------------------------------------------------------------
  // Both codecs read base64url
  // ---------------------------------------------------------------------

  /** The plain unpadded form. */
  function Base64Url(s: string): string
    requires IsBinary(s)
  {
    Spelled(Packed(Codes(s)), true)
  }

  lemma {:induction false} TrimmedPadding(s: string, n: nat)
    requires s == "" || s[|s| - 1] != '='
    ensures TrimmedRight(s + Repeated('=', n)) == s
  {
    var t := s + Repeated('=', n);
    if n == 0 {
      assert t == s;
    } else {
      assert t[..|t| - 1] == s + Repeated('=', n - 1);
      TrimmedPadding(s, n - 1);
    }
  }

  lemma UrlEncodeIsBase64Url(s: string)
    requires IsBinary(s)
    ensures UrlEncode(s) == Base64Url(s)
  {
    var q := Packed(Codes(s));
    var t, u := Spelled(q, false), Spelled(q, true);
    var pad := Repeated('=', Padding(|t|));
    assert Replaced(Replaced(t + pad, '+', '-'), '/', '_') == u + pad;
    TrimmedPadding(u, Padding(|t|));
  }

  lemma {:induction false} NoSpaces(s: string)
    requires forall i :: 0 <= i < |s| ==> !IsSpace(s[i])
    ensures WithoutSpaces(s) == s && WithoutNewlines(s) == s
  {
    if s != "" {
      NoSpaces(s[..|s| - 1]);
    }
  }

  lemma StandardIsRead(w: string)
    requires InAlphabet(w, true)
    ensures InAlphabet(Standard(w), false) && Read(Standard(w), false) == Read(w, true)
  {
  }

  lemma PaddedHasNoSpaces(t: string, n: nat)
    requires InAlphabet(t, false)
    ensures WithoutSpaces(t + Repeated('=', n)) == t + Repeated('=', n)
  {
    NoSpaces(t + Repeated('=', n));
  }

  lemma UrlTextIsPlain(w: string)
    requires InAlphabet(w, true)
    ensures WithoutNewlines(TrimmedRight(w)) == w
  {
    NoSpaces(w);
    assert w == "" || w[|w| - 1] != '=';
  }

  /** On texts of the url alphabet both decoders are the plain one. */
  lemma DecodersAgree(w: string)
    requires InAlphabet(w, true)
    ensures UrlDecode(w) == Decoded(w, true) == GoDecode(w)
  {
    var t := Standard(w);
    StandardIsRead(w);
    PaddedHasNoSpaces(t, Padding(|t|));
    PaddingIsDropped(t);
    UrlTextIsPlain(w);
    hide Read, InAlphabet, WithoutSpaces, WithoutNewlines, WithoutPadding, TrimmedRight, Repeated, Unpacked;
  }

  lemma PaddingIsDropped(t: string)
    requires InAlphabet(t, false)
    ensures Decoded(WithoutPadding(t + Repeated('=', Padding(|t|))), false) == Decoded(t, false)
  {
    var pad := Repeated('=', Padding(|t|));
    var s := t + pad;
    assert |s| % 4 == 0;
    if |t| % 4 == 2 {
      assert s[|s| - 2..] == "==" && s[..|s| - 2] == t;
    } else if |t| % 4 == 3 {
      assert s[|s| - 1] == '=' && s[|s| - 2] != '=' && s[..|s| - 1] == t;
    } else if |t| % 4 == 0 {
      assert s == t;
      assert s != "" ==> s[|s| - 1] != '=';
    } else {
      assert s[|s| - 2..] == "==";
      assert s[..|s| - 2][|t|] == '=';
    }
  }

  /** Every binary text comes back, through both decoders. */
  lemma EncodingRoundTrips(s: string)
    requires IsBinary(s)
    ensures UrlDecode(UrlEncode(s)) == Some(s) == GoDecode(UrlEncode(s))
  {
    UrlEncodeIsBase64Url(s);
    ReadInverts(Packed(Codes(s)), true);
    UnpackedInverts(Codes(s));
    assert Chars(Codes(s)) == s;
    DecodersAgree(Base64Url(s));
  }

  // ---------------------------------------------------------------------
  // Watermarks
  // ---------------------------------------------------------------------

  lemma OpaqueText(n: nat)
    ensures IsBinary("seq:" + Decimal(n)) && ("seq:" + Decimal(n))[4..] == Decimal(n)
  {
    DecimalIsCanonical(n);
  }

  /** What decodes to the opaque form begins with a letter, so it is no decimal number. */
  lemma OpaqueBeginsWithC(w: string)
    requires InAlphabet(w, true) && Decoded(w, true).Some? && "seq:" <= Decoded(w, true).value
    ensures w != "" && w[0] == 'c'
  {
    var q := Read(w, true);
    var d := Unpacked(q);
    assert Chars(d)[0] == 's' && d[0] == 115;
    assert d[0] == Byte0(q[0], q[1]);
    assert q[0] == 28;
  }

  lemma OpaqueDecodes(n: nat)
    ensures UrlDecode(Opaque(n)) == Some("seq:" + Decimal(n)) == GoDecode(Opaque(n))
    ensures Opaque(n) != "" && Opaque(n)[0] == 'c'
  {
    hide UrlDecode, GoDecode, Decoded, UrlEncode, Decimal, Packed, Spelled, Read;
    var text, w := "seq:" + Decimal(n), Opaque(n);
    OpaqueText(n);
    EncodingRoundTrips(text);
    UrlEncodeIsBase64Url(text);
    ReadInverts(Packed(Codes(text)), true);
    DecodersAgree(w);
    assert "seq:" <= text;
    OpaqueBeginsWithC(w);
  }

  lemma SeqOfOpaque(n: nat, most: nat)
    requires most >= 1
    ensures SeqOf(Some("seq:" + Decimal(n)), most) == if n < Pow10(most) then Some(n) else None
  {
    DecimalIsCanonical(n);
    OpaqueText(n);
    ShortIffSmall(Decimal(n), most);
    hide Decimal, ValueOf, Pow10;
  }

  lemma SeqOfDecimal(n: nat, most: nat)
    requires most >= 1
    ensures IsDecimal(Decimal(n), most) <==> n < Pow10(most)
    ensures IsDecimal(Decimal(n), |Decimal(n)|) && ValueOf(Decimal(n)) == n
  {
    DecimalIsCanonical(n);
    ShortIffSmall(Decimal(n), most);
    hide Decimal, ValueOf, Pow10;
  }

  /** What TypeScript makes of a seq that Go reads: more than 16 digits are refused, and fewer rounded. */
  function Narrowed(n: Option<nat>): Option<nat> {
    if n.Some? && n.value < Pow10(16) then Some(Nearest(n.value)) else None
  }

  lemma NarrowedIff(n: nat)
    ensures Narrowed(Some(n)) == Some(n) <==> n < Pow10(16) && Exact(n)
  {
    hide Pow10, Nearest, Exact;
    if n < Pow10(16) {
      NearestOf(n);
    }
  }

  /**
   * The opaque form of a seq is read back by Go exactly below 10^18, and by TypeScript exactly below
   * 10^16 and only when it is at most 2^53 or even, the others being rounded; and it is never taken
   * for a decimal number.
   */
  lemma OpaqueRoundTrips(n: nat)
    ensures ParseWatermark(Opaque(n)) == Narrowed(Some(n))
    ensures ParseWatermark(Opaque(n)) == Some(n) <==> n < Pow10(16) && Exact(n)
    ensures GoSeq(Opaque(n)) == if n < Pow10(18) then Some(n) else None
    ensures forall most: nat :: !IsDecimal(Opaque(n), most)
  {
    hide UrlDecode, GoDecode, Opaque, Decimal, ValueOf, Pow10, SeqOf, Nearest, Exact;
    OpaqueDecodes(n);
    SeqOfOpaque(n, 16);
    SeqOfOpaque(n, 18);
    NarrowedIff(n);
  }

  /** The decimal form, too: a longer number is not read as anything else. */
  lemma DecimalRoundTrips(n: nat)
    ensures ParseWatermark(Decimal(n)) == Narrowed(Some(n))
    ensures ParseWatermark(Decimal(n)) == Some(n) <==> n < Pow10(16) && Exact(n)
    ensures GoSeq(Decimal(n)) == if n < Pow10(18) then Some(n) else None
  {
    hide UrlDecode, GoDecode, Decoded, Decimal, ValueOf, Pow10, Nearest, Exact;
    SeqOfDecimal(n, 16);
    SeqOfDecimal(n, 18);
    DigitsAreNotOpaque(Decimal(n));
    DecodersAgree(Decimal(n));
    NarrowedIff(n);
  }

  /** The first seq on which the clients differ: TypeScript reads the one before it. */
  lemma FirstMisreadSeq()
    ensures ParseWatermark(Decimal(EXACT + 1)) == Some(EXACT) == ParseWatermark(Opaque(EXACT + 1))
    ensures GoSeq(Decimal(EXACT + 1)) == Some(EXACT + 1) == GoSeq(Opaque(EXACT + 1))
    ensures forall n: nat :: n <= EXACT ==> Narrowed(Some(n)) == Some(n)
  {
    hide ParseWatermark, GoSeq, Decimal, Opaque, Pow10, Nearest;
    PowerOfSixteen();
    Pow10Grows(16, 18);
    NearestOf(EXACT + 1);
    DecimalRoundTrips(EXACT + 1);
    OpaqueRoundTrips(EXACT + 1);
    forall n: nat | n <= EXACT
      ensures Narrowed(Some(n)) == Some(n)
    {
      NarrowedIff(n);
    }
  }

  lemma DigitsAreNotOpaque(w: string)
    requires IsDecimal(w, |w|)
    ensures InAlphabet(w, true) && !(Decoded(w, true).Some? && "seq:" <= Decoded(w, true).value)
  {
    assert w[0] != 'c';
    if Decoded(w, true).Some? && "seq:" <= Decoded(w, true).value {
      OpaqueBeginsWithC(w);
    }
  }

  lemma SeqOfAgrees(d: Option<string>)
    ensures Rounded(SeqOf(d, 16)) == Narrowed(SeqOf(d, 18))
  {
    hide Pow10, ValueOf, Nearest;
    if d.Some? && "seq:" <= d.value && IsDecimal(d.value[4..], |d.value| - 4) {
      ShortIffSmall(d.value[4..], 16);
      ShortIffSmall(d.value[4..], 18);
      Pow10Grows(16, 18);
    }
  }

  /**
   * On every text of the url alphabet TypeScript reads what Go reads, refused from 10^16 on and
   * rounded above 2^53; so they read the same seq exactly when that is below 10^16 and at most
   * 2^53 or even.
   */
  lemma ClientsAgree(w: string)
    requires InAlphabet(w, true)
    ensures ParseWatermark(w) == Narrowed(GoSeq(w))
    ensures GoSeq(w).Some? ==> (ParseWatermark(w) == GoSeq(w) <==> GoSeq(w).value < Pow10(16) && Exact(GoSeq(w).value))
  {
    hide UrlDecode, GoDecode, Decoded, Pow10, ValueOf, InAlphabet, SeqOf, Nearest, Exact;
    DecodersAgree(w);
    SeqOfAgrees(Decoded(w, true));
    if IsDecimal(w, |w|) {
      ShortIffSmall(w, 16);
      ShortIffSmall(w, 18);
      Pow10Grows(16, 18);
      NoSeqInDigits(w);
    } else if w == "" {
      NoSeqInNothing();
    }
    if GoSeq(w).Some? {
      NarrowedIff(GoSeq(w).value);
    }
  }

  lemma NoSeqInDigits(w: string)
    requires IsDecimal(w, |w|)
    ensures SeqOf(Decoded(w, true), 16) == None == SeqOf(Decoded(w, true), 18)
  {
    hide Decoded;
    DigitsAreNotOpaque(w);
  }

  lemma NoSeqInNothing()
    ensures SeqOf(Decoded("", true), 18) == None == SeqOf(Decoded("", true), 16)
  {
  }

  // ---------------------------------------------------------------------
  // Texts outside the url alphabet
  // ---------------------------------------------------------------------

  /** The text without the spaces in it and the padding at its end. */
  function Core(w: string): string {
    TrimmedRight(WithoutSpaces(w))
  }

  /** Both alphabets may be mixed. */
  predicate InEither(s: string) {
    InAlphabet(Standard(s), false)
  }

  /** What a text means to a decoder that takes it. */
  function Meaning(w: string): Option<string> {
    Decoded(Standard(Core(w)), false)
  }

  lemma {:induction false} SpacesShorten(w: string)
    ensures |WithoutSpaces(w)| <= |w|
  {
    if w != "" {
      SpacesShorten(w[..|w| - 1]);
    }
  }

  lemma {:induction false} TrimmingShortens(s: string)
    ensures |TrimmedRight(s)| <= |s| && s == TrimmedRight(s) + Repeated('=', |s| - |TrimmedRight(s)|)
    ensures TrimmedRight(s) == "" || TrimmedRight(s)[|TrimmedRight(s)| - 1] != '='
  {
    if s != "" && s[|s| - 1] == '=' {
      TrimmingShortens(s[..|s| - 1]);
      assert s == s[..|s| - 1] + "=";
    }
  }

  function Spaces(w: string): nat {
    SpacesShorten(w);
    |w| - |WithoutSpaces(w)|
  }

  /** How much padding the text brings and how much is added to it. */
  function Pads(w: string): nat {
    TrimmingShortens(WithoutSpaces(w));
    |WithoutSpaces(w)| - |Core(w)| + Padding(|w|)
  }

  /**
   * TypeScript pads the text to a multiple of four before the spaces are ignored; padding is ignored
   * too, but only up to two characters of it, and only if a multiple of four is left.
   */
  predicate TypeScriptTakes(w: string) {
    InEither(Core(w)) && if Spaces(w) % 4 == 0 then Pads(w) <= 2 else Pads(w) == 0 && Spaces(w) % 4 != 3
  }

  /** Go ignores any padding at the end and line breaks before it, and nothing else. */
  predicate GoTakes(w: string) {
    var z := WithoutNewlines(TrimmedRight(w));
    InAlphabet(z, true) && |z| % 4 != 1
  }

  lemma {:induction false} WithoutSpacesOfPadded(t: string, n: nat)
    ensures WithoutSpaces(t + Repeated('=', n)) == WithoutSpaces(t) + Repeated('=', n)
  {
    var u := t + Repeated('=', n);
    if n == 0 {
      assert u == t && WithoutSpaces(t) + "" == WithoutSpaces(t);
    } else {
      assert u[..|u| - 1] == t + Repeated('=', n - 1) && u[|u| - 1] == '=';
      WithoutSpacesOfPadded(t, n - 1);
      assert Repeated('=', n - 1) + "=" == Repeated('=', n);
      assert WithoutSpaces(t) + Repeated('=', n - 1) + "=" == WithoutSpaces(t) + (Repeated('=', n - 1) + "=");
    }
  }

  lemma {:induction false} SpacesOfStandard(w: string)
    ensures WithoutSpaces(Standard(w)) == Standard(WithoutSpaces(w))
  {
    if w != "" {
      var t := Standard(w);
      assert t[..|t| - 1] == Standard(w[..|w| - 1]);
      SpacesOfStandard(w[..|w| - 1]);
    }
  }

  lemma StandardOfPadded(s: string, n: nat)
    ensures Standard(s + Repeated('=', n)) == Standard(s) + Repeated('=', n)
  {
  }

  /** What is left of a text when the spaces have been ignored. */
  lemma Despaced(w: string)
    ensures var t := Standard(w) + Repeated('=', Padding(|w|));
      && |Standard(w)| == |w|
      && WithoutSpaces(t) == Standard(Core(w)) + Repeated('=', Pads(w))
      && |Core(w)| + Pads(w) == |w| + Padding(|w|) - Spaces(w)
  {
    hide WithoutSpaces, TrimmedRight;
    var p, v := Padding(|w|), WithoutSpaces(w);
    TrimmingShortens(v);
    var q := |v| - |Core(w)|;
    WithoutSpacesOfPadded(Standard(w), p);
    SpacesOfStandard(w);
    StandardOfPadded(Core(w), q);
    assert Repeated('=', q) + Repeated('=', p) == Repeated('=', q + p);
    assert Standard(Core(w)) + Repeated('=', q) + Repeated('=', p) == Standard(Core(w)) + (Repeated('=', q) + Repeated('=', p));
  }

  /** A text with padding, whose rest does not end with one. */
  lemma PaddedDecodes(c: string, n: nat)
    requires c == "" || c[|c| - 1] != '='
    ensures var v := c + Repeated('=', n);
      var takes := InAlphabet(c, false) && if |v| % 4 == 0 then n <= 2 else n == 0 && |v| % 4 != 1;
      Decoded(WithoutPadding(v), false) == if takes then Decoded(c, false) else None
  {
    hide Read, Unpacked;
    var v := c + Repeated('=', n);
    assert n == 0 ==> v == c;
    if |v| % 4 == 0 {
      if n >= 3 {
        assert v[|v| - 2..] == "==" && v[..|v| - 2][|c|] == '=';
      } else if n == 2 {
        assert v[|v| - 2..] == "==" && v[..|v| - 2] == c;
      } else if n == 1 {
        assert v[|v| - 1] == '=' && v[|v| - 2] != '=' && v[..|v| - 1] == c;
      }
    } else if n > 0 {
      assert v[|c|] == '=';
    }
  }

  lemma TypeScriptDecodes(w: string)
    ensures UrlDecode(w) == if TypeScriptTakes(w) then Meaning(w) else None
  {
    hide WithoutSpaces, TrimmedRight, WithoutPadding, Decoded, InAlphabet;
    Despaced(w);
    TrimmingShortens(WithoutSpaces(w));
    var c, n := Standard(Core(w)), Pads(w);
    PaddedDecodes(c, n);
    var v := c + Repeated('=', n);
    assert |v| == |w| + Padding(|w|) - Spaces(w) && (|w| + Padding(|w|)) % 4 == 0;
    RemainderOfDifference(|w| + Padding(|w|), Spaces(w));
  }

  lemma RemainderOfDifference(n: nat, s: nat)
    requires n % 4 == 0 && s <= n
    ensures (n - s) % 4 == (4 - s % 4) % 4
  {
  }

  lemma {:induction false} SpacesAreLineBreaks(y: string)
    requires InAlphabet(WithoutNewlines(y), true)
    ensures WithoutSpaces(y) == WithoutNewlines(y)
  {
    if y != "" {
      var front, last := y[..|y| - 1], y[|y| - 1];
      var z := WithoutNewlines(front);
      if last != '\n' && last != '\r' {
        assert (z + [last])[|z|] == last;
        assert forall i :: 0 <= i < |z| ==> (z + [last])[i] == z[i];
      }
      SpacesAreLineBreaks(front);
    }
  }

  lemma GoDecodes(w: string)
    ensures GoDecode(w) == if GoTakes(w) then Meaning(w) else None
  {
    hide WithoutSpaces, TrimmedRight, WithoutNewlines, Unpacked, Chars;
    var y := TrimmedRight(w);
    var z, r := WithoutNewlines(y), |w| - |y|;
    TrimmingShortens(w);
    if GoTakes(w) {
      SpacesAreLineBreaks(y);
      WithoutSpacesOfPadded(y, r);
      TrimmedPadding(z, r);
      assert Core(w) == z;
      StandardIsRead(z);
    }
  }

  /**
   * On every text at all: when both clients take a text, it means the same to them; so they read it
   * differently, apart from the rounding and the limit of 16 digits, if and only if it means a seq
   * of at most 16 digits and exactly one of them takes it.
   */
  lemma ClientsDifferIffOneTakes(w: string)
    ensures ParseWatermark(w) != Narrowed(GoSeq(w)) <==> SeqOf(Meaning(w), 16).Some? && TypeScriptTakes(w) != GoTakes(w)
  {
    hide UrlDecode, GoDecode, Decoded, Pow10, ValueOf, InAlphabet, Meaning, TypeScriptTakes, GoTakes, Nearest;
    TypeScriptDecodes(w);
    GoDecodes(w);
    SeqOfAgrees(Meaning(w));
    if IsDecimal(w, |w|) {
      DigitsAreNotOpaque(w);
      ClientsAgree(w);
      DecodersAgree(w);
      NoSeqInDigits(w);
    } else if w == "" {
      NoSeqInNothing();
      NothingIsInAlphabet();
      DecodersAgree(w);
    }
  }

  lemma NothingIsInAlphabet()
    ensures InAlphabet("", true)
  {
  }

  /** The opaque form is plain unpadded base64url. */
  lemma OpaqueShape(n: nat)
    ensures InAlphabet(Opaque(n), true) && |Opaque(n)| % 4 != 1 && Opaque(n) != ""
    ensures Decoded(Opaque(n), true) == Some("seq:" + Decimal(n))
  {
    hide UrlEncode, Packed, Read, Decimal, UrlDecode, Unpacked;
    var text := "seq:" + Decimal(n);
    OpaqueText(n);
    UrlEncodeIsBase64Url(text);
    ReadInverts(Packed(Codes(text)), true);
    UnpackedInverts(Codes(text));
    OpaqueDecodes(n);
    DecodersAgree(Opaque(n));
  }

  const FORM_FEED := 12 as char

  const INDENT := [' ', '\t', FORM_FEED, ' ']

  lemma {:induction false} SpacesOfIndented(s: string)
    requires forall i :: 0 <= i < |s| ==> !IsSpace(s[i])
    ensures WithoutSpaces(INDENT + s) == s
  {
    var t := INDENT + s;
    if s == "" {
      var three, two, one := [' ', '\t', FORM_FEED], [' ', '\t'], [' '];
      assert t == INDENT && t[..3] == three && three[..2] == two && two[..1] == one && one[..0] == "";
      assert WithoutSpaces(one) == "";
      assert WithoutSpaces(two) == "";
      assert WithoutSpaces(three) == "";
    } else {
      assert t[..|t| - 1] == INDENT + s[..|s| - 1];
      SpacesOfIndented(s[..|s| - 1]);
    }
  }

  lemma IndentedIsTaken(s: string)
    requires InAlphabet(s, true) && |s| % 4 != 1
    ensures TypeScriptTakes(INDENT + s) && !GoTakes(INDENT + s) && Meaning(INDENT + s) == Decoded(s, true)
  {
    hide WithoutSpaces, WithoutNewlines, Unpacked;
    var w := INDENT + s;
    SpacesOfIndented(s);
    assert s == "" || s[|s| - 1] != '=';
    StandardIsRead(s);
    assert Spaces(w) == 4 && Pads(w) == Padding(|s|);
    LineBreaksOfIndented(s);
    assert w[|w| - 1] != '=';
  }

  lemma LineBreaksOfIndented(s: string)
    requires InAlphabet(s, true)
    ensures !InAlphabet(WithoutNewlines(INDENT + s), true)
  {
    hide WithoutNewlines;
    NoLineBreaks(INDENT + s);
    assert (INDENT + s)[0] == ' ';
  }

  lemma {:induction false} NoLineBreaks(s: string)
    requires forall i :: 0 <= i < |s| ==> s[i] != '\n' && s[i] != '\r'
    ensures WithoutNewlines(s) == s
  {
    if s != "" {
      NoLineBreaks(s[..|s| - 1]);
    }
  }

  /** The opaque form with white space in front is read by TypeScript alone. */
  lemma OnlyTypeScriptReads(n: nat)
    requires n < Pow10(16)
    ensures ParseWatermark(INDENT + Opaque(n)) == Some(Nearest(n)) && GoSeq(INDENT + Opaque(n)) == None
  {
    hide Opaque, Decimal, Pow10, Nearest, Meaning, TypeScriptTakes, GoTakes, UrlDecode, GoDecode, Decoded, SeqOf;
    var w := INDENT + Opaque(n);
    OpaqueShape(n);
    IndentedIsTaken(Opaque(n));
    TypeScriptDecodes(w);
    GoDecodes(w);
    SeqOfOpaque(n, 16);
    assert w[0] == ' ' && SeqOf(None, 18) == None by {
      NoText();
    }
  }

  lemma NoText()
    ensures SeqOf(None, 18) == None == SeqOf(None, 16)
  {
  }

  const EXTRA := "===="

  lemma OverpaddedIsTaken(s: string)
    requires InAlphabet(s, true) && |s| % 4 != 1
    ensures !TypeScriptTakes(s + EXTRA) && GoTakes(s + EXTRA) && Meaning(s + EXTRA) == Decoded(s, true)
  {
    hide WithoutSpaces, TrimmedRight, WithoutNewlines, Unpacked;
    assert EXTRA == Repeated('=', 4);
    assert s == "" || s[|s| - 1] != '=';
    TrimmedPadding(s, 4);
    NoSpaces(s);
    WithoutSpacesOfPadded(s, 4);
    StandardIsRead(s);
    assert Spaces(s + EXTRA) == 0 && Pads(s + EXTRA) >= 4;
  }

  /** The opaque form with padding that it does not need is read by Go alone. */
  lemma OnlyGoReads(n: nat)
    requires n < Pow10(18)
    ensures ParseWatermark(Opaque(n) + EXTRA) == None && GoSeq(Opaque(n) + EXTRA) == Some(n)
  {
    hide Opaque, Decimal, Pow10, Meaning, TypeScriptTakes, GoTakes, UrlDecode, GoDecode, Decoded, SeqOf;
    var w := Opaque(n) + EXTRA;
    OpaqueShape(n);
    OverpaddedIsTaken(Opaque(n));
    TypeScriptDecodes(w);
    GoDecodes(w);
    SeqOfOpaque(n, 18);
    NoText();
    assert w[|w| - 1] == '=';
  }
}
