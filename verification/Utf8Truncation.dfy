/**
 Cutting text to a number of bytes on a character boundary, by stepping back from the
 bound while the byte there continues a character (section 3 of RFC 3629).
 */
module Utf8Truncation {

  type byte = x: int | 0 <= x < 256

  const EXPLAIN_REASON_LIMIT := 2048

  predicate Continues(b: byte) {
    0x80 <= b < 0xC0
  }

  predicate RuneStart(b: byte) {
    !Continues(b)
  }

  /** The second byte a lead byte of a multi-byte character allows. */
  predicate SecondByte(lead: byte, b: byte) {
    if lead == 0xE0 then 0xA0 <= b <= 0xBF
    else if lead == 0xED then 0x80 <= b <= 0x9F
    else if lead == 0xF0 then 0x90 <= b <= 0xBF
    else if lead == 0xF4 then 0x80 <= b <= 0x8F
    else Continues(b)
  }

  /** The length a lead byte announces, or none. */
  function Announced(lead: byte): (n: nat)
    ensures n <= 4
  {
    if lead < 0x80 then 1
    else if 0xC2 <= lead <= 0xDF then 2
    else if 0xE0 <= lead <= 0xEF then 3
    else if 0xF0 <= lead <= 0xF4 then 4
    else 0
  }

  /** `s` begins with a well-formed character of the length its lead byte announces. */
  predicate StartsWell(s: seq<byte>) {
    && s != []
    && 0 < Announced(s[0]) <= |s|
    && (Announced(s[0]) > 1 ==> SecondByte(s[0], s[1]))
    && (Announced(s[0]) > 2 ==> Continues(s[2]))
    && (Announced(s[0]) > 3 ==> Continues(s[3]))
  }

  predicate ValidUtf8(s: seq<byte>) {
    s == [] || (StartsWell(s) && ValidUtf8(s[Announced(s[0])..]))
  }

  /** How many bytes the cut keeps of a text longer than `n`. */
  function Kept(s: seq<byte>, n: nat): nat
    requires n < |s|
  {
    if n > 0 && !RuneStart(s[n]) then Kept(s, n - 1) else n
  }

  function Truncated(s: seq<byte>, n: nat): seq<byte> {
    if |s| <= n then s else
      assert Kept(s, n) <= n by { KeptBounds(s, n); }
      s[..Kept(s, n)]
  }

  lemma {:induction false} KeptBounds(s: seq<byte>, n: nat)
    requires n < |s|
    ensures Kept(s, n) <= n
    ensures Kept(s, n) == 0 || RuneStart(s[Kept(s, n)])
    ensures forall i :: Kept(s, n) < i <= n ==> Continues(s[i])
  {
    if n > 0 && !RuneStart(s[n]) {
      KeptBounds(s, n - 1);
    }
  }

  method Truncate(s: seq<byte>, limit: nat) returns (r: seq<byte>)
    ensures r == Truncated(s, limit)
    ensures ValidUtf8(s) ==> LongestValidPrefix(s, limit, r)
  {
    if ValidUtf8(s) {
      TruncatedIsLongest(s, limit);
    }
    if |s| <= limit {
      return s;
    }
    var n: nat := limit;
    while n > 0 && !RuneStart(s[n])
      invariant n <= limit && Kept(s, n) == Kept(s, limit)
    {
      n := n - 1;
    }
    return s[..n];
  }

  method ExplainReason(reason: seq<byte>) returns (r: seq<byte>)
    ensures r == Truncated(reason, 2048)
    ensures ValidUtf8(reason) ==> LongestValidPrefix(reason, 2048, r)
  {
    if ValidUtf8(reason) {
      TruncatedIsLongest(reason, EXPLAIN_REASON_LIMIT);
    }
    if |reason| <= EXPLAIN_REASON_LIMIT {
      return reason;
    }
    var cut: nat := EXPLAIN_REASON_LIMIT;
    while cut > 0 && !RuneStart(reason[cut])
      invariant cut <= EXPLAIN_REASON_LIMIT && Kept(reason, cut) == Kept(reason, EXPLAIN_REASON_LIMIT)
    {
      cut := cut - 1;
    }
    return reason[..cut];
  }

  // ---------------------------------------------------------------------
  // On valid text the cut is the longest valid prefix
  // ---------------------------------------------------------------------

  /** The longest valid prefix within the bound, at most three bytes short of it. */
  ghost predicate LongestValidPrefix(s: seq<byte>, n: nat, r: seq<byte>) {
    && r <= s && |r| <= n && ValidUtf8(r)
    && (forall k :: |r| < k <= n && k <= |s| ==> !ValidUtf8(s[..k]))
    && (|s| <= n ==> r == s)
    && (|s| > n ==> n - |r| <= 3)
  }

  lemma {:induction false} FirstCharacter(s: seq<byte>)
    requires StartsWell(s)
    ensures RuneStart(s[0])
    ensures forall i :: 0 < i < Announced(s[0]) ==> Continues(s[i])
  {
  }

  lemma {:induction false} CutCommutes(s: seq<byte>, n: nat, i: nat)
    requires n <= i <= |s|
    ensures s[..i][n..] == s[n..][..i - n]
  {
    assert s[..i][n..] == s[n..i];
    assert s[n..][..i - n] == s[n..i];
  }

  /** In valid text a prefix is valid exactly when it ends where a character starts, or at the end. */
  lemma {:induction false} Boundary(s: seq<byte>, i: nat)
    requires ValidUtf8(s) && i <= |s|
    ensures ValidUtf8(s[..i]) <==> i == |s| || RuneStart(s[i])
    decreases |s|
  {
    if s != [] {
      var n := Announced(s[0]);
      FirstCharacter(s);
      if 0 < i < n {
        assert s[..i][0] == s[0];
      } else if i >= n {
        Boundary(s[n..], i - n);
        CutCommutes(s, n, i);
        assert i < |s| ==> s[n..][i - n] == s[i];
        assert StartsWell(s[..i]);
      }
    }
  }

  lemma {:induction false} NearStart(s: seq<byte>, i: nat) returns (j: nat)
    requires ValidUtf8(s) && i < |s|
    ensures j <= i <= j + 3 && RuneStart(s[j])
    decreases |s|
  {
    var n := Announced(s[0]);
    FirstCharacter(s);
    if i < n {
      j := 0;
    } else {
      j := NearStart(s[n..], i - n);
      j := j + n;
    }
  }

  lemma {:induction false} TruncatedIsLongest(s: seq<byte>, n: nat)
    requires ValidUtf8(s)
    ensures LongestValidPrefix(s, n, Truncated(s, n))
  {
    if |s| > n {
      var k := Kept(s, n);
      KeptBounds(s, n);
      Boundary(s, 0);
      Boundary(s, k);
      forall i | k < i <= n
        ensures !ValidUtf8(s[..i])
      {
        Boundary(s, i);
      }
      var j := NearStart(s, n);
      assert j <= k;
    }
  }

  // ---------------------------------------------------------------------
  // Valid text is the encoding of characters
  // ---------------------------------------------------------------------

  predicate Scalar(c: nat) {
    c < 0xD800 || 0xE000 <= c < 0x11_0000
  }

  /** The shortest form, six bits to a continuation byte. */
  function EncodeRune(c: nat): seq<byte>
    requires Scalar(c)
  {
    if c < 0x80 then [c]
    else if c < 0x800 then [0xC0 + c / 64, 0x80 + c % 64]
    else if c < 0x1_0000 then [0xE0 + c / 64 / 64, 0x80 + c / 64 % 64, 0x80 + c % 64]
    else [0xF0 + c / 64 / 64 / 64, 0x80 + c / 64 / 64 % 64, 0x80 + c / 64 % 64, 0x80 + c % 64]
  }

  function EncodeAll(cs: seq<nat>): seq<byte>
    requires forall i :: 0 <= i < |cs| ==> Scalar(cs[i])
  {
    if cs == [] then [] else EncodeRune(cs[0]) + EncodeAll(cs[1..])
  }

  lemma {:induction false} RuneStartsWell(c: nat)
    requires Scalar(c)
    ensures StartsWell(EncodeRune(c)) && Announced(EncodeRune(c)[0]) == |EncodeRune(c)|
  {
  }

  function Low(b: byte): nat {
    if b >= 0x80 then b - 0x80 else 0
  }

  /** The character a well-formed beginning encodes. */
  function DecodeRune(s: seq<byte>): nat
    requires StartsWell(s)
  {
    var n := Announced(s[0]);
    if n == 1 then s[0]
    else if n == 2 then (s[0] - 0xC0) * 64 + Low(s[1])
    else if n == 3 then ((s[0] - 0xE0) * 64 + Low(s[1])) * 64 + Low(s[2])
    else (((s[0] - 0xF0) * 64 + Low(s[1])) * 64 + Low(s[2])) * 64 + Low(s[3])
  }

  lemma {:induction false} SixBits(high: nat, low: nat)
    requires low < 64
    ensures (high * 64 + low) / 64 == high && (high * 64 + low) % 64 == low
  {
  }

  lemma {:induction false} StartIsRune(s: seq<byte>)
    requires StartsWell(s)
    ensures Scalar(DecodeRune(s)) && EncodeRune(DecodeRune(s)) == s[..Announced(s[0])]
  {
    var n := Announced(s[0]);
    assert n > 1 ==> Continues(s[1]);
    if n == 2 {
      SixBits(s[0] - 0xC0, Low(s[1]));
    } else if n == 3 {
      ThreeBytes(s);
    } else if n == 4 {
      FourBytes(s);
    }
  }

  lemma {:induction false} ThreeBytes(s: seq<byte>)
    requires StartsWell(s) && Announced(s[0]) == 3
    ensures Scalar(DecodeRune(s)) && EncodeRune(DecodeRune(s)) == s[..3]
  {
    var high := (s[0] - 0xE0) * 64 + Low(s[1]);
    assert 0x80 <= s[1] < 0xC0 && 32 <= high < 0x400 && !(0x360 <= high < 0x380);
    SixBits(s[0] - 0xE0, Low(s[1]));
    SixBits(high, Low(s[2]));
    Bytes3(high * 64 + Low(s[2]), s);
  }

  lemma {:induction false} Bytes3(c: nat, s: seq<byte>)
    requires Scalar(c) && 0x800 <= c < 0x1_0000 && |s| >= 3
    requires s[0] == 0xE0 + c / 64 / 64 && s[1] == 0x80 + c / 64 % 64 && s[2] == 0x80 + c % 64
    ensures EncodeRune(c) == s[..3]
  {
  }

  lemma {:induction false} FourBytes(s: seq<byte>)
    requires StartsWell(s) && Announced(s[0]) == 4
    ensures Scalar(DecodeRune(s)) && EncodeRune(DecodeRune(s)) == s[..4]
  {
    var top := (s[0] - 0xF0) * 64 + Low(s[1]);
    var high := top * 64 + Low(s[2]);
    assert 0x80 <= s[1] < 0xC0 && 16 <= top < 0x110;
    SixBits(s[0] - 0xF0, Low(s[1]));
    SixBits(top, Low(s[2]));
    SixBits(high, Low(s[3]));
    Bytes4(high * 64 + Low(s[3]), s);
  }

  lemma {:induction false} Bytes4(c: nat, s: seq<byte>)
    requires Scalar(c) && 0x1_0000 <= c && |s| >= 4
    requires s[0] == 0xF0 + c / 64 / 64 / 64 && s[1] == 0x80 + c / 64 / 64 % 64
    requires s[2] == 0x80 + c / 64 % 64 && s[3] == 0x80 + c % 64
    ensures EncodeRune(c) == s[..4]
  {
  }

  /** Text is valid exactly when it encodes a sequence of scalar values. */
  lemma {:induction false} ValidExactly(s: seq<byte>)
    ensures ValidUtf8(s) <==>
            exists cs: seq<nat> :: (forall i :: 0 <= i < |cs| ==> Scalar(cs[i])) && EncodeAll(cs) == s
  {
    if ValidUtf8(s) {
      var _ := Decoded(s);
    }
    forall cs: seq<nat> | (forall i :: 0 <= i < |cs| ==> Scalar(cs[i])) && EncodeAll(cs) == s
      ensures ValidUtf8(s)
    {
      EncodedIsValid(cs);
    }
  }

  lemma {:induction false} Decoded(s: seq<byte>) returns (cs: seq<nat>)
    requires ValidUtf8(s)
    ensures (forall i :: 0 <= i < |cs| ==> Scalar(cs[i])) && EncodeAll(cs) == s
    decreases |s|
  {
    cs := [];
    if s != [] {
      var n := Announced(s[0]);
      var rest := Decoded(s[n..]);
      StartIsRune(s);
      cs := [DecodeRune(s)] + rest;
      assert cs[1..] == rest && s == s[..n] + s[n..];
    }
  }

  lemma {:induction false} EncodedIsValid(cs: seq<nat>)
    requires forall i :: 0 <= i < |cs| ==> Scalar(cs[i])
    ensures ValidUtf8(EncodeAll(cs))
  {
    if cs != [] {
      var r, rest := EncodeRune(cs[0]), EncodeAll(cs[1..]);
      EncodedIsValid(cs[1..]);
      RuneStartsWell(cs[0]);
      assert (r + rest)[|r|..] == rest;
      assert (r + rest)[0] == r[0];
    }
  }
}
