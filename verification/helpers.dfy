/** `generateBookingNumber` of src/utils/helpers.ts: two upper-case letters
    followed by four digits, each drawn with `Math.floor(Math.random() * n)`.
    The six `Math.random()` draws are a parameter, idealised as reals in [0, 1). */
module Helpers {
  import opened Text

  const Letters: string := "ABCDEFGHIJKLMNOPQRSTUVWXYZ"
  const Numbers: string := "0123456789"

  predicate IsRandomDraw(r: real) {
    0.0 <= r < 1.0
  }

  predicate ValidDraws(draws: seq<real>) {
    |draws| == 6 && forall i :: 0 <= i < 6 ==> IsRandomDraw(draws[i])
  }

  /** `Math.floor(r * n)`. */
  function DrawIndex(r: real, n: nat): int {
    (r * n as real).Floor
  }

  lemma DrawIndexInRange(r: real, n: nat)
    requires IsRandomDraw(r) && (n == |Letters| || n == |Numbers|)
    ensures 0 <= DrawIndex(r, n) < n
  {
    if n == 26 {
      assert 0.0 <= r * 26.0 < 26.0;
    } else {
      assert 0.0 <= r * 10.0 < 10.0;
    }
  }

  /** `s.charAt(i)`: one character inside the string, the empty string outside. */
  function CharAt(s: string, i: int): (r: string)
    ensures |r| == (if 0 <= i < |s| then 1 else 0)
  {
    if 0 <= i < |s| then [s[i]] else ""
  }

  /** The shape of a booking reference. */
  predicate IsBookingReference(s: string) {
    && |s| == 6
    && (forall k :: 0 <= k < 2 ==> 'A' <= s[k] <= 'Z')
    && (forall k :: 2 <= k < 6 ==> IsDigit(s[k]))
  }

  /** The character the `k`-th draw contributes. */
  function DrawnChar(draws: seq<real>, k: nat): (c: char)
    requires ValidDraws(draws) && k < 6
    ensures k < 2 ==> 'A' <= c <= 'Z'
    ensures k >= 2 ==> IsDigit(c)
  {
    var alphabet := if k < 2 then Letters else Numbers;
    DrawIndexInRange(draws[k], |alphabet|);
    AlphabetsInRange();
    alphabet[DrawIndex(draws[k], |alphabet|)]
  }

  /** The alphabets are the consecutive code points from "A" and from "0". */
  lemma AlphabetsInRange()
    ensures |Letters| == 26 && |Numbers| == 10
    ensures forall i :: 0 <= i < |Letters| ==> Letters[i] as int == 'A' as int + i
    ensures forall i :: 0 <= i < |Numbers| ==> Numbers[i] as int == '0' as int + i
  {
  }

  /** The reference the draws produce. */
  function ReferenceFromDraws(draws: seq<real>): (r: string)
    requires ValidDraws(draws)
    ensures IsBookingReference(r)
  {
    seq(6, k requires 0 <= k < 6 => DrawnChar(draws, k))
  }

  method GenerateBookingNumber(draws: seq<real>) returns (result: string)
    requires ValidDraws(draws)
    ensures IsBookingReference(result)
    ensures result == ReferenceFromDraws(draws)
  {
    result := "";
    var i := 0;
    while i < 2
      invariant 0 <= i <= 2
      invariant |result| == i
      invariant forall k :: 0 <= k < i ==> result[k] == DrawnChar(draws, k)
    {
      DrawIndexInRange(draws[i], |Letters|);
      ghost var drawn := CharAt(Letters, DrawIndex(draws[i], |Letters|));
      assert drawn == [DrawnChar(draws, i)];
      result := result + CharAt(Letters, DrawIndex(draws[i], |Letters|));
      i := i + 1;
    }
    i := 0;
    while i < 4
      invariant 0 <= i <= 4
      invariant |result| == 2 + i
      invariant forall k :: 0 <= k < 2 + i ==> result[k] == DrawnChar(draws, k)
    {
      DrawIndexInRange(draws[2 + i], |Numbers|);
      ghost var drawn := CharAt(Numbers, DrawIndex(draws[2 + i], |Numbers|));
      assert drawn == [DrawnChar(draws, 2 + i)];
      result := result + CharAt(Numbers, DrawIndex(draws[2 + i], |Numbers|));
      i := i + 1;
    }
    assert forall k :: 0 <= k < 6 ==> result[k] == ReferenceFromDraws(draws)[k];
  }

  /** The draw `(i + 0.5) / n` picks index `i` of an alphabet of size `n`. */
  lemma DrawFor(i: nat, n: nat)
    requires i < n && (n == |Letters| || n == |Numbers|)
    ensures IsRandomDraw((i as real + 0.5) / n as real)
    ensures DrawIndex((i as real + 0.5) / n as real, n) == i
  {
    if n == 26 {
      var r := (i as real + 0.5) / 26.0;
      assert r * 26.0 == i as real + 0.5;
    } else {
      var r := (i as real + 0.5) / 10.0;
      assert r * 10.0 == i as real + 0.5;
    }
  }

  /** A draw that picks the character `c` at position `k` of a reference. */
  function DrawPicking(c: char, k: nat): real {
    if k < 2 then ((c as int - 'A' as int) as real + 0.5) / 26.0
    else ((c as int - '0' as int) as real + 0.5) / 10.0
  }

  lemma DrawPickingPicks(s: string, draws: seq<real>, k: nat)
    requires IsBookingReference(s) && k < 6
    requires |draws| == 6 && draws[k] == DrawPicking(s[k], k)
    ensures IsRandomDraw(draws[k])
    ensures ValidDraws(draws) ==> DrawnChar(draws, k) == s[k]
  {
    if k < 2 {
      PickFrom(Letters, 'A', s[k], draws[k]);
    } else {
      PickFrom(Numbers, '0', s[k], draws[k]);
    }
  }

  lemma PickFrom(alphabet: string, first: char, c: char, r: real)
    requires alphabet == Letters || alphabet == Numbers
    requires first == alphabet[0]
    requires first <= c && (c as int - first as int) < |alphabet|
    requires r == ((c as int - first as int) as real + 0.5) / |alphabet| as real
    ensures IsRandomDraw(r) && 0 <= DrawIndex(r, |alphabet|) < |alphabet|
    ensures alphabet[DrawIndex(r, |alphabet|)] == c
  {
    AlphabetsInRange();
    DrawFor(c as int - first as int, |alphabet|);
  }

  /** Every string of the booking-reference shape is produced by some draws:
      the shape describes the generator's range exactly. */
  lemma EveryReferenceReachable(s: string)
    requires IsBookingReference(s)
    ensures exists draws :: ValidDraws(draws) && ReferenceFromDraws(draws) == s
  {
    var draws := seq(6, k requires 0 <= k < 6 => DrawPicking(s[k], k));
    forall k | 0 <= k < 6 ensures IsRandomDraw(draws[k]) {
      DrawPickingPicks(s, draws, k);
    }
    forall k | 0 <= k < 6 ensures DrawnChar(draws, k) == s[k] {
      DrawPickingPicks(s, draws, k);
    }
    assert ReferenceFromDraws(draws) == s;
  }
}
