/** The identifier generator (helpers.GenerateId) and the id-length window the
    HTTP handlers enforce before any id-keyed call. The clock and the random draws
    are parameters: the millisecond timestamp, the number drawn below 1000 and
    the three letter indices drawn below 26. */
module Ids {

  /** The alphabet the three trailing letters are drawn from. */
  const RandomChars: string := "ABCDEFGHIJKLMNOPQRSTUVWXYZ"

  predicate IsDigit(c: char) { '0' <= c <= '9' }

  predicate AllDigits(s: string) { forall k :: 0 <= k < |s| ==> IsDigit(s[k]) }

  function DigitChar(d: nat): (c: char)
    requires d < 10
    ensures IsDigit(c) && c as int - '0' as int == d
  {
    ('0' as int + d) as char
  }

  /** The number a string of decimal digits denotes. */
  function DigitsValue(s: string): nat
    requires AllDigits(s)
  {
    if s == [] then 0 else DigitsValue(s[..|s| - 1]) * 10 + (s[|s| - 1] as int - '0' as int)
  }

  /** `fmt.Sprintf("%d", n)` for a non-negative `n`: its decimal digits, with no
      leading zero. */
  function Decimal(n: nat): (s: string)
    ensures |s| >= 1 && AllDigits(s)
    ensures s[0] == '0' ==> n == 0
  {
    if n < 10 then [DigitChar(n)] else Decimal(n / 10) + [DigitChar(n % 10)]
  }

  /** The number of decimal digits of `n`. */
  function NumDigits(n: nat): nat
  {
    if n < 10 then 1 else 1 + NumDigits(n / 10)
  }

  function Pow10(k: nat): nat
  {
    if k == 0 then 1 else 10 * Pow10(k - 1)
  }

  /** `fmt.Sprintf("%03d", r)` for `0 <= r < 1000`: exactly three digits. */
  function Pad3(r: nat): string
    requires r < 1000
  {
    [DigitChar(r / 100), DigitChar(r / 10 % 10), DigitChar(r % 10)]
  }

  /** The letters the indices select from `RandomChars`, in order. */
  function Letters(indices: seq<nat>): string
    requires forall k :: 0 <= k < |indices| ==> indices[k] < 26
  {
    if indices == [] then []
    else Letters(indices[..|indices| - 1]) + [RandomChars[indices[|indices| - 1]]]
  }

  /** The identifier for the given draws: prefix, decimal timestamp, zero-padded
      number, three letters. */
  function IdFor(prefix: string, timestamp: nat, randomValue: nat, letters: seq<nat>): (id: string)
    requires randomValue < 1000
    requires |letters| == 3 && forall k :: 0 <= k < 3 ==> letters[k] < 26
    ensures |id| == |prefix| + NumDigits(timestamp) + 6
    ensures id[..|prefix|] == prefix
    ensures forall k :: |id| - 3 <= k < |id| ==> 'A' <= id[k] <= 'Z'
  {
    DecimalRoundTrip(timestamp);
    LettersDecode(letters);
    var head := prefix + Decimal(timestamp) + Pad3(randomValue);
    assert forall k :: 0 <= k < 3 ==> (head + Letters(letters))[|head| + k] == Letters(letters)[k];
    head + Letters(letters)
  }

  /** `GenerateId(prefix)`, building the id step by step as the source does. */
  method GenerateId(prefix: string, timestamp: nat, randomValue: nat, letters: seq<nat>) returns (id: string)
    requires randomValue < 1000
    requires |letters| == 3 && forall k :: 0 <= k < 3 ==> letters[k] < 26
    ensures id == IdFor(prefix, timestamp, randomValue, letters)
  {
    id := prefix;
    id := id + Decimal(timestamp);
    id := id + Pad3(randomValue);
    for i := 0 to 3
      invariant id == prefix + Decimal(timestamp) + Pad3(randomValue) + Letters(letters[..i])
    {
      assert letters[..i + 1][..i] == letters[..i];
      id := id + [RandomChars[letters[i]]];
    }
    assert letters[..3] == letters;
  }

  /** The handlers accept an id only when its length is between 20 and 25. */
  predicate ValidIdLen(id: string)
  {
    20 <= |id| <= 25
  }

  /** Reading the timestamp's digits back gives the timestamp. */
  lemma {:induction false} DecimalRoundTrip(n: nat)
    ensures DigitsValue(Decimal(n)) == n
    ensures |Decimal(n)| == NumDigits(n)
  {
    if n >= 10 {
      DecimalRoundTrip(n / 10);
      var s := Decimal(n);
      assert s[..|s| - 1] == Decimal(n / 10);
    }
  }

  /** Reading the three padded digits back gives the number drawn. */
  lemma Pad3RoundTrip(r: nat)
    requires r < 1000
    ensures |Pad3(r)| == 3 && DigitsValue(Pad3(r)) == r
  {
    var s := Pad3(r);
    assert s[..2][..1] == [DigitChar(r / 100)];
    assert s[..2][..1][..0] == [];
    assert DigitsValue(s[..2][..1]) == r / 100;
    assert DigitsValue(s[..2]) == r / 100 * 10 + r / 10 % 10;
    assert r / 100 * 10 + r / 10 % 10 == r / 10;
  }

  /** Each index selects one upper-case letter, which decodes back to the index. */
  lemma {:induction false} LettersDecode(indices: seq<nat>)
    requires forall k :: 0 <= k < |indices| ==> indices[k] < 26
    ensures |Letters(indices)| == |indices|
    ensures forall k :: 0 <= k < |indices| ==>
              'A' <= Letters(indices)[k] <= 'Z' && Letters(indices)[k] as int - 'A' as int == indices[k]
  {
    if indices != [] {
      LettersDecode(indices[..|indices| - 1]);
      var last := indices[|indices| - 1];
      assert RandomChars[last] as int - 'A' as int == last;
    }
  }

  /** A number below `10^k` and, for more than one digit, at least `10^(k-1)`,
      has exactly `k` digits. */
  lemma {:induction false} NumDigitsExact(n: nat, k: nat)
    requires 1 <= k && n < Pow10(k)
    requires k > 1 ==> Pow10(k - 1) <= n
    ensures NumDigits(n) == k
  {
    if k > 1 {
      assert n >= 10 by { assert Pow10(k - 1) >= 10 by { Pow10AtLeastTen(k - 1); } }
      assert n / 10 < Pow10(k - 1);
      if k > 2 {
        assert Pow10(k - 1) == 10 * Pow10(k - 2);
      }
      NumDigitsExact(n / 10, k - 1);
    } else {
      assert Pow10(1) == 10;
    }
  }

  lemma {:induction false} Pow10AtLeastTen(k: nat)
    requires k >= 1
    ensures Pow10(k) >= 10
  {
    if k > 1 {
      Pow10AtLeastTen(k - 1);
    }
  }

  /** The generated id is the prefix, then the timestamp's decimal digits, then the
      three digits of the number, then three letters; each part decodes back to
      the value it was built from, and the length is |prefix| + digits + 6. */
  lemma IdDecodes(prefix: string, timestamp: nat, randomValue: nat, letters: seq<nat>)
    requires randomValue < 1000
    requires |letters| == 3 && forall k :: 0 <= k < 3 ==> letters[k] < 26
    ensures var id := IdFor(prefix, timestamp, randomValue, letters);
            var p, d := |prefix|, NumDigits(timestamp);
            && |id| == p + d + 6
            && id[..p] == prefix
            && id[p..p + d] == Decimal(timestamp)
            && DigitsValue(id[p..p + d]) == timestamp
            && (id[p] == '0' ==> timestamp == 0)
            && id[p + d..p + d + 3] == Pad3(randomValue)
            && DigitsValue(id[p + d..p + d + 3]) == randomValue
            && forall k :: 0 <= k < 3 ==>
                 'A' <= id[p + d + 3 + k] <= 'Z' && id[p + d + 3 + k] as int - 'A' as int == letters[k]
  {
    var id := IdFor(prefix, timestamp, randomValue, letters);
    var p, d := |prefix|, NumDigits(timestamp);
    DecimalRoundTrip(timestamp);
    Pad3RoundTrip(randomValue);
    LettersDecode(letters);
    var dec, pad, let := Decimal(timestamp), Pad3(randomValue), Letters(letters);
    assert id == prefix + dec + pad + let;
    assert id[..p] == prefix;
    assert id[p..p + d] == dec;
    assert id[p + d..p + d + 3] == pad;
    assert forall k :: 0 <= k < 3 ==> id[p + d + 3 + k] == let[k];
  }

  /** Millisecond timestamps have 13 digits from September 2001 until the year
      2286; with them the ids for "P-", "M-" and "S-" have 21 characters and those
      for "CERT-" 24, all inside the window the handlers accept. */
  lemma ThirteenDigitIdsAccepted(prefix: string, timestamp: nat, randomValue: nat, letters: seq<nat>)
    requires 1_000_000_000_000 <= timestamp < 10_000_000_000_000
    requires randomValue < 1000
    requires |letters| == 3 && forall k :: 0 <= k < 3 ==> letters[k] < 26
    requires prefix in ["P-", "M-", "S-", "CERT-"]
    ensures |IdFor(prefix, timestamp, randomValue, letters)| == if prefix == "CERT-" then 24 else 21
    ensures ValidIdLen(IdFor(prefix, timestamp, randomValue, letters))
  {
    assert Pow10(12) == 1_000_000_000_000 && Pow10(13) == 10_000_000_000_000 by {
      assert Pow10(1) == 10;
      assert Pow10(2) == 100;
      assert Pow10(3) == 1000;
      assert Pow10(4) == 10_000;
      assert Pow10(5) == 100_000;
      assert Pow10(6) == 1_000_000;
      assert Pow10(7) == 10_000_000;
      assert Pow10(8) == 100_000_000;
      assert Pow10(9) == 1_000_000_000;
      assert Pow10(10) == 10_000_000_000;
      assert Pow10(11) == 100_000_000_000;
    }
    NumDigitsExact(timestamp, 13);
    IdDecodes(prefix, timestamp, randomValue, letters);
  }
}
