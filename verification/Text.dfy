/**
 The text primitives the formats are made of: decimal numbers, splitting at a
 separator, and dotted IPv4 addresses. Text is ASCII.
 */
module Text {
  import opened Basics
  import opened Ipv4

  const DIGITS: string := "0123456789"

  predicate IsDigit(c: char) { '0' <= c <= '9' }

  function DigitValue(c: char): (d: nat)
    requires IsDigit(c)
    ensures d < 10
  {
    c as int - '0' as int
  }

  function DigitChar(d: nat): (c: char)
    requires d < 10
    ensures IsDigit(c) && DigitValue(c) == d
  {
    DIGITS[d]
  }

  /** Whether text is a decimal number: what `str.isdecimal` says of ASCII text. */
  predicate IsDecimal(text: string) {
    text != "" && forall i :: 0 <= i < |text| ==> IsDigit(text[i])
  }

  /** `str(n)`: no leading zeros. */
  function Decimal(n: nat): (text: string)
    ensures IsDecimal(text)
    ensures text[0] == '0' ==> n == 0 && text == "0"
    decreases n
  {
    if n < 10 then [DigitChar(n)] else Decimal(n / 10) + [DigitChar(n % 10)]
  }

  /** `int(text)`; leading zeros are allowed. */
  function ParseDecimal(text: string): nat
    requires IsDecimal(text)
  {
    var last := DigitValue(text[|text| - 1]);
    if |text| == 1 then last else ParseDecimal(text[..|text| - 1]) * 10 + last
  }

  lemma {:induction false} ParseDecimalInverse(n: nat)
    ensures ParseDecimal(Decimal(n)) == n
    decreases n
  {
    if n >= 10 {
      ParseDecimalInverse(n / 10);
      assert Decimal(n)[..|Decimal(n)| - 1] == Decimal(n / 10);
    }
  }

  function Power10(k: nat): (p: nat)
    ensures p > 0
  {
    if k == 0 then 1 else 10 * Power10(k - 1)
  }

  /** A number below 10^k has at most k digits. */
  lemma {:induction false} DecimalLength(n: nat, k: nat)
    requires 1 <= k && n < Power10(k)
    ensures |Decimal(n)| <= k
    decreases k
  {
    if n >= 10 {
      assert Power10(1) == 10 * Power10(0);
      DecimalLength(n / 10, k - 1);
    }
  }

  /** Where c first occurs in text, or |text|. */
  function Find(text: string, c: char): (i: nat)
    ensures i <= |text| && c !in text[..i]
    ensures i < |text| ==> text[i] == c
  {
    if text == "" || text[0] == c then 0
    else
      var i := 1 + Find(text[1..], c);
      assert text[..i] == [text[0]] + text[1..][..i - 1];
      i
  }

  /** `text.split(c)`: always at least one part. */
  function Split(text: string, c: char): (parts: seq<string>)
    ensures |parts| > 0
    decreases |text|
  {
    var i := Find(text, c);
    if i == |text| then [text] else [text[..i]] + Split(text[i + 1..], c)
  }

  lemma {:induction false} FindPrefix(prefix: string, c: char, rest: string)
    requires c !in prefix
    ensures Find(prefix + [c] + rest, c) == |prefix|
  {
    if prefix != [] {
      var text := prefix + [c] + rest;
      assert text[1..] == prefix[1..] + [c] + rest;
      FindPrefix(prefix[1..], c, rest);
    }
  }

  lemma FindNone(text: string, c: char)
    requires c !in text
    ensures Find(text, c) == |text|
  {
  }

  /** A part without the separator, then the separator, is the first part. */
  lemma SplitFirst(prefix: string, c: char, rest: string)
    requires c !in prefix
    ensures Split(prefix + [c] + rest, c) == [prefix] + Split(rest, c)
  {
    FindPrefix(prefix, c, rest);
    var text := prefix + [c] + rest;
    assert text[..|prefix|] == prefix;
    assert text[|prefix| + 1..] == rest;
  }

  lemma SplitWhole(text: string, c: char)
    requires c !in text
    ensures Split(text, c) == [text]
  {
  }

  lemma DigitInverse(c: char)
    requires IsDigit(c)
    ensures DigitChar(DigitValue(c)) == c
  {
  }

  lemma AppendDigit(high: nat, low: nat)
    requires high > 0 && low < 10
    ensures Decimal(high * 10 + low) == Decimal(high) + [DigitChar(low)]
  {
    assert (high * 10 + low) / 10 == high && (high * 10 + low) % 10 == low;
  }

  lemma {:induction false} DecimalInverse(text: string)
    requires IsDecimal(text) && (text[0] == '0' ==> |text| == 1)
    ensures Decimal(ParseDecimal(text)) == text
    ensures text[0] != '0' ==> ParseDecimal(text) > 0
    decreases |text|
  {
    var k := |text| - 1;
    DigitInverse(text[k]);
    if k == 0 {
      assert text == [text[0]];
    } else {
      DecimalInverse(text[..k]);
      AppendDigit(ParseDecimal(text[..k]), DigitValue(text[k]));
      assert text == text[..k] + [text[k]];
    }
  }

  /** One number of a dotted address: up to three digits, no leading zero. */
  function ParseOctet(text: string): (r: Option<Byte>)
    ensures r.Some? ==> text == Decimal(r.value)
  {
    if !IsDecimal(text) || |text| > 3 || (text[0] == '0' && |text| > 1) then None
    else
      assert text == Decimal(ParseDecimal(text)) by { DecimalInverse(text); }
      var n := ParseDecimal(text);
      if n > 255 then None else Some(n)
  }

  lemma OctetInverse(b: Byte)
    ensures ParseOctet(Decimal(b)) == Some(b)
  {
    ParseDecimalInverse(b);
    assert Power10(3) == 10 * Power10(2) == 100 * Power10(1) == 1000 * Power10(0);
    DecimalLength(b, 3);
  }

  /** `str(IPv4Address)`. */
  function AddressText(a: Address): string {
    var p := Packed(a);
    Decimal(p[0]) + ['.'] + (Decimal(p[1]) + ['.'] + (Decimal(p[2]) + ['.'] + Decimal(p[3])))
  }

  /** `IPv4Address(text)`, or None where it raises. */
  function ParseAddress(text: string): Option<Address> {
    var parts := Split(text, '.');
    if |parts| != 4 then None
    else
      var a, b, c, d := ParseOctet(parts[0]), ParseOctet(parts[1]), ParseOctet(parts[2]), ParseOctet(parts[3]);
      if a.None? || b.None? || c.None? || d.None? then None
      else Some(Number32(a.value, b.value, c.value, d.value))
  }

  lemma DecimalHas(n: nat, c: char)
    requires !IsDigit(c)
    ensures c !in Decimal(n)
  {
  }

  lemma JoinFour(d0: string, d1: string, d2: string, d3: string)
    requires '.' !in d0 && '.' !in d1 && '.' !in d2 && '.' !in d3
    ensures Split(d0 + ['.'] + (d1 + ['.'] + (d2 + ['.'] + d3)), '.') == [d0, d1, d2, d3]
  {
    hide Split;
    var last := d2 + ['.'] + d3;
    assert Split(last, '.') == [d2, d3] by {
      SplitFirst(d2, '.', d3);
      SplitWhole(d3, '.');
    }
    var tail := d1 + ['.'] + last;
    assert Split(tail, '.') == [d1, d2, d3] by {
      SplitFirst(d1, '.', last);
    }
    SplitFirst(d0, '.', tail);
  }

  lemma AddressSplit(a: Address)
    ensures var p := Packed(a);
            Split(AddressText(a), '.') == [Decimal(p[0]), Decimal(p[1]), Decimal(p[2]), Decimal(p[3])]
  {
    var p := Packed(a);
    DecimalHas(p[0], '.');
    DecimalHas(p[1], '.');
    DecimalHas(p[2], '.');
    DecimalHas(p[3], '.');
    JoinFour(Decimal(p[0]), Decimal(p[1]), Decimal(p[2]), Decimal(p[3]));
  }

  lemma AddressInverse(a: Address)
    ensures ParseAddress(AddressText(a)) == Some(a)
  {
    var p := Packed(a);
    AddressSplit(a);
    OctetInverse(p[0]);
    OctetInverse(p[1]);
    OctetInverse(p[2]);
    OctetInverse(p[3]);
    PackedInverse(a);
  }

  lemma {:induction false} SplitJoins(text: string, c: char)
    ensures forall i :: 0 <= i < |Split(text, c)| ==> c !in Split(text, c)[i]
    ensures |Split(text, c)| == 1 ==> text == Split(text, c)[0]
    ensures |Split(text, c)| > 1 ==> exists rest ::
      text == Split(text, c)[0] + [c] + rest && Split(text, c)[1..] == Split(rest, c)
    decreases |text|
  {
    var i := Find(text, c);
    if i < |text| {
      SplitJoins(text[i + 1..], c);
      assert text == text[..i] + [c] + text[i + 1..];
      assert Split(text, c)[1..] == Split(text[i + 1..], c);
    }
  }

  /** An address has one text: what is read is what would be printed. */
  lemma AddressSpelled(text: string)
    requires ParseAddress(text).Some?
    ensures AddressText(ParseAddress(text).value) == text
  {
    hide Split, ParseOctet, Packed, Number32;
    var parts := Split(text, '.');
    SplitJoins(text, '.');
    var t1 :| text == parts[0] + ['.'] + t1 && parts[1..] == Split(t1, '.');
    SplitJoins(t1, '.');
    assert parts[1..][1..] == parts[2..] && parts[1..][0] == parts[1];
    var t2 :| t1 == parts[1] + ['.'] + t2 && parts[2..] == Split(t2, '.');
    SplitJoins(t2, '.');
    assert parts[2..][1..] == parts[3..] && parts[2..][0] == parts[2];
    var t3 :| t2 == parts[2] + ['.'] + t3 && parts[3..] == Split(t3, '.');
    SplitJoins(t3, '.');
    var a, b, c, d := ParseOctet(parts[0]), ParseOctet(parts[1]), ParseOctet(parts[2]), ParseOctet(parts[3]);
    NumberInverse(a.value, b.value, c.value, d.value);
  }

  /** The characters of a dotted address. */
  lemma AddressHas(a: Address, c: char)
    requires !IsDigit(c) && c != '.'
    ensures c !in AddressText(a)
  {
  }
}
