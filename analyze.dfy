/** The per-row helpers of the land analysis (`analyze_lands.py`): reading a
    price such as "45 000 $", reading the area at the front of a size such as
    "45 м²", and the three-way price category. Numbers are read as natural
    numbers written in ASCII decimal digits; the quantile thresholds are
    parameters. */
module Analyze {
  import opened Wrappers
  import opened Text

  // ------------------------------------------------------------ decimal numerals

  predicate IsDigit(c: char) {
    '0' <= c <= '9'
  }

  predicate AllDigits(s: string) {
    forall k :: 0 <= k < |s| ==> IsDigit(s[k])
  }

  function DigitValue(c: char): (d: nat)
    requires IsDigit(c)
    ensures d < 10
  {
    c as int - '0' as int
  }

  function DigitChar(d: nat): (c: char)
    requires d < 10
    ensures IsDigit(c) && DigitValue(c) == d
  {
    ('0' as int + d) as char
  }

  /** The value of a numeral, most significant digit first. */
  function DigitsValue(s: string): nat
    requires AllDigits(s)
  {
    if s == [] then 0 else DigitsValue(s[..|s| - 1]) * 10 + DigitValue(s[|s| - 1])
  }

  /** The shortest numeral of `n` (no leading zeros). */
  function Numeral(n: nat): (s: string)
    ensures s != [] && AllDigits(s)
    ensures |s| > 1 ==> s[0] != '0'
  {
    if n < 10 then [DigitChar(n)] else Numeral(n / 10) + [DigitChar(n % 10)]
  }

  /** Reading a numeral back gives the number it was written from. */
  lemma {:induction false} NumeralValue(n: nat)
    ensures DigitsValue(Numeral(n)) == n
  {
    if n >= 10 {
      var s := Numeral(n);
      assert s[..|s| - 1] == Numeral(n / 10);
      NumeralValue(n / 10);
    }
  }

  /** Leading zeros do not change the value of a numeral. */
  lemma {:induction false} LeadingZeroValue(s: string)
    requires AllDigits(s)
    ensures DigitsValue("0" + s) == DigitsValue(s)
  {
    if s != [] {
      var t := "0" + s;
      assert t[..|t| - 1] == "0" + s[..|s| - 1];
      LeadingZeroValue(s[..|s| - 1]);
    }
  }

  /** The float conversion, restricted to a non-empty run of decimal digits. */
  function ParseNumeral(s: string): (r: Option<nat>)
    ensures r.Some? <==> s != [] && AllDigits(s)
  {
    if s != [] && AllDigits(s) then Some(DigitsValue(s)) else None
  }

  // ------------------------------------------------------------ clean_price

  /** `clean_price`: remove every ' ', then every '$', then convert; `None` where the conversion raises. */
  function CleanPrice(price: string): (r: Option<nat>)
    ensures r.Some? <==>
      (exists k :: 0 <= k < |price| && IsDigit(price[k]))
      && (forall k :: 0 <= k < |price| ==> IsDigit(price[k]) || price[k] == ' ' || price[k] == '$')
  {
    var noSpaces := RemoveAll(price, " ");
    var bare := RemoveAll(noSpaces, "$");
    BareNonEmpty(price);
    BareAllDigits(price);
    ParseNumeral(bare)
  }

  /** Something is left after removing spaces and dollar signs exactly when the price has another character. */
  lemma BareNonEmpty(price: string)
    ensures RemoveAll(RemoveAll(price, " "), "$") != []
      <==> exists k :: 0 <= k < |price| && price[k] != ' ' && price[k] != '$'
  {
    var noSpaces := RemoveAll(price, " ");
    var bare := RemoveAll(noSpaces, "$");
    RemoveCharMembers(price, ' ');
    RemoveCharMembers(noSpaces, '$');
    if bare != [] {
      assert bare[0] in bare;
    } else {
      forall k | 0 <= k < |price|
        ensures price[k] == ' ' || price[k] == '$'
      {
        assert price[k] in price;
      }
    }
  }

  /** What is left is all digits exactly when the price has nothing but digits, spaces and dollar signs. */
  lemma BareAllDigits(price: string)
    ensures AllDigits(RemoveAll(RemoveAll(price, " "), "$"))
      <==> forall c :: c in price ==> IsDigit(c) || c == ' ' || c == '$'
  {
    var noSpaces := RemoveAll(price, " ");
    var bare := RemoveAll(noSpaces, "$");
    RemoveCharMembers(price, ' ');
    RemoveCharMembers(noSpaces, '$');
    if AllDigits(bare) {
      forall c | c in price
        ensures IsDigit(c) || c == ' ' || c == '$'
      {
        if c != ' ' && c != '$' {
          assert c in bare;
        }
      }
    }
  }

  /** `s.replace(c, "")` keeps exactly the characters other than `c`. */
  lemma {:induction false} RemoveCharMembers(s: string, c: char)
    ensures forall x :: x in RemoveAll(s, [c]) <==> x in s && x != c
  {
    if s != [] {
      RemoveCharMembers(s[1..], c);
      assert StartsWith(s, [c]) <==> s[0] == c;
      assert s == [s[0]] + s[1..];
    }
  }

  /** The listing's own price format: "45 000 $" is 45000. */
  lemma CleanPriceExample()
    ensures CleanPrice("45 000 $") == Some(45000)
  {
    PriceExampleStripped();
    NumeralValue(45000);
    NumeralExample();
  }

  lemma NumeralExample()
    ensures Numeral(45000) == "45000"
  {
    assert Numeral(4) == "4";
    assert Numeral(45) == "45";
    assert Numeral(450) == "450";
    assert Numeral(4500) == "4500";
  }

  lemma PriceExampleStripped()
    ensures RemoveAll(RemoveAll("45 000 $", " "), "$") == "45000"
  {
    assert "45 000 $" == "45" + " " + "000" + " $";
    GroupedPriceStripped("45", "000");
    assert "45" + "000" == "45000";
  }

  /** A price written as two digit groups and a trailing " $" loses exactly its space and dollar sign. */
  lemma GroupedPriceStripped(a: string, b: string)
    requires AllDigits(a) && AllDigits(b)
    ensures RemoveAll(RemoveAll(a + " " + b + " $", " "), "$") == a + b
  {
    assert a + " " + b + " $" == a + (" " + (b + " $"));
    RemoveCharConcat(a, " " + (b + " $"), ' ');
    RemoveCharAbsent(a, ' ');
    RemoveAllPrefix(" ", b + " $");
    NumeralSuffixRemoved(b);
    assert RemoveAll(a + " " + b + " $", " ") == a + (b + "$");
    RemoveCharConcat(a, b + "$", '$');
    RemoveCharAbsent(a, '$');
  }

  /** `replace(c, "")` works piecewise. */
  lemma {:induction false} RemoveCharConcat(a: string, b: string, c: char)
    ensures RemoveAll(a + b, [c]) == RemoveAll(a, [c]) + RemoveAll(b, [c])
  {
    if a != [] {
      assert (a + b)[1..] == a[1..] + b;
      assert StartsWith(a + b, [c]) <==> a[0] == c;
      assert StartsWith(a, [c]) <==> a[0] == c;
      RemoveCharConcat(a[1..], b, c);
    } else {
      assert a + b == b;
    }
  }

  lemma {:induction false} RemoveCharAbsent(s: string, c: char)
    requires c !in s
    ensures RemoveAll(s, [c]) == s
  {
    if s != [] {
      assert s[0] in s && s[..1] == [s[0]];
      assert !StartsWith(s, [c]);
      RemoveCharAbsent(s[1..], c);
      assert s == [s[0]] + s[1..];
    }
  }

  lemma RemoveCharSelf(c: char)
    ensures RemoveAll([c], [c]) == []
  {
    assert StartsWith([c], [c]);
    assert [c][1..] == [];
  }

  /** A plain numeral, followed by a space and a dollar sign, reads back as its number. */
  lemma CleanPriceRoundTrip(n: nat)
    ensures CleanPrice(Numeral(n) + " $") == Some(n)
  {
    var s := Numeral(n);
    NumeralSuffixRemoved(s);
    NumeralValue(n);
  }

  lemma NumeralSuffixRemoved(s: string)
    requires AllDigits(s)
    ensures RemoveAll(s + " $", " ") == s + "$"
    ensures RemoveAll(s + "$", "$") == s
  {
    assert s + " $" == s + " " + "$";
    RemoveCharConcat(s + " ", "$", ' ');
    RemoveCharConcat(s, " ", ' ');
    RemoveCharAbsent(s, ' ');
    RemoveCharAbsent("$", ' ');
    RemoveCharSelf(' ');
    assert s + [] == s;
    RemoveCharConcat(s, "$", '$');
    RemoveCharAbsent(s, '$');
    RemoveCharSelf('$');
  }

  // ------------------------------------------------------------ extract_total_size

  /** Length of the maximal leading run of digits (what `\d+` matches at the start). */
  function DigitPrefixLen(s: string): (n: nat)
    ensures n <= |s| && AllDigits(s[..n])
    ensures n == |s| || !IsDigit(s[n])
  {
    if s == [] || !IsDigit(s[0]) then 0
    else
      var m := DigitPrefixLen(s[1..]);
      assert s[..m + 1] == [s[0]] + s[1..][..m];
      m + 1
  }

  /** `extract_total_size`: the number the string starts with, or `None` when it does not start with a digit. */
  function ExtractTotalSize(size: string): (r: Option<nat>)
    ensures r.None? <==> size == [] || !IsDigit(size[0])
  {
    var n := DigitPrefixLen(size);
    if n == 0 then None else Some(DigitsValue(size[..n]))
  }

  /** A numeral followed by anything that does not continue it reads back as its number. */
  lemma ExtractTotalSizeRoundTrip(n: nat, rest: string)
    requires rest == [] || !IsDigit(rest[0])
    ensures ExtractTotalSize(Numeral(n) + rest) == Some(n)
  {
    var s := Numeral(n);
    DigitPrefixOfNumeral(s, rest);
    assert (s + rest)[..|s|] == s;
    NumeralValue(n);
  }

  lemma {:induction false} DigitPrefixOfNumeral(s: string, rest: string)
    requires AllDigits(s)
    requires rest == [] || !IsDigit(rest[0])
    ensures DigitPrefixLen(s + rest) == |s|
  {
    if s != [] {
      assert (s + rest)[1..] == s[1..] + rest;
      DigitPrefixOfNumeral(s[1..], rest);
    }
  }

  /** The listing's own size format: "45 м²" is 45. */
  lemma ExtractTotalSizeExample()
    ensures ExtractTotalSize("45 м²") == Some(45)
  {
    ExtractTotalSizeRoundTrip(45, " м²");
    assert Numeral(45) == "45";
    assert "45" + " м²" == "45 м²";
  }

  // ------------------------------------------------------------ categorize

  /** `categorize` with the two quantile thresholds as parameters. */
  function Categorize(pricePerSqm: real, cheap: real, expensive: real): (category: string)
    ensures category == "Cheap" || category == "Moderate" || category == "Expensive"
    ensures category == "Cheap" <==> pricePerSqm <= cheap
    ensures category == "Moderate" <==> cheap < pricePerSqm <= expensive
    ensures category == "Expensive" <==> cheap < pricePerSqm && expensive < pricePerSqm
  {
    if pricePerSqm <= cheap then "Cheap"
    else if pricePerSqm <= expensive then "Moderate"
    else "Expensive"
  }

  /** Labels from cheapest to most expensive. */
  function Rank(category: string): nat {
    if category == "Cheap" then 0 else if category == "Moderate" then 1 else 2
  }

  /** With ordered thresholds (the 0.33 and 0.67 quantiles), a larger price never gets a cheaper label. */
  lemma CategorizeMonotone(p: real, q: real, cheap: real, expensive: real)
    requires cheap <= expensive && p <= q
    ensures Rank(Categorize(p, cheap, expensive)) <= Rank(Categorize(q, cheap, expensive))
  {
  }
}
