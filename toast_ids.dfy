/** Toast identifiers: the module-level counter `toastCount` and `generateId`,
    which hands out the counter's current value as a decimal string and then
    increments it. */
module ToastIds {

  /** The decimal digit character for `d`. */
  function DigitChar(d: nat): (c: char)
    requires d < 10
    ensures '0' <= c <= '9'
    ensures c as int - '0' as int == d
  {
    "0123456789"[d]
  }

  /** The value of a decimal digit character (0 for any other character). */
  function DigitValue(c: char): nat
  {
    if '0' <= c <= '9' then c as int - '0' as int else 0
  }

  /** A string `Number.prototype.toString` produces for a natural number: at
      least one digit, only digits, and no leading zero except in "0" itself. */
  predicate IsCanonicalDecimal(s: string)
  {
    |s| >= 1
    && (forall i :: 0 <= i < |s| ==> '0' <= s[i] <= '9')
    && (s[0] == '0' ==> |s| == 1)
  }

  /** `n.toString()` for a natural number `n`. */
  function Decimal(n: nat): (r: string)
    ensures IsCanonicalDecimal(r)
    ensures r[0] == '0' ==> n == 0
  {
    if n < 10 then [DigitChar(n)] else Decimal(n / 10) + [DigitChar(n % 10)]
  }

  /** Reads a string of digits back as a number, most significant digit first. */
  function ParseDecimal(s: string): nat
  {
    if s == [] then 0 else 10 * ParseDecimal(s[..|s| - 1]) + DigitValue(s[|s| - 1])
  }

  /** Reading back the decimal string of `n` gives `n`. */
  lemma {:induction false} ParseDecimalOfDecimal(n: nat)
    ensures ParseDecimal(Decimal(n)) == n
  {
    if n >= 10 {
      var p := Decimal(n / 10);
      var s := p + [DigitChar(n % 10)];
      assert s[..|s| - 1] == p;
      ParseDecimalOfDecimal(n / 10);
    }
  }

  /** A canonical decimal string with a non-zero leading digit denotes a positive number. */
  lemma {:induction false} ParseDecimalPositive(s: string)
    requires IsCanonicalDecimal(s) && s[0] != '0'
    ensures ParseDecimal(s) > 0
  {
    if |s| > 1 {
      var p := s[..|s| - 1];
      assert p[0] == s[0];
      ParseDecimalPositive(p);
    }
  }

  /** Every canonical decimal string is the decimal string of the number it denotes. */
  lemma {:induction false} DecimalOfParseDecimal(s: string)
    requires IsCanonicalDecimal(s)
    ensures Decimal(ParseDecimal(s)) == s
  {
    var d := DigitValue(s[|s| - 1]);
    if |s| == 1 {
      assert ParseDecimal(s) == d;
      assert [DigitChar(d)] == s;
    } else {
      var p := s[..|s| - 1];
      assert p[0] == s[0];
      assert IsCanonicalDecimal(p);
      ParseDecimalPositive(p);
      DecimalOfParseDecimal(p);
      var n := ParseDecimal(s);
      assert n == 10 * ParseDecimal(p) + d && d < 10;
      assert n / 10 == ParseDecimal(p) && n % 10 == d;
      assert s == p + [s[|s| - 1]];
    }
  }

  /** Different counter values give different identifiers. */
  lemma DecimalInjective(a: nat, b: nat)
    ensures Decimal(a) == Decimal(b) <==> a == b
  {
    ParseDecimalOfDecimal(a);
    ParseDecimalOfDecimal(b);
  }

  /** `id` is one of the identifiers handed out by a counter that now stands at `count`. */
  predicate IssuedBefore(id: string, count: nat)
  {
    IsCanonicalDecimal(id) && ParseDecimal(id) < count
  }

  /** `IssuedBefore` holds exactly of the decimal strings of the numbers below the counter. */
  lemma IssuedBeforeIff(id: string, count: nat)
    ensures IssuedBefore(id, count) <==> exists k: nat :: k < count && Decimal(k) == id
  {
    if IssuedBefore(id, count) {
      DecimalOfParseDecimal(id);
    }
    if k: nat :| k < count && Decimal(k) == id {
      ParseDecimalOfDecimal(k);
    }
  }

  /** The identifier for counter value `count` is not among those issued before it,
      and is among those issued once the counter has moved past it. */
  lemma NextIdFresh(count: nat)
    ensures !IssuedBefore(Decimal(count), count)
    ensures IssuedBefore(Decimal(count), count + 1)
  {
  }

  /** The module-level `toastCount`. */
  class IdGenerator {
    var count: nat

    /** `let toastCount = 0`. */
    constructor ()
      ensures count == 0
    {
      count := 0;
    }

    /** `generateId`: `(toastCount++).toString()`. */
    method Next() returns (id: string)
      modifies this
      ensures id == Decimal(old(count))
      ensures count == old(count) + 1
    {
      id := Decimal(count);
      count := count + 1;
    }
  }
}
