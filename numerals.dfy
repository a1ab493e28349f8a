/**
 * Decimal text of integers, as Python's `str(n)` produces it, and the
 * thousands grouping of `'{:,}'.format(n)` with the commas replaced by
 * spaces. Shared by the number formatting helpers, the callback
 * arguments and the chat messages.
 */
module Numerals {
  import opened Wrappers

  predicate IsDigit(c: char) {
    '0' <= c <= '9'
  }

  predicate AllDigits(s: string) {
    forall i :: 0 <= i < |s| ==> IsDigit(s[i])
  }

  function DigitChar(d: nat): (c: char)
    requires d < 10
    ensures IsDigit(c) && c as int - '0' as int == d
  {
    "0123456789"[d]
  }

  function Pow10(k: nat): (p: nat)
    ensures p >= 1
  {
    if k == 0 then 1 else 10 * Pow10(k - 1)
  }

  /** Number of decimal digits of `n`; 0 has one digit. */
  function NumDigits(n: nat): (k: nat)
    ensures k >= 1
  {
    if n < 10 then 1 else 1 + NumDigits(n / 10)
  }

  /** The `k` with `10^(k-1) <= n < 10^k` is the digit count. */
  lemma {:induction false} NumDigitsFromBounds(n: nat, k: nat)
    requires 1 <= k
    requires Pow10(k - 1) <= n < Pow10(k)
    ensures NumDigits(n) == k
  {
    if k > 1 {
      NumDigitsFromBounds(n / 10, k - 1);
    }
  }

  /** `str(n)` for a natural number. */
  function NatToString(n: nat): (s: string)
    ensures |s| == NumDigits(n)
    ensures AllDigits(s)
    ensures s[0] != '0' || n == 0
  {
    if n < 10 then [DigitChar(n)] else NatToString(n / 10) + [DigitChar(n % 10)]
  }

  /** The value of a string of decimal digits. */
  function ParseNat(s: string): nat
    requires AllDigits(s)
  {
    if s == [] then 0 else 10 * ParseNat(s[..|s| - 1]) + (s[|s| - 1] as int - '0' as int)
  }

  /** Reading back the decimal text gives the number. */
  lemma {:induction false} ParseNatToString(n: nat)
    ensures ParseNat(NatToString(n)) == n
  {
    var s := NatToString(n);
    if n >= 10 {
      ParseNatToString(n / 10);
      assert s[..|s| - 1] == NatToString(n / 10);
    }
  }

  /** Two naturals with the same decimal text are equal. */
  lemma NatToStringInjective(m: nat, n: nat)
    requires NatToString(m) == NatToString(n)
    ensures m == n
  {
    ParseNatToString(m);
    ParseNatToString(n);
  }

  function Abs(n: int): nat {
    if n < 0 then -n else n
  }

  /** `str(n)` for any integer: a minus sign, then the digits of `|n|`. */
  function IntToString(n: int): (s: string)
    ensures |s| == NumDigits(Abs(n)) + (if n < 0 then 1 else 0)
    ensures n < 0 ==> s[0] == '-' && s[1..] == NatToString(-n)
    ensures n >= 0 ==> s == NatToString(n)
  {
    if n < 0 then "-" + NatToString(-n) else NatToString(n)
  }

  /** `int(s)` on a decimal text: an optional minus sign, then at least one digit. */
  function ParseInt(s: string): (r: Option<int>)
    ensures r.Some? <==> (s != [] && AllDigits(s)) || (|s| > 1 && s[0] == '-' && AllDigits(s[1..]))
  {
    if |s| > 1 && s[0] == '-' && AllDigits(s[1..]) then Some(-(ParseNat(s[1..]) as int))
    else if s != [] && AllDigits(s) then Some(ParseNat(s))
    else None
  }

  /** Reading back the decimal text of any integer gives the integer. */
  lemma ParseIntToString(n: int)
    ensures ParseInt(IntToString(n)) == Some(n)
  {
    var s := IntToString(n);
    if n < 0 {
      ParseNatToString(-n);
      assert !IsDigit(s[0]);
    } else {
      ParseNatToString(n);
    }
  }

  lemma DigitsHaveNoSpace(s: string)
    requires AllDigits(s)
    ensures ' ' !in s
  {
    forall i | 0 <= i < |s| ensures s[i] != ' ' {
      assert IsDigit(s[i]);
    }
  }

  /** `s` with a space before every group of three characters, counted from the right. */
  function GroupThousands(s: string): (r: string)
    decreases |s|
  {
    if |s| <= 3 then s else GroupThousands(s[..|s| - 3]) + " " + s[|s| - 3..]
  }

  function RemoveSpaces(s: string): (r: string)
    ensures ' ' !in r
    ensures |r| <= |s|
  {
    if s == [] then []
    else if s[|s| - 1] == ' ' then RemoveSpaces(s[..|s| - 1])
    else RemoveSpaces(s[..|s| - 1]) + [s[|s| - 1]]
  }

  lemma {:induction false} RemoveSpacesAppend(a: string, b: string)
    ensures RemoveSpaces(a + b) == RemoveSpaces(a) + RemoveSpaces(b)
    decreases |b|
  {
    if b == [] {
      assert a + b == a;
    } else {
      var b' := b[..|b| - 1];
      assert (a + b)[..|a + b| - 1] == a + b';
      RemoveSpacesAppend(a, b');
    }
  }

  lemma {:induction false} RemoveSpacesNoSpace(s: string)
    requires ' ' !in s
    ensures RemoveSpaces(s) == s
  {
    if s != [] {
      assert ' ' !in s[..|s| - 1];
      RemoveSpacesNoSpace(s[..|s| - 1]);
    }
  }

  /** Deleting the group separators gives back the digits. */
  lemma {:induction false} UngroupThousands(s: string)
    requires ' ' !in s
    ensures RemoveSpaces(GroupThousands(s)) == s
    decreases |s|
  {
    if |s| <= 3 {
      RemoveSpacesNoSpace(s);
    } else {
      var head, tail := s[..|s| - 3], s[|s| - 3..];
      assert ' ' !in head;
      assert ' ' !in tail;
      UngroupThousands(head);
      RemoveSpacesAppend(GroupThousands(head) + " ", tail);
      RemoveSpacesAppend(GroupThousands(head), " ");
      assert RemoveSpaces(" ") == [];
      RemoveSpacesNoSpace(tail);
      assert head + tail == s;
    }
  }

  lemma ShiftByFour(x: int)
    ensures (x + 4) % 4 == x % 4
  {
  }

  /**
   * Shape of the grouping of a non-empty string without spaces: one
   * space is added per full group of three after the first, and a
   * character is a space exactly when it is a multiple of four places
   * from the right end.
   */
  lemma {:induction false} GroupThousandsShape(s: string)
    requires |s| >= 1 && ' ' !in s
    ensures |GroupThousands(s)| == |s| + (|s| - 1) / 3
    ensures forall i :: 0 <= i < |GroupThousands(s)| ==>
      (GroupThousands(s)[i] == ' ' <==> (|GroupThousands(s)| - i) % 4 == 0)
    decreases |s|
  {
    var r := GroupThousands(s);
    if |s| > 3 {
      var head, tail := s[..|s| - 3], s[|s| - 3..];
      assert ' ' !in head;
      GroupThousandsShape(head);
      var g := GroupThousands(head);
      assert r == g + " " + tail;
      assert (|s| - 1) / 3 == (|head| - 1) / 3 + 1;
      forall i | 0 <= i < |r|
        ensures r[i] == ' ' <==> (|r| - i) % 4 == 0
      {
        if i < |g| {
          assert r[i] == g[i];
          ShiftByFour(|g| - i);
          assert |r| - i == (|g| - i) + 4;
        } else if i == |g| {
          assert |r| - i == 4;
        } else {
          assert r[i] == tail[i - |g| - 1];
          assert tail[i - |g| - 1] in s;
          assert 1 <= |r| - i <= 3;
        }
      }
    } else {
      forall i | 0 <= i < |r|
        ensures r[i] == ' ' <==> (|r| - i) % 4 == 0
      {
        assert r[i] in s;
      }
    }
  }
}
