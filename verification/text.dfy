/** Strings as the program compares, prints and reads them. */
module Text {
  import opened Wrappers

  // ---- the order of strings ----

  predicate Less(a: string, b: string) {
    if b == "" then false
    else if a == "" then true
    else a[0] < b[0] || (a[0] == b[0] && Less(a[1..], b[1..]))
  }

  lemma {:induction false} LessIsTotal(a: string, b: string)
    ensures a == b || Less(a, b) || Less(b, a)
    ensures !(Less(a, b) && Less(b, a)) && !Less(a, a)
  {
    if a != "" && b != "" {
      LessIsTotal(a[1..], b[1..]);
      LessIsTotal(a[1..], a[1..]);
      assert a[0] == b[0] && a[1..] == b[1..] ==> a == [a[0]] + a[1..] == b;
    } else if a != "" {
      LessIsTotal(a[1..], a[1..]);
    }
  }

  lemma {:induction false} LessIsTransitive(a: string, b: string, c: string)
    requires Less(a, b) && Less(b, c)
    ensures Less(a, c)
  {
    if a != "" && a[0] == b[0] == c[0] {
      LessIsTransitive(a[1..], b[1..], c[1..]);
    }
  }

  /** They agree up to `k`, where `a` ends or has the lower character. */
  predicate LowerAt(a: string, b: string, k: nat) {
    k <= |a| && k < |b| && a[..k] == b[..k] && (k == |a| || a[k] < b[k])
  }

  /** The order of strings is that of their first difference. */
  lemma {:induction false} LessIsFirstDifference(a: string, b: string)
    ensures Less(a, b) <==> exists k: nat :: LowerAt(a, b, k)
  {
    if a == "" || b == "" {
      assert b != "" ==> LowerAt("", b, 0);
    } else {
      var c, d := a[1..], b[1..];
      LessIsFirstDifference(c, d);
      if Less(a, b) {
        if a[0] < b[0] {
          assert LowerAt(a, b, 0);
        } else {
          var k: nat :| LowerAt(c, d, k);
          assert a[..k + 1] == [a[0]] + c[..k] && b[..k + 1] == [b[0]] + d[..k];
          assert LowerAt(a, b, k + 1);
        }
      }
      if k: nat :| LowerAt(a, b, k) {
        if 0 < k {
          assert a[..k][0] == b[..k][0];
          assert c[..k - 1] == a[..k][1..] && d[..k - 1] == b[..k][1..];
          assert LowerAt(c, d, k - 1);
        }
      }
    }
  }

  // ---- decimal digits ----

  predicate IsDigit(c: char) { '0' <= c <= '9' }

  predicate AllDigits(s: string) { forall i :: 0 <= i < |s| ==> IsDigit(s[i]) }

  function DigitChar(n: nat): (c: char)
    requires n < 10
    ensures IsDigit(c) && c as int - '0' as int == n
  {
    ('0' as int + n) as char
  }

  function Digits(n: nat): (s: string)
    ensures s != "" && AllDigits(s)
  {
    if n < 10 then [DigitChar(n)] else Digits(n / 10) + [DigitChar(n % 10)]
  }

  /** The number a string of digits reads as. */
  function Number(s: string): nat
    requires AllDigits(s)
  {
    if s == "" then 0 else Number(s[..|s| - 1]) * 10 + (s[|s| - 1] as int - '0' as int)
  }

  lemma {:induction false} NumberOfDigits(n: nat)
    ensures Number(Digits(n)) == n
  {
    if 10 <= n {
      NumberOfDigits(n / 10);
      var s := Digits(n);
      assert s[..|s| - 1] == Digits(n / 10);
    }
  }

  /** Zero-padded to at least `width`. */
  function Pad(n: nat, width: nat): (s: string)
    ensures AllDigits(s)
  {
    Zeros(width, |Digits(n)|) + Digits(n)
  }

  function Zeros(width: nat, have: nat): (s: string)
    ensures AllDigits(s) && |s| == if width <= have then 0 else width - have
    decreases width
  {
    if width <= have then "" else Zeros(width - 1, have) + "0"
  }

  lemma {:induction false} LeadingZeros(z: string, s: string)
    requires AllDigits(z) && AllDigits(s) && forall i :: 0 <= i < |z| ==> z[i] == '0'
    ensures Number(z + s) == Number(s)
  {
    if s != "" {
      assert (z + s)[..|z + s| - 1] == z + s[..|s| - 1];
      LeadingZeros(z, s[..|s| - 1]);
    } else if z != "" {
      assert z + s == z;
      LeadingZeros(z[..|z| - 1], "");
      assert z[..|z| - 1] + "" == z[..|z| - 1];
    }
  }

  lemma {:induction false} ZerosAreZeros(width: nat, have: nat)
    ensures forall i :: 0 <= i < |Zeros(width, have)| ==> Zeros(width, have)[i] == '0'
    decreases width
  {
    if have < width {
      ZerosAreZeros(width - 1, have);
    }
  }

  lemma NumberOfPad(n: nat, width: nat)
    ensures Number(Pad(n, width)) == n
  {
    NumberOfDigits(n);
    ZerosAreZeros(width, |Digits(n)|);
    LeadingZeros(Zeros(width, |Digits(n)|), Digits(n));
  }

  lemma {:induction false} ZerosShift(width: nat, have: nat)
    ensures Zeros(width + 1, have + 1) == Zeros(width, have)
  {
    if have < width {
      ZerosShift(width - 1, have);
    }
  }

  /** Printing back what digits read as, at their width. */
  lemma {:induction false} PadOfNumber(s: string)
    requires s != "" && AllDigits(s)
    ensures Pad(Number(s), |s|) == s
  {
    var t := s[..|s| - 1];
    var d := s[|s| - 1] as int - '0' as int;
    assert s == t + [DigitChar(d)];
    if t == "" {
      assert Number(t) == 0;
    } else {
      PadOfNumber(t);
      PadMore(Number(t), |t|, d);
    }
  }

  /** One more digit on the right. */
  lemma PadMore(n: nat, width: nat, d: nat)
    requires d < 10 && 0 < width
    ensures Pad(n * 10 + d, width + 1) == Pad(n, width) + [DigitChar(d)]
  {
    if 0 < n {
      assert Digits(n * 10 + d) == Digits(n) + [DigitChar(d)];
      ZerosShift(width, |Digits(n)|);
    }
  }
}
