/** Printing and parsing lengths of time. */
module Durations {
  import opened Wrappers
  import opened Text

  const DAY_MINUTES: nat := 1440
  const U32_MAX: nat := 4_294_967_295

  function Part(n: nat, suffix: char): string { if n == 0 then "" else Digits(n) + [suffix] }

  /** `2h`, `45m`, `1h30m`, and past a day `1d`, `2d3h`, `1d30m`. */
  function DurationText(minutes: nat): string {
    TextOf(minutes / DAY_MINUTES, minutes % DAY_MINUTES / 60, minutes % 60)
  }

  function TextOf(d: nat, h: nat, m: nat): string {
    var s := Part(d, 'd') + Part(h, 'h');
    if m > 0 || s == "" then s + Digits(m) + "m" else s
  }

  method FormatDuration(minutes: nat) returns (s: string)
    ensures s == DurationText(minutes)
  {
    var d, h, m := minutes / DAY_MINUTES, minutes % DAY_MINUTES / 60, minutes % 60;
    s := "";
    if d > 0 {
      s := s + (Digits(d) + "d");
    }
    if h > 0 {
      s := s + (Digits(h) + "h");
    }
    assert s == Part(d, 'd') + Part(h, 'h');
    if m > 0 || s == "" {
      s := s + Digits(m) + "m";
    }
  }

  // ---- parsing ----

  predicate IsSpace(c: char) { c == ' ' || '\t' <= c <= '\r' }

  function Squeeze(raw: string): string {
    if raw == "" then ""
    else (if IsSpace(raw[0]) then "" else [raw[0]]) + Squeeze(raw[1..])
  }

  /** A 32-bit number: digits, after at most one plus sign. */
  function ParseU32(s: string): Option<nat> {
    var t := if s != "" && s[0] == '+' then s[1..] else s;
    if t == "" || !AllDigits(t) || U32_MAX < Number(t) then None else Some(Number(t))
  }

  /** What is before and after the first `c`. */
  function SplitOnce(s: string, c: char): Option<(string, string)> {
    if s == "" then None
    else if s[0] == c then Some(("", s[1..]))
    else
      var rest := SplitOnce(s[1..], c);
      if rest == None then None else Some(([s[0]] + rest.value.0, rest.value.1))
  }

  /** Take a count of `c`s off the front: what it is, and what follows. */
  function Take(s: string, c: char): Option<(nat, string)> {
    var split := SplitOnce(s, c);
    if split == None then Some((0, s))
    else
      var n := ParseU32(split.value.0);
      if n == None then None else Some((n.value, split.value.1))
  }

  function Checked(n: nat): Option<nat> { if n <= U32_MAX then Some(n) else None }

  /** Plain minutes, or days, hours and minutes in that order. */
  function DurationOf(raw: string): Option<nat> {
    var s := Squeeze(raw);
    if s == "" then None
    else if AllDigits(s) then ParseU32(s)
    else
      var d := Take(s, 'd');
      if d == None then None
      else
        var h := Take(d.value.1, 'h');
        if h == None then None else Finish(s, d.value.0, h.value.0, h.value.1)
  }

  /** The minutes that are left, and the sum, unless something else is left
      or nothing was said. */
  function Finish(s: string, d: nat, h: nat, rest: string): Option<nat> {
    var last := rest != "" && rest[|rest| - 1] == 'm';
    var m := if last then ParseU32(rest[..|rest| - 1]) else Some(0);
    if m == None || (!last && rest != "") then None
    else if d == 0 && h == 0 && m.value == 0 && 'd' !in s && 'h' !in s then None
    else Total(d, h, m.value)
  }

  function Total(d: nat, h: nat, m: nat): Option<nat> {
    if U32_MAX < d * DAY_MINUTES || U32_MAX < h * 60 || U32_MAX < d * DAY_MINUTES + h * 60 then None
    else Checked(d * DAY_MINUTES + h * 60 + m)
  }

  method ParseDuration(raw: string) returns (minutes: Option<nat>)
    ensures minutes == DurationOf(raw)
  {
    var s := Squeeze(raw);
    if s == "" {
      return None;
    }
    if AllDigits(s) {
      return ParseU32(s);
    }
    var days := TakeCount(s, 'd');
    if days == None {
      return None;
    }
    var hours := TakeCount(days.value.1, 'h');
    if hours == None {
      return None;
    }
    minutes := FinishParse(s, days.value.0, hours.value.0, hours.value.1);
  }

  method TakeCount(s: string, c: char) returns (r: Option<(nat, string)>)
    ensures r == Take(s, c)
  {
    var split := SplitOnce(s, c);
    if split == None {
      return Some((0, s));
    }
    var n := ParseU32(split.value.0);
    if n == None {
      return None;
    }
    r := Some((n.value, split.value.1));
  }

  method FinishParse(s: string, days: nat, hours: nat, tail: string) returns (minutes: Option<nat>)
    ensures minutes == Finish(s, days, hours, tail)
  {
    var rest, mins := tail, 0;
    if rest != "" && rest[|rest| - 1] == 'm' {
      var n := ParseU32(rest[..|rest| - 1]);
      if n == None {
        return None;
      }
      mins, rest := n.value, "";
    }
    if rest != "" || (days == 0 && hours == 0 && mins == 0 && 'd' !in s && 'h' !in s) {
      return None;
    }
    minutes := Total(days, hours, mins);
  }

  // ---- what is printed is what is read ----

  predicate Plain(s: string) { forall i :: 0 <= i < |s| ==> !IsSpace(s[i]) }

  lemma {:induction false} SqueezePlain(s: string)
    requires Plain(s)
    ensures Squeeze(s) == s
  {
    if s != "" {
      SqueezePlain(s[1..]);
    }
  }

  lemma {:induction false} SplitAt(a: string, c: char, b: string)
    requires c !in a
    ensures SplitOnce(a + [c] + b, c) == Some((a, b))
  {
    var s := a + [c] + b;
    if a == "" {
      assert s[1..] == b;
    } else {
      assert s[1..] == a[1..] + [c] + b;
      SplitAt(a[1..], c, b);
      assert [a[0]] + a[1..] == a;
    }
  }

  lemma {:induction false} SplitNowhere(s: string, c: char)
    requires c !in s
    ensures SplitOnce(s, c) == None
  {
    if s != "" {
      SplitNowhere(s[1..], c);
    }
  }

  lemma ReadDigits(n: nat)
    requires n <= U32_MAX
    ensures ParseU32(Digits(n)) == Some(n)
    ensures forall c :: c in Digits(n) ==> IsDigit(c)
  {
    NumberOfDigits(n);
  }

  /** A printed part is taken off again, whatever follows without its letter. */
  lemma TakePart(n: nat, c: char, tail: string)
    requires n <= U32_MAX && !IsDigit(c) && c !in tail
    ensures Take(Part(n, c) + tail, c) == Some((n, tail))
  {
    if n == 0 {
      assert Part(n, c) + tail == tail;
      SplitNowhere(tail, c);
    } else {
      ReadDigits(n);
      SplitAt(Digits(n), c, tail);
      assert Digits(n) + [c] + tail == Part(n, c) + tail;
    }
  }

  function Joined(d: nat, h: nat, m: nat): string {
    Part(d, 'd') + (Part(h, 'h') + Part(m, 'm'))
  }

  lemma TextJoined(d: nat, h: nat, m: nat)
    requires d > 0 || h > 0 || m > 0
    ensures TextOf(d, h, m) == Joined(d, h, m)
  {
    var s := Part(d, 'd') + Part(h, 'h');
    NoPart(d, 'd');
    NoPart(h, 'h');
    if m > 0 {
      assert s + Digits(m) + "m" == Part(d, 'd') + (Part(h, 'h') + (Digits(m) + "m"));
    } else {
      assert s == Part(d, 'd') + (Part(h, 'h') + "");
      assert |s| == |Part(d, 'd')| + |Part(h, 'h')| > 0;
    }
  }

  lemma MinutesSplit(minutes: nat)
    ensures minutes == minutes / DAY_MINUTES * DAY_MINUTES + minutes % DAY_MINUTES / 60 * 60 + minutes % 60
  {
    assert minutes == minutes / DAY_MINUTES * DAY_MINUTES + minutes % DAY_MINUTES;
    assert minutes % DAY_MINUTES % 60 == minutes % 60;
  }

  lemma NoPart(n: nat, c: char)
    ensures Part(n, c) == "" <==> n == 0
  {}

  lemma PartChars(n: nat, c: char)
    ensures forall x :: x in Part(n, c) ==> IsDigit(x) || x == c
    ensures n > 0 ==> c in Part(n, c)
  {
    if n > 0 {
      assert (Digits(n) + [c])[|Digits(n)|] == c;
      assert forall x :: x in Digits(n) ==> IsDigit(x);
    }
  }

  /** The parts are taken off one by one. */
  lemma JoinedRead(d: nat, h: nat, m: nat)
    requires (d > 0 || h > 0 || m > 0) && d <= U32_MAX && h <= U32_MAX && m <= U32_MAX
    ensures DurationOf(Joined(d, h, m)) == Total(d, h, m)
  {
    var s := Joined(d, h, m);
    LettersOf(d, h, m);
    SqueezePlain(s);
    TakePart(d, 'd', Part(h, 'h') + Part(m, 'm'));
    TakePart(h, 'h', Part(m, 'm'));
    FinishRead(s, d, h, m);
  }

  lemma FinishRead(s: string, d: nat, h: nat, m: nat)
    requires m <= U32_MAX
    requires (d > 0 ==> 'd' in s) && (h > 0 ==> 'h' in s) && (d > 0 || h > 0 || m > 0)
    ensures Finish(s, d, h, Part(m, 'm')) == Total(d, h, m)
  {
    if m > 0 {
      ReadDigits(m);
      assert Part(m, 'm')[..|Part(m, 'm')| - 1] == Digits(m);
    }
  }

  /** Whatever is printed for a positive length is read back as that length. */
  lemma DurationRoundTrip(minutes: nat)
    requires 0 < minutes <= U32_MAX
    ensures DurationOf(DurationText(minutes)) == Some(minutes)
  {
    var d, h, m := minutes / DAY_MINUTES, minutes % DAY_MINUTES / 60, minutes % 60;
    TextJoined(d, h, m);
    JoinedRead(d, h, m);
    TotalIs(minutes);
  }

  lemma TotalIs(minutes: nat)
    requires minutes <= U32_MAX
    ensures Total(minutes / DAY_MINUTES, minutes % DAY_MINUTES / 60, minutes % 60) == Some(minutes)
  {
    MinutesSplit(minutes);
  }

  /** The letters in the printed form, and that there is one. */
  lemma LettersOf(d: nat, h: nat, m: nat)
    requires d > 0 || h > 0 || m > 0
    ensures var s := Joined(d, h, m);
            && s != "" && Plain(s) && !AllDigits(s)
            && (d > 0 ==> 'd' in s) && (h > 0 ==> 'h' in s)
    ensures 'd' !in Part(h, 'h') + Part(m, 'm') && 'h' !in Part(m, 'm')
  {
    PartChars(d, 'd');
    PartChars(h, 'h');
    PartChars(m, 'm');
    var s := Joined(d, h, m);
    assert forall x :: x in s ==> x in Part(d, 'd') || x in Part(h, 'h') || x in Part(m, 'm');
    assert forall x :: x in s ==> IsDigit(x) || x == 'd' || x == 'h' || x == 'm';
    forall i | 0 <= i < |s| ensures !IsSpace(s[i]) {
      assert s[i] in s;
    }
    var c := if d > 0 then 'd' else if h > 0 then 'h' else 'm';
    assert c in s;
    HasLetter(s, c);
  }

  lemma HasLetter(s: string, c: char)
    requires c in s && !IsDigit(c)
    ensures !AllDigits(s)
  {
    var i :| 0 <= i < |s| && s[i] == c;
    assert !IsDigit(s[i]);
  }

  /** Zero prints as `0m`, which is refused; so a printed length reads back
      exactly when it is not zero. */
  lemma ReadsBackUnlessZero(minutes: nat)
    requires minutes <= U32_MAX
    ensures DurationOf(DurationText(minutes)) == (if minutes == 0 then None else Some(minutes))
  {
    if minutes == 0 {
      assert Digits(0) == "0";
      assert DurationText(0) == "0m";
      SqueezePlain("0m");
      SplitNowhere("0m", 'd');
      SplitNowhere("0m", 'h');
      assert "0m"[..1] == Digits(0);
      ReadDigits(0);
    } else {
      DurationRoundTrip(minutes);
    }
  }

  // ---- the printed form, and exactly what is read ----

  lemma UnitsOf(d: nat, h: nat, m: nat)
    requires h < 24 && m < 60
    ensures var n := d * DAY_MINUTES + h * 60 + m;
            n / DAY_MINUTES == d && n % DAY_MINUTES / 60 == h && n % 60 == m
  {}

  /** Days, hours below a day's and minutes below an hour's, each only if there
      are some, and `0m` for none at all. */
  lemma TextIs(d: nat, h: nat, m: nat)
    requires h < 24 && m < 60
    ensures DurationText(d * DAY_MINUTES + h * 60 + m) ==
            (if d == 0 then "" else Digits(d) + "d") + (if h == 0 then "" else Digits(h) + "h")
            + (if m == 0 && 0 < d + h then "" else Digits(m) + "m")
  {
    UnitsOf(d, h, m);
    TextParts(d, h, m);
  }

  lemma TextParts(d: nat, h: nat, m: nat)
    ensures TextOf(d, h, m) ==
            (if d == 0 then "" else Digits(d) + "d") + (if h == 0 then "" else Digits(h) + "h")
            + (if m == 0 && 0 < d + h then "" else Digits(m) + "m")
  {
    NoPart(d, 'd');
    NoPart(h, 'h');
    var s := Part(d, 'd') + Part(h, 'h');
    assert s == "" <==> d == 0 && h == 0 by {
      assert |s| == |Part(d, 'd')| + |Part(h, 'h')|;
    }
    assert s + Digits(m) + "m" == s + (Digits(m) + "m");
  }

  lemma TensAndOnes(n: nat)
    requires 10 <= n < 100
    ensures Digits(n) == [DigitChar(n / 10), DigitChar(n % 10)]
  {}

  lemma Ninety()
    ensures DurationText(90) == "1h30m" && DurationOf("90") == Some(90)
  {
    TextIs(0, 1, 30);
    TensAndOnes(30);
    TensAndOnes(90);
    PlainMinutes(Digits(90));
    NumberOfDigits(90);
  }

  /** Digits alone are minutes, if they fit. */
  lemma PlainMinutes(s: string)
    requires s != "" && AllDigits(s)
    ensures DurationOf(s) == if Number(s) <= U32_MAX then Some(Number(s)) else None
  {
    SqueezePlain(s);
  }

  lemma {:induction false} SqueezeConcat(a: string, b: string)
    ensures Squeeze(a + b) == Squeeze(a) + Squeeze(b)
  {
    if a == "" {
      assert a + b == b;
    } else {
      assert (a + b)[1..] == a[1..] + b;
      SqueezeConcat(a[1..], b);
    }
  }

  /** Spaces make no difference anywhere. */
  lemma SpacesIgnored(a: string, c: char, b: string)
    requires IsSpace(c)
    ensures DurationOf(a + [c] + b) == DurationOf(a + b)
  {
    SqueezeConcat(a + [c], b);
    SqueezeConcat(a, [c]);
    SqueezeConcat(a, b);
    SqueezeSpace(c);
    SameSqueezed(a + [c] + b, a + b);
  }

  lemma SqueezeSpace(c: char)
    requires IsSpace(c)
    ensures Squeeze([c]) == ""
  {
    assert [c][1..] == "";
  }

  lemma SameSqueezed(a: string, b: string)
    requires Squeeze(a) == Squeeze(b)
    ensures DurationOf(a) == DurationOf(b)
  {}

  /** Nothing, or a count and its letter. */
  predicate IsPart(p: string, c: char) {
    p == "" || (p[|p| - 1] == c && ParseU32(p[..|p| - 1]).Some?)
  }

  function PartValue(p: string): nat {
    if p == "" || ParseU32(p[..|p| - 1]) == None then 0 else ParseU32(p[..|p| - 1]).value
  }

  lemma {:induction false} SplitSound(s: string, c: char)
    ensures var r := SplitOnce(s, c);
            if r == None then c !in s else s == r.value.0 + [c] + r.value.1 && c !in r.value.0
  {
    if s != "" && s[0] != c {
      SplitSound(s[1..], c);
      var rest := SplitOnce(s[1..], c);
      assert s == [s[0]] + s[1..];
      if rest.Some? {
        assert s == [s[0]] + rest.value.0 + [c] + rest.value.1;
      }
    }
  }

  lemma CountChars(t: string, c: char)
    requires ParseU32(t).Some? && !IsDigit(c) && c != '+'
    ensures c !in t
  {
    var u := if t != "" && t[0] == '+' then t[1..] else t;
    forall i | 0 <= i < |t| ensures t[i] != c {
      if u != t && 0 < i { assert t[i] == u[i - 1]; }
    }
  }

  /** What is taken off is a part, and there is none only if its letter is
      nowhere. */
  lemma TakeIsPart(s: string, c: char) returns (p: string)
    requires Take(s, c).Some? && !IsDigit(c) && c != '+'
    ensures IsPart(p, c) && s == p + Take(s, c).value.1 && PartValue(p) == Take(s, c).value.0
    ensures p == "" <==> c !in s
  {
    SplitSound(s, c);
    var split := SplitOnce(s, c);
    if split == None {
      p := "";
    } else {
      p := split.value.0 + [c];
      assert p[..|p| - 1] == split.value.0;
      assert s[|split.value.0|] == c;
    }
  }

  /** And a part in front is what is taken off. */
  lemma PartIsTaken(p: string, c: char, tail: string)
    requires IsPart(p, c) && !IsDigit(c) && c != '+' && c !in tail
    ensures Take(p + tail, c) == Some((PartValue(p), tail))
  {
    if p == "" {
      assert p + tail == tail;
      SplitNowhere(tail, c);
    } else {
      var count := p[..|p| - 1];
      CountChars(count, c);
      SplitAt(count, c, tail);
      assert p == count + [c];
    }
  }

  /** Days, hours and minutes in that order, each at most once. */
  ghost predicate Units(s: string, pd: string, ph: string, pm: string) {
    s == pd + ph + pm && IsPart(pd, 'd') && IsPart(ph, 'h') && IsPart(pm, 'm')
  }

  function Sum(pd: string, ph: string, pm: string): nat {
    PartValue(pd) * DAY_MINUTES + PartValue(ph) * 60 + PartValue(pm)
  }

  lemma TotalIsSum(d: nat, h: nat, m: nat)
    ensures var n := d * DAY_MINUTES + h * 60 + m; Total(d, h, m) == if n <= U32_MAX then Some(n) else None
  {}

  /** Of anything in that form: the sum, unless it is too large, or no days and
      no hours were said and the minutes are none. */
  lemma UnitsRead(raw: string, pd: string, ph: string, pm: string)
    requires Units(Squeeze(raw), pd, ph, pm) && !AllDigits(Squeeze(raw))
    ensures DurationOf(raw) ==
            if U32_MAX < Sum(pd, ph, pm) || (pd == "" && ph == "" && PartValue(pm) == 0) then None
            else Some(Sum(pd, ph, pm))
  {
    var s := Squeeze(raw);
    UnitLetters(s, pd, ph, pm);
    TakeUnits(s, pd, ph, pm);
    FinishUnits(s, pd, ph, pm);
    assert s != "";
  }

  lemma UnitLetters(s: string, pd: string, ph: string, pm: string)
    requires Units(s, pd, ph, pm)
    ensures 'd' !in ph + pm && 'h' !in pm && ('d' in s <==> pd != "") && ('h' in s <==> ph != "")
  {
    PartLetters(pd, 'd');
    PartLetters(ph, 'h');
    PartLetters(pm, 'm');
    assert forall c :: c in s <==> c in pd || c in ph || c in pm;
  }

  lemma TakeUnits(s: string, pd: string, ph: string, pm: string)
    requires Units(s, pd, ph, pm) && 'd' !in ph + pm && 'h' !in pm
    ensures Take(s, 'd') == Some((PartValue(pd), ph + pm)) && Take(ph + pm, 'h') == Some((PartValue(ph), pm))
  {
    assert s == pd + (ph + pm);
    PartIsTaken(pd, 'd', ph + pm);
    PartIsTaken(ph, 'h', pm);
  }

  lemma FinishUnits(s: string, pd: string, ph: string, pm: string)
    requires IsPart(pm, 'm') && ('d' in s <==> pd != "") && ('h' in s <==> ph != "")
    ensures Finish(s, PartValue(pd), PartValue(ph), pm) ==
            if U32_MAX < Sum(pd, ph, pm) || (pd == "" && ph == "" && PartValue(pm) == 0) then None
            else Some(Sum(pd, ph, pm))
  {
    TotalIsSum(PartValue(pd), PartValue(ph), PartValue(pm));
  }

  lemma PartLetters(p: string, c: char)
    requires IsPart(p, c) && !IsDigit(c)
    ensures p != "" ==> c in p
    ensures forall x :: x in p && !IsDigit(x) && x != '+' ==> x == c
  {
    if p != "" {
      var count := p[..|p| - 1];
      assert p == count + [c];
      forall x | x in p && !IsDigit(x) && x != '+' ensures x == c {
        CountChars(count, x);
      }
    }
  }

  /** And nothing else is read: of every string, what is read is digits alone
      or in that form. */
  lemma ReadIsUnits(raw: string) returns (pd: string, ph: string, pm: string)
    requires DurationOf(raw).Some? && !AllDigits(Squeeze(raw))
    ensures Units(Squeeze(raw), pd, ph, pm)
  {
    var s := Squeeze(raw);
    pd := TakeIsPart(s, 'd');
    var rest := Take(s, 'd').value.1;
    ph := TakeIsPart(rest, 'h');
    pm := Take(rest, 'h').value.1;
    assert s == pd + ph + pm;
  }
}
