/** Positional parameters (`$1`, `$2`, ...) in SQL text, and a scanner that
reads back, in order, every placeholder a text contains. The scanner is the
independent yardstick against which the composers' numbering is judged. */
module Placeholders {
  import opened Decimal

  /** The marker for the `k`-th bound parameter. */
  function Placeholder(k: nat): (p: string)
    ensures |p| >= 2 && p[0] == '$'
    ensures AllDigits(p[1..])
  {
    "$" + NatToString(k)
  }

  /** The contiguous numbering `start, start + 1, ..., start + n - 1`. */
  function Upto(start: nat, n: nat): (r: seq<nat>)
    ensures |r| == n
    ensures forall i :: 0 <= i < n ==> r[i] == start + i
  {
    seq(n, i requires 0 <= i < n => start + i)
  }

  /** Extending the numbering by one more number. */
  lemma UptoSnoc(start: nat, n: nat)
    ensures Upto(start, n) + [start + n] == Upto(start, n + 1)
  {
  }

  /** Length of the longest all-digit prefix of `s`. */
  function DigitRun(s: string): (n: nat)
    ensures n <= |s|
    ensures AllDigits(s[..n])
    ensures n < |s| ==> !IsDigit(s[n])
    decreases |s|
  {
    if |s| == 0 || !IsDigit(s[0]) then 0 else 1 + DigitRun(s[1..])
  }

  /** The numbers of the placeholders in `s`, left to right: a `$` followed by
      a maximal run of at least one digit. */
  function Scan(s: string): seq<nat>
    decreases |s|
  {
    if |s| == 0 then []
    else if s[0] == '$' && DigitRun(s[1..]) > 0 then
      var n := DigitRun(s[1..]);
      assert s[1..n + 1] == s[1..][..n];
      [ParseDigits(s[1..n + 1])] + Scan(s[n + 1..])
    else Scan(s[1..])
  }

  /** Appending text that does not continue a digit run leaves the run alone. */
  lemma {:induction false} DigitRunAppend(a: string, b: string)
    requires |b| == 0 || !IsDigit(b[0])
    ensures DigitRun(a + b) == DigitRun(a)
    decreases |a|
  {
    if |a| > 0 && IsDigit(a[0]) {
      assert (a + b)[1..] == a[1..] + b;
      DigitRunAppend(a[1..], b);
    }
  }

  /** A numeral's digit run is the whole numeral. */
  lemma {:induction false} DigitRunAll(s: string)
    requires AllDigits(s)
    ensures DigitRun(s) == |s|
    decreases |s|
  {
    if |s| > 0 {
      DigitRunAll(s[1..]);
    }
  }

  /** A text opening with a marker scans to the marker's number followed by
      the placeholders of the text after its digits. */
  lemma ScanMarkerFront(digits: string, rest: string)
    requires |digits| > 0 && AllDigits(digits)
    requires |rest| == 0 || !IsDigit(rest[0])
    ensures Scan("$" + digits + rest) == [ParseDigits(digits)] + Scan(rest)
  {
    var s := "$" + digits + rest;
    assert s[1..] == digits + rest;
    DigitRunAppend(digits, rest);
    DigitRunAll(digits);
    assert s[1..|digits| + 1] == digits;
    assert s[|digits| + 1..] == rest;
  }

  /** Scanning distributes over concatenation unless the second part starts
      with a digit (which could extend a placeholder at the end of the first). */
  lemma {:induction false} ScanAppend(a: string, b: string)
    requires |b| == 0 || !IsDigit(b[0])
    ensures Scan(a + b) == Scan(a) + Scan(b)
    decreases |a|, 1
  {
    if |a| == 0 {
      assert a + b == b;
    } else if a[0] == '$' && DigitRun(a[1..]) > 0 {
      var n := DigitRun(a[1..]);
      var digits := a[1..n + 1];
      var rest := a[n + 1..];
      assert digits == a[1..][..n];
      assert |rest| == 0 || rest[0] == a[1..][n];
      assert a == "$" + digits + rest;
      ScanAppendMarker(digits, rest, b);
    } else {
      ScanAppendPlain(a, b);
    }
  }

  /** `ScanAppend` when the first part opens with a marker. */
  lemma {:induction false} ScanAppendMarker(digits: string, rest: string, b: string)
    requires |digits| > 0 && AllDigits(digits)
    requires |rest| == 0 || !IsDigit(rest[0])
    requires |b| == 0 || !IsDigit(b[0])
    ensures Scan("$" + digits + rest + b) == Scan("$" + digits + rest) + Scan(b)
    decreases 1 + |digits| + |rest|, 0
  {
    var d := ParseDigits(digits);
    var whole := "$" + digits + rest;
    calc {
      Scan(whole + b);
      { assert whole + b == "$" + digits + (rest + b);
        ScanMarkerFront(digits, rest + b); }
      [d] + Scan(rest + b);
      { ScanAppend(rest, b); }
      [d] + (Scan(rest) + Scan(b));
      ([d] + Scan(rest)) + Scan(b);
      { ScanMarkerFront(digits, rest); }
      Scan(whole) + Scan(b);
    }
  }

  /** `ScanAppend` when `a` does not open with a marker. */
  lemma {:induction false} ScanAppendPlain(a: string, b: string)
    requires |b| == 0 || !IsDigit(b[0])
    requires |a| > 0 && !(a[0] == '$' && DigitRun(a[1..]) > 0)
    ensures Scan(a + b) == Scan(a) + Scan(b)
    decreases |a|, 0
  {
    assert Scan(a + b) == Scan(a[1..] + b) by {
      assert (a + b)[1..] == a[1..] + b;
      DigitRunAppend(a[1..], b);
    }
    ScanAppend(a[1..], b);
  }

  /** Text without a `$` holds no placeholder. */
  lemma {:induction false} ScanNoDollar(s: string)
    requires '$' !in s
    ensures Scan(s) == []
    decreases |s|
  {
    if |s| > 0 {
      ScanNoDollar(s[1..]);
    }
  }

  /** A single marker scans to its own number. */
  lemma ScanPlaceholder(k: nat)
    ensures Scan(Placeholder(k)) == [k]
  {
    var d := NatToString(k);
    assert Placeholder(k) == "$" + d + "";
    ScanMarkerFront(d, "");
    ParseNatToString(k);
  }

  /** Scanning is blind to `$`-free text that does not continue a number. */
  lemma ScanFixedAppend(a: string, fixed: string)
    requires '$' !in fixed
    requires |fixed| == 0 || !IsDigit(fixed[0])
    ensures Scan(a + fixed) == Scan(a)
  {
    ScanAppend(a, fixed);
    ScanNoDollar(fixed);
    assert Scan(a) + [] == Scan(a);
  }

  /** A marker between two `$`-free texts is their only placeholder. */
  lemma ScanSingleMarker(before: string, k: nat, after: string)
    requires '$' !in before && '$' !in after
    requires |after| == 0 || !IsDigit(after[0])
    ensures Scan(before + Placeholder(k) + after) == [k]
  {
    ScanNoDollar(before);
    ScanNoDollar(after);
    ScanAround(before, k, after);
  }

  /** Three-part form of `ScanAppend` for a marker between two fixed texts. */
  lemma ScanAround(before: string, k: nat, after: string)
    requires |after| == 0 || !IsDigit(after[0])
    ensures Scan(before + Placeholder(k) + after) == Scan(before) + [k] + Scan(after)
  {
    ScanAppend(before + Placeholder(k), after);
    ScanAppend(before, Placeholder(k));
    ScanPlaceholder(k);
  }
}
