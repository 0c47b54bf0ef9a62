/** The three regular expressions the runtime report searches job logs with,
    written out as the leftmost, greedy search Python's `re.search` performs,
    and `Decimal` on the text they capture.

      page/process marker   "<word> \[.*\] COMPLETE: Duration: ([0-9.]+) secs"
      total marker          "TOTAL TIME: ([0-9.]+)$"

    `.` matches any character but a newline, and `$` matches at the end of the
    line or just before a newline that ends it. */
module LogMarkers {
  import opened Common

  /** What a page or process marker opens with: "Job [", "OCR [", ... */
  function Opening(word: string): string
  {
    word + " ["
  }

  const CompleteText := "] COMPLETE: Duration: "
  const SecsText := " secs"
  const TotalText := "TOTAL TIME: "

  /** The character class `[0-9.]`. */
  predicate IsDecimalChar(c: char)
  {
    '0' <= c <= '9' || c == '.'
  }

  /** The longest run of `[0-9.]` that `s` starts with; greedy `[0-9.]+`
      takes all of it. */
  function RunLength(s: string): (n: nat)
    ensures n <= |s|
    ensures forall k :: 0 <= k < n ==> IsDecimalChar(s[k])
    ensures n < |s| ==> !IsDecimalChar(s[n])
  {
    if s == [] || !IsDecimalChar(s[0]) then 0 else 1 + RunLength(s[1..])
  }

  /** The literal `lit` occurs in `line` at position `i`. */
  predicate At(line: string, i: nat, lit: string)
  {
    i + |lit| <= |line| && line[i..i + |lit|] == lit
  }

  /** The text of the run of `[0-9.]` starting at `i`. */
  function RunAt(line: string, i: nat): (g: string)
    requires i <= |line|
    ensures forall k :: 0 <= k < |g| ==> IsDecimalChar(g[k])
  {
    line[i..i + RunLength(line[i..])]
  }

  /** `\] COMPLETE: Duration: ([0-9.]+) secs` matches at `q`. */
  predicate CompleteAt(line: string, q: nat)
  {
    && At(line, q, CompleteText)
    && var d := q + |CompleteText|;
       var n := RunLength(line[d..]);
       n > 0 && At(line, d + n, SecsText)
  }

  predicate NoNewline(line: string, lo: nat, hi: nat)
    requires lo <= hi <= |line|
  {
    forall k :: lo <= k < hi ==> line[k] != '\n'
  }

  /** The marker opening with `open` matches from `s`, its `.*` spanning
      `[s + |open|, q)` and the rest of the pattern matching at `q`. */
  predicate Completes(line: string, open: string, s: nat, q: nat)
  {
    && s + |open| <= q <= |line|
    && At(line, s, open)
    && NoNewline(line, s + |open|, q)
    && CompleteAt(line, q)
  }

  /** The end of the line from `i`: the first newline at or after `i`. */
  function LineEndFrom(line: string, i: nat): (e: nat)
    requires i <= |line|
    ensures i <= e <= |line| && NoNewline(line, i, e)
    ensures e < |line| ==> line[e] == '\n'
    decreases |line| - i
  {
    if i == |line| || line[i] == '\n' then i else LineEndFrom(line, i + 1)
  }

  /** The last position in `[lo, hi]` where the marker's rest matches: the
      span a greedy `.*` settles on. */
  function LastComplete(line: string, lo: nat, hi: nat): (r: Option<nat>)
    requires lo <= hi <= |line|
    ensures r.Some? ==> lo <= r.value <= hi && CompleteAt(line, r.value)
    ensures r.Some? ==> forall q :: r.value < q <= hi ==> !CompleteAt(line, q)
    ensures r.None? ==> forall q :: lo <= q <= hi ==> !CompleteAt(line, q)
    decreases hi - lo
  {
    if CompleteAt(line, hi) then Some(hi)
    else if hi == lo then None
    else LastComplete(line, lo, hi - 1)
  }

  /** `re.search` of the marker opening with `open`, trying starts from `s`
      on: the captured duration text of the first start that matches. */
  function MarkerFrom(line: string, open: string, s: nat): (r: Option<string>)
    requires |open| > 0 && s <= |line|
    ensures r.Some? ==> forall k :: 0 <= k < |r.value| ==> IsDecimalChar(r.value[k])
    decreases |line| - s
  {
    if s + |open| <= |line| && At(line, s, open) then
      var lo := s + |open|;
      match LastComplete(line, lo, LineEndFrom(line, lo))
      case Some(q) => Some(RunAt(line, q + |CompleteText|))
      case None => MarkerFrom(line, open, s + 1)
    else if s == |line| then None
    else MarkerFrom(line, open, s + 1)
  }

  function Marker(line: string, open: string): (r: Option<string>)
    requires |open| > 0
    ensures r.Some? ==> forall k :: 0 <= k < |r.value| ==> IsDecimalChar(r.value[k])
  {
    MarkerFrom(line, open, 0)
  }

  /** No match of the marker starts at `s`. */
  ghost predicate NoMatchAt(line: string, open: string, s: nat)
  {
    forall q: nat :: !Completes(line, open, s, q)
  }

  /** No match of the marker starts in `[a, b)`. */
  ghost predicate NoMatchBetween(line: string, open: string, a: nat, b: nat)
  {
    forall s: nat :: a <= s < b ==> NoMatchAt(line, open, s)
  }

  /** A match from `s` whose `.*` is as long as any match from `s` allows. */
  ghost predicate Longest(line: string, open: string, s: nat, q: nat)
  {
    Completes(line, open, s, q) && forall q': nat :: q < q' ==> !Completes(line, open, s, q')
  }

  /** From a start where `open` occurs, the positions the marker can complete
      at are those up to the end of the line where the rest matches; so the
      last of them is the longest match from there. */
  lemma CompletesFromStart(line: string, open: string, s: nat)
    requires s + |open| <= |line| && At(line, s, open)
    ensures var lo := s + |open|;
      var last := LastComplete(line, lo, LineEndFrom(line, lo));
      && (last.Some? ==> Longest(line, open, s, last.value))
      && (last.None? ==> NoMatchAt(line, open, s))
  {
    var lo := s + |open|;
    var e := LineEndFrom(line, lo);
    forall q: nat | q > e && q <= |line|
      ensures !NoNewline(line, lo, q)
    {
      assert line[e] == '\n';
    }
  }

  /** Whether the marker matches from `s`, and where its longest match ends. */
  function LongestFrom(line: string, open: string, s: nat): Option<nat>
    requires s <= |line|
  {
    if s + |open| <= |line| && At(line, s, open) then
      var lo := s + |open|;
      LastComplete(line, lo, LineEndFrom(line, lo))
    else None
  }

  /** One step of the search: a match from `s` is its answer, and otherwise
      the search goes on from `s + 1`. */
  lemma MarkerFromStep(line: string, open: string, s: nat)
    requires |open| > 0 && s <= |line|
    ensures LongestFrom(line, open, s).Some? ==>
      && Longest(line, open, s, LongestFrom(line, open, s).value)
      && MarkerFrom(line, open, s) == Some(RunAt(line, LongestFrom(line, open, s).value + |CompleteText|))
    ensures LongestFrom(line, open, s).None? ==>
      && NoMatchAt(line, open, s)
      && MarkerFrom(line, open, s) == if s == |line| then None else MarkerFrom(line, open, s + 1)
  {
    if s + |open| <= |line| && At(line, s, open) {
      CompletesFromStart(line, open, s);
    }
  }

  /** The search finds nothing only when no match of the marker starts at
      or after `s`. */
  lemma {:induction false} MarkerFromNone(line: string, open: string, s: nat)
    requires |open| > 0 && s <= |line|
    requires MarkerFrom(line, open, s).None?
    ensures forall s': nat :: s <= s' ==> NoMatchAt(line, open, s')
    decreases |line| - s
  {
    MarkerFromStep(line, open, s);
    if s < |line| {
      MarkerFromNone(line, open, s + 1);
    } else {
      forall s': nat | s <= s' ensures NoMatchAt(line, open, s') {
        assert s' >= |line|;
      }
    }
  }

  /** What the search finds is the duration captured at the leftmost start
      that matches, with the longest `.*` from there. */
  lemma {:induction false} MarkerFromSome(line: string, open: string, s: nat)
    requires |open| > 0 && s <= |line|
    requires MarkerFrom(line, open, s).Some?
    ensures exists s': nat, q: nat :: && s <= s' && Longest(line, open, s', q)
                                      && MarkerFrom(line, open, s).value == RunAt(line, q + |CompleteText|)
                                      && NoMatchBetween(line, open, s, s')
    decreases |line| - s
  {
    MarkerFromStep(line, open, s);
    var here := LongestFrom(line, open, s);
    if here.Some? {
      assert NoMatchBetween(line, open, s, s);
    } else {
      MarkerFromSome(line, open, s + 1);
      var r := MarkerFrom(line, open, s + 1);
      var s': nat, q: nat :| && s + 1 <= s' && Longest(line, open, s', q)
                             && r.value == RunAt(line, q + |CompleteText|)
                             && NoMatchBetween(line, open, s + 1, s');
      assert NoMatchBetween(line, open, s, s');
    }
  }

  /** `TOTAL TIME: ([0-9.]+)$` matches from `s`. */
  predicate TotalAt(line: string, s: nat)
  {
    && At(line, s, TotalText)
    && var d := s + |TotalText|;
       var n := RunLength(line[d..]);
       && n > 0
       && (d + n == |line| || (d + n == |line| - 1 && line[d + n] == '\n'))
  }

  /** `re.search` of the total marker, trying starts from `s` on. */
  function TotalFrom(line: string, s: nat): (r: Option<string>)
    requires s <= |line|
    ensures r.Some? ==> forall k :: 0 <= k < |r.value| ==> IsDecimalChar(r.value[k])
    decreases |line| - s
  {
    if TotalAt(line, s) then Some(RunAt(line, s + |TotalText|))
    else if s == |line| then None
    else TotalFrom(line, s + 1)
  }

  function TotalMarker(line: string): (r: Option<string>)
    ensures r.Some? ==> forall k :: 0 <= k < |r.value| ==> IsDecimalChar(r.value[k])
  {
    TotalFrom(line, 0)
  }

  /** The total search finds a duration if and only if the marker matches
      somewhere, and then it is the one captured at the leftmost match. */
  lemma {:induction false} TotalFromSpec(line: string, s: nat)
    requires s <= |line|
    ensures TotalFrom(line, s).None? ==> forall s': nat :: s <= s' ==> !TotalAt(line, s')
    ensures TotalFrom(line, s).Some? ==>
      exists s': nat :: && s <= s' && TotalAt(line, s')
                   && TotalFrom(line, s).value == RunAt(line, s' + |TotalText|)
                   && forall s'': nat :: s <= s'' < s' ==> !TotalAt(line, s'')
    decreases |line| - s
  {
    if !TotalAt(line, s) {
      if s < |line| {
        TotalFromSpec(line, s + 1);
        var r := TotalFrom(line, s);
        if r.Some? {
          var s': nat :| && s + 1 <= s' && TotalAt(line, s')
                    && r.value == RunAt(line, s' + |TotalText|)
                    && forall s'': nat :: s + 1 <= s'' < s' ==> !TotalAt(line, s'');
          assert forall s'': nat :: s <= s'' < s' ==> !TotalAt(line, s'');
        }
      } else {
        forall s': nat | s <= s' ensures !TotalAt(line, s') {
        }
      }
    }
  }

  // ---------------------------------------------------------------------
  // Decimal
  // ---------------------------------------------------------------------

  predicate AllDigits(s: string)
  {
    forall k :: 0 <= k < |s| ==> '0' <= s[k] <= '9'
  }

  function Pow10(k: nat): (p: nat)
    ensures p >= 1
  {
    if k == 0 then 1 else 10 * Pow10(k - 1)
  }

  /** The value of a string of decimal digits, the empty string giving 0. */
  function NatValue(s: string): nat
    requires AllDigits(s)
  {
    if s == [] then 0 else NatValue(s[..|s| - 1]) * 10 + (s[|s| - 1] as int - '0' as int)
  }

  /** `Decimal(t)` for a text of digits and dots, as the markers capture:
      digits with at most one dot and at least one digit give their exact
      value; anything else raises `InvalidOperation`. */
  function ParseDecimal(t: string): Outcome<real>
    requires forall k :: 0 <= k < |t| ==> IsDecimalChar(t[k])
  {
    if '.' in t then
      var i := IndexOf(t, '.');
      var whole := t[..i];
      var frac := t[i + 1..];
      if '.' !in frac && |whole| + |frac| > 0 then
        DotFreeDigits(whole);
        DotFreeDigits(frac);
        Ok(NatValue(whole) as real + NatValue(frac) as real / Pow10(|frac|) as real)
      else Raises("InvalidOperation")
    else if t == [] then Raises("InvalidOperation")
    else
      DotFreeDigits(t);
      Ok(NatValue(t) as real)
  }

  /** A text of digits and dots without a dot is all digits. */
  lemma DotFreeDigits(t: string)
    requires forall k :: 0 <= k < |t| ==> IsDecimalChar(t[k])
    requires '.' !in t
    ensures AllDigits(t)
  {
    forall k | 0 <= k < |t| ensures '0' <= t[k] <= '9' {
      assert IsDecimalChar(t[k]) && t[k] != '.';
    }
  }

  lemma DigitCharValue(d: nat)
    requires d < 10
    ensures DigitChar(d) as int - '0' as int == d
  {
    if d == 0 {} else if d == 1 {} else if d == 2 {} else if d == 3 {} else if d == 4 {}
    else if d == 5 {} else if d == 6 {} else if d == 7 {} else if d == 8 {} else {}
  }

  lemma {:induction false} NatValueOfString(n: nat)
    ensures AllDigits(NatToString(n)) && NatValue(NatToString(n)) == n
  {
    var s := NatToString(n);
    if n < 10 {
      DigitCharValue(n);
    } else {
      NatValueOfString(n / 10);
      DigitCharValue(n % 10);
      assert s[..|s| - 1] == NatToString(n / 10);
    }
  }

  /** A whole number of seconds as a log prints it reads back as itself. */
  lemma DecimalOfNat(n: nat)
    ensures forall k :: 0 <= k < |NatToString(n)| ==> IsDecimalChar(NatToString(n)[k])
    ensures ParseDecimal(NatToString(n)) == Ok(n as real)
  {
    NatValueOfString(n);
    var s := NatToString(n);
    assert forall k :: 0 <= k < |s| ==> s[k] != '.';
  }
}
