/**
 * The duration reading shared by the booking services: a service's
 * `defaultDuration` is an ISO 8601 duration text (the designator form of
 * section 4.4.3.2 of ISO 8601:2004, such as `PT1H30M`), but it is read with
 * the two regular expressions `/(\d+)H/` and `/(\d+)M/` rather than parsed:
 * the number before the first `H` is the hours, the number before the first
 * `M` the minutes, wherever they stand.
 */
module IsoDuration {
  import opened Common

  predicate IsDigit(c: char)
  {
    '0' <= c <= '9'
  }

  function DigitValue(c: char): nat
    requires IsDigit(c)
  {
    c as int - '0' as int
  }

  function DigitChar(d: nat): (c: char)
    requires d < 10
    ensures IsDigit(c) && DigitValue(c) == d
  {
    (d + '0' as int) as char
  }

  predicate AllDigits(s: string)
  {
    forall i :: 0 <= i < |s| ==> IsDigit(s[i])
  }

  /** `parseInt` of a run of decimal digits. */
  function DecimalValue(s: string): nat
    requires AllDigits(s)
    decreases |s|
  {
    if |s| == 0 then 0 else DecimalValue(s[..|s| - 1]) * 10 + DigitValue(s[|s| - 1])
  }

  /** The decimal numeral of `n`, as `toString` writes it. */
  function Numeral(n: nat): (r: string)
    ensures |r| > 0 && AllDigits(r)
  {
    if n < 10 then [DigitChar(n)] else Numeral(n / 10) + [DigitChar(n % 10)]
  }

  /** Reading a numeral gives back its number. */
  lemma {:induction false} NumeralValue(n: nat)
    ensures DecimalValue(Numeral(n)) == n
  {
    if n >= 10 {
      var r := Numeral(n);
      assert r[..|r| - 1] == Numeral(n / 10);
      NumeralValue(n / 10);
    }
  }

  /** The end of the maximal run of digits that starts at `i`. */
  function RunEnd(s: string, i: nat): (j: nat)
    requires i <= |s|
    ensures i <= j <= |s|
    ensures forall k :: i <= k < j ==> IsDigit(s[k])
    ensures j == |s| || !IsDigit(s[j])
    decreases |s| - i
  {
    if i == |s| || !IsDigit(s[i]) then i else RunEnd(s, i + 1)
  }

  /** Every position inside a run has the same run end. */
  lemma {:induction false} RunEndInside(s: string, i: nat, k: nat)
    requires i <= |s| && i <= k < RunEnd(s, i)
    ensures RunEnd(s, k) == RunEnd(s, i)
    decreases k as int - i
  {
    if i < k {
      RunEndInside(s, i + 1, k);
    }
  }

  /** A run of digits followed by a non-digit ends there. */
  lemma {:induction false} RunEndOf(s: string, i: nat, j: nat)
    requires i <= j < |s|
    requires forall k :: i <= k < j ==> IsDigit(s[k])
    requires !IsDigit(s[j])
    ensures RunEnd(s, i) == j
    decreases j as int - i
  {
    if i < j {
      RunEndOf(s, i + 1, j);
    }
  }

  /**
   * `/(\d+)X/` matches at position `i`: a digit starts there and the maximal
   * run of digits from `i` is followed by `X` (a shorter run is followed by a
   * digit, so greedy matching and backtracking agree).
   */
  predicate MatchAt(s: string, x: char, i: int)
  {
    0 <= i < |s| && IsDigit(s[i]) && RunEnd(s, i) < |s| && s[RunEnd(s, i)] == x
  }

  /**
   * The number captured by the leftmost match of `/(\d+)X/` in `s` at or
   * after `from`, for a designator `X` that is not a digit: positions
   * without a digit are passed over, and so is a whole run of digits that
   * the designator does not follow.
   */
  function Designator(s: string, x: char, from: nat): (r: Option<nat>)
    requires from <= |s|
    requires !IsDigit(x)
    decreases |s| - from
  {
    if from == |s| then None
    else if !IsDigit(s[from]) then Designator(s, x, from + 1)
    else
      var j := RunEnd(s, from);
      if j < |s| && s[j] == x then Some(DecimalValue(s[from..j])) else Designator(s, x, j)
  }

  /**
   * `Designator` is the leftmost match: `None` exactly when there is no
   * match, otherwise the number of the first match.
   */
  lemma {:induction false} DesignatorIsLeftmostMatch(s: string, x: char, from: nat)
    requires from <= |s|
    requires !IsDigit(x)
    ensures var r := Designator(s, x, from);
      && (r.None? <==> forall i :: from <= i < |s| ==> !MatchAt(s, x, i))
      && (r.Some? ==>
            exists i :: (from <= i && MatchAt(s, x, i)
                         && (forall k :: from <= k < i ==> !MatchAt(s, x, k))
                         && r.value == DecimalValue(s[i..RunEnd(s, i)])))
    decreases |s| - from
  {
    if from < |s| {
      if !IsDigit(s[from]) {
        DesignatorIsLeftmostMatch(s, x, from + 1);
      } else {
        var j := RunEnd(s, from);
        if j < |s| && s[j] == x {
          assert MatchAt(s, x, from);
        } else {
          forall k | from <= k < j ensures !MatchAt(s, x, k) {
            RunEndInside(s, from, k);
          }
          DesignatorIsLeftmostMatch(s, x, j);
        }
      }
    }
  }

  /** Positions without digits are skipped. */
  lemma {:induction false} DesignatorSkip(s: string, x: char, from: nat, until: nat)
    requires from <= until <= |s| && !IsDigit(x)
    requires forall k :: from <= k < until ==> !IsDigit(s[k])
    ensures Designator(s, x, from) == Designator(s, x, until)
    decreases until - from
  {
    if from < until {
      assert !IsDigit(s[from]);
      assert Designator(s, x, from) == Designator(s, x, from + 1);
      DesignatorSkip(s, x, from + 1, until);
    }
  }

  /**
   * The duration in minutes: hours from the first `(\d+)H` times 60 plus
   * minutes from the first `(\d+)M`, a missing component counting as 0.
   */
  function DurationMinutes(s: string): (minutes: nat)
  {
    var h := Designator(s, 'H', 0);
    var m := Designator(s, 'M', 0);
    (if h.Some? then h.value * 60 else 0) + (if m.Some? then m.value else 0)
  }

  /**
   * A duration in days or in seconds has neither an hour nor a minute
   * component, so it reads as zero minutes.
   */
  lemma DaysAndSecondsReadAsZero()
    ensures DurationMinutes("P1D") == 0
    ensures DurationMinutes("PT45S") == 0
  {
    RunEndOf("P1D", 1, 2);
    DesignatorSkip("P1D", 'H', 0, 1);
    DesignatorSkip("P1D", 'M', 0, 1);
    DesignatorSkip("P1D", 'H', 2, 3);
    DesignatorSkip("P1D", 'M', 2, 3);
    RunEndOf("PT45S", 2, 4);
    DesignatorSkip("PT45S", 'H', 0, 2);
    DesignatorSkip("PT45S", 'M', 0, 2);
    DesignatorSkip("PT45S", 'H', 4, 5);
    DesignatorSkip("PT45S", 'M', 4, 5);
  }

  /** A run `n` at position `i` followed by the designator `x` gives `n`. */
  lemma DesignatorAtNumeral(s: string, x: char, i: nat, n: nat)
    requires !IsDigit(x)
    requires i + |Numeral(n)| < |s|
    requires s[i..i + |Numeral(n)|] == Numeral(n)
    requires s[i + |Numeral(n)|] == x
    ensures Designator(s, x, i) == Some(n)
  {
    var j := i + |Numeral(n)|;
    assert forall k :: i <= k < j ==> IsDigit(s[k]) by {
      forall k | i <= k < j ensures IsDigit(s[k]) {
        assert s[k] == s[i..j][k - i];
      }
    }
    RunEndOf(s, i, j);
    assert s[i] == s[i..j][0];
    NumeralValue(n);
  }

  /** A run `n` at position `i` followed by another non-digit character is passed over. */
  lemma DesignatorPastNumeral(s: string, x: char, i: nat, n: nat)
    requires !IsDigit(x)
    requires i + |Numeral(n)| < |s|
    requires s[i..i + |Numeral(n)|] == Numeral(n)
    requires !IsDigit(s[i + |Numeral(n)|]) && s[i + |Numeral(n)|] != x
    ensures Designator(s, x, i) == Designator(s, x, i + |Numeral(n)|)
  {
    var j := i + |Numeral(n)|;
    assert forall k :: i <= k < j ==> IsDigit(s[k]) by {
      forall k | i <= k < j ensures IsDigit(s[k]) {
        assert s[k] == s[i..j][k - i];
      }
    }
    RunEndOf(s, i, j);
    assert s[i] == s[i..j][0];
  }

  /** `PT<h>H<m>M` reads as `h·60 + m` minutes. */
  lemma HoursAndMinutes(h: nat, m: nat)
    ensures DurationMinutes("PT" + Numeral(h) + "H" + Numeral(m) + "M") == h * 60 + m
  {
    HoursDesignator(h, m);
    MinutesDesignator(h, m);
  }

  lemma HoursDesignator(h: nat, m: nat)
    ensures Designator("PT" + Numeral(h) + "H" + Numeral(m) + "M", 'H', 0) == Some(h)
  {
    var nh := Numeral(h);
    var s := "PT" + nh + "H" + Numeral(m) + "M";
    var a := 2 + |nh|;
    assert s[2..a] == nh && s[a] == 'H';
    DesignatorSkip(s, 'H', 0, 2);
    DesignatorAtNumeral(s, 'H', 2, h);
  }

  lemma MinutesDesignator(h: nat, m: nat)
    ensures Designator("PT" + Numeral(h) + "H" + Numeral(m) + "M", 'M', 0) == Some(m)
  {
    var nh := Numeral(h);
    var nm := Numeral(m);
    var s := "PT" + nh + "H" + nm + "M";
    var a := 2 + |nh|;
    assert s[2..a] == nh && s[a] == 'H';
    assert s[a + 1..a + 1 + |nm|] == nm && s[a + 1 + |nm|] == 'M';
    DesignatorSkip(s, 'M', 0, 2);
    DesignatorPastNumeral(s, 'M', 2, h);
    DesignatorSkip(s, 'M', a, a + 1);
    DesignatorAtNumeral(s, 'M', a + 1, m);
  }

  /** `PT<h>H` reads as `h·60` minutes. */
  lemma HoursOnly(h: nat)
    ensures DurationMinutes("PT" + Numeral(h) + "H") == h * 60
  {
    var nh := Numeral(h);
    var s := "PT" + nh + "H";
    var a := 2 + |nh|;
    assert Designator(s, 'H', 0) == Some(h) by {
      assert s[2..a] == nh && s[a] == 'H';
      DesignatorSkip(s, 'H', 0, 2);
      DesignatorAtNumeral(s, 'H', 2, h);
    }
    assert Designator(s, 'M', 0) == None by {
      assert s[2..a] == nh && s[a] == 'H';
      DesignatorSkip(s, 'M', 0, 2);
      DesignatorPastNumeral(s, 'M', 2, h);
      DesignatorSkip(s, 'M', a, a + 1);
    }
  }

  /** `PT<m>M` reads as `m` minutes. */
  lemma MinutesOnly(m: nat)
    ensures DurationMinutes("PT" + Numeral(m) + "M") == m
  {
    var nm := Numeral(m);
    var s := "PT" + nm + "M";
    var a := 2 + |nm|;
    assert Designator(s, 'H', 0) == None by {
      assert s[2..a] == nm && s[a] == 'M';
      DesignatorSkip(s, 'H', 0, 2);
      DesignatorPastNumeral(s, 'H', 2, m);
      DesignatorSkip(s, 'H', a, a + 1);
    }
    assert Designator(s, 'M', 0) == Some(m) by {
      assert s[2..a] == nm && s[a] == 'M';
      DesignatorSkip(s, 'M', 0, 2);
      DesignatorAtNumeral(s, 'M', 2, m);
    }
  }

  /**
   * The reading departs from ISO 8601 where `M` means months: `P<n>M`, a
   * duration of `n` months, reads as `n` minutes.
   */
  lemma MonthsReadAsMinutes(n: nat)
    ensures DurationMinutes("P" + Numeral(n) + "M") == n
  {
    var nn := Numeral(n);
    var s := "P" + nn + "M";
    var a := 1 + |nn|;
    assert Designator(s, 'H', 0) == None by {
      assert s[1..a] == nn && s[a] == 'M';
      DesignatorSkip(s, 'H', 0, 1);
      DesignatorPastNumeral(s, 'H', 1, n);
      DesignatorSkip(s, 'H', a, a + 1);
    }
    assert Designator(s, 'M', 0) == Some(n) by {
      assert s[1..a] == nn && s[a] == 'M';
      DesignatorSkip(s, 'M', 0, 1);
      DesignatorAtNumeral(s, 'M', 1, n);
    }
  }

  /** The default duration text of the back-office service. */
  const DefaultDurationText: string := "PT30M"

  /** The default `PT30M` reads as 30 minutes. */
  lemma DefaultIsHalfHour()
    ensures DurationMinutes(DefaultDurationText) == 30
  {
    assert Numeral(30) == "30" by {
      assert Numeral(3) == "3";
    }
    assert DefaultDurationText == "PT" + Numeral(30) + "M";
    MinutesOnly(30);
  }
}
