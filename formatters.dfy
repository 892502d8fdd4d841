/**
 * Display helpers that several pages define word for word: the date
 * reordering `fmt`/`prettyDate`, the relative-time labels `formatRelative`
 * and `timeAgo`, the "new notice" window and the completion percentage.
 * Each is modelled once here; the pages use these definitions.
 * Times are millisecond differences (`Date.now() - new Date(x).getTime()`),
 * supplied by the caller.
 */
module Formatters {
  import opened Common
  import opened Text

  // ---------------------------------------------------------------------------
  // fmt / prettyDate

  /** `Number(parts[k])`, NaN (`None`) when the piece does not exist. */
  function PartNumber(parts: seq<string>, k: nat): Option<nat> {
    if k < |parts| then JsNumber(parts[k]) else None
  }

  predicate NonZero(n: Option<nat>) {
    n.Some? && n.value != 0
  }

  /**
   * `fmt(d)` / `prettyDate(d)`: "-" for a missing or empty date; "Y-M-D"
   * with three non-zero numeric pieces becomes "DD-MM-Y"; anything else is
   * returned as it came.
   */
  function FormatDate(d: Option<string>): (r: string)
    ensures d.None? || d == Some("") ==> r == "-"
  {
    if d.None? || d.value == "" then
      "-"
    else
      var parts := Split(d.value, '-');
      var y, m, day := PartNumber(parts, 0), PartNumber(parts, 1), PartNumber(parts, 2);
      if !NonZero(y) || !NonZero(m) || !NonZero(day) then
        d.value
      else
        PadTwo(NatToString(day.value)) + "-" + PadTwo(NatToString(m.value)) + "-" + NatToString(y.value)
  }

  /** A non-empty digit string is read by `Number` as its value. */
  lemma JsNumberOfDigits(a: string)
    requires a != [] && AllDigits(a)
    ensures JsNumber(a) == Some(DigitsValue(a))
  {
    TrimNoSpace(a);
  }

  /** Splitting "a-b-c…" on '-' gives `a`, `b` and `c` first when none of them holds a '-'. */
  lemma SplitThree(a: string, b: string, c: string, tail: string)
    requires '-' !in a && '-' !in b && '-' !in c
    requires tail == [] || tail[0] == '-'
    ensures |Split(a + "-" + b + "-" + c + tail, '-')| >= 3
    ensures Split(a + "-" + b + "-" + c + tail, '-')[..3] == [a, b, c]
  {
    var ct := c + tail;
    var bct := b + ['-'] + ct;
    assert a + "-" + b + "-" + c + tail == a + ['-'] + bct;
    SplitAfter(a, '-', bct);
    SplitAfter(b, '-', ct);
    SplitFirst(c, tail);
    var rest := Split(ct, '-');
    assert Split(a + ['-'] + bct, '-') == [a] + ([b] + rest);
  }

  /** The first piece of `c + tail` is `c` when `tail` is empty or starts a new piece. */
  lemma SplitFirst(c: string, tail: string)
    requires '-' !in c
    requires tail == [] || tail[0] == '-'
    ensures Split(c + tail, '-')[0] == c
  {
    if tail == [] {
      assert c + tail == c;
      SplitNoSep(c, '-');
    } else {
      assert c + tail == c + ['-'] + tail[1..];
      SplitAfter(c, '-', tail[1..]);
    }
  }

  /** Digits hold no '-'. */
  lemma DigitsNoDash(a: string)
    requires AllDigits(a)
    ensures '-' !in a
  {
    assert !IsDigit('-');
  }

  /**
   * Three digit pieces with non-zero values, optionally followed by more
   * '-'-separated text, are reordered day first, with day and month padded to
   * two digits and the year unpadded.
   */
  lemma FormatDateValid(a: string, b: string, c: string, tail: string)
    requires a != [] && b != [] && c != [] && AllDigits(a) && AllDigits(b) && AllDigits(c)
    requires DigitsValue(a) > 0 && DigitsValue(b) > 0 && DigitsValue(c) > 0
    requires tail == [] || tail[0] == '-'
    ensures FormatDate(Some(a + "-" + b + "-" + c + tail))
         == PadTwo(NatToString(DigitsValue(c))) + "-" + PadTwo(NatToString(DigitsValue(b))) + "-" + NatToString(DigitsValue(a))
  {
    DigitsNoDash(a);
    DigitsNoDash(b);
    DigitsNoDash(c);
    var parts := Split(a + "-" + b + "-" + c + tail, '-');
    SplitThree(a, b, c, tail);
    assert parts[0] == a && parts[1] == b && parts[2] == c by {
      assert parts[..3][0] == parts[0] && parts[..3][1] == parts[1] && parts[..3][2] == parts[2];
    }
    JsNumberOfDigits(a);
    JsNumberOfDigits(b);
    JsNumberOfDigits(c);
  }

  /** A zero-padded number reads back as the number. */
  lemma DigitsValuePadTwo(n: nat)
    ensures AllDigits(PadTwo(NatToString(n))) && DigitsValue(PadTwo(NatToString(n))) == n
  {
    var s := NatToString(n);
    if |s| == 1 {
      var p := PadTwo(s);
      assert p == "0" + s;
      assert p[..1] == "0";
      assert DigitsValue(p[..1]) == DigitsValue(p[..0]) * 10 + DigitValue('0');
    }
  }

  /** The ISO form "YYYY-MM-DD" of a real date turns into "DD-MM-YYYY". */
  lemma {:induction false} FormatDateIso(y: nat, m: nat, d: nat)
    requires y > 0 && m > 0 && d > 0
    ensures FormatDate(Some(NatToString(y) + "-" + PadTwo(NatToString(m)) + "-" + PadTwo(NatToString(d))))
         == PadTwo(NatToString(d)) + "-" + PadTwo(NatToString(m)) + "-" + NatToString(y)
  {
    DigitsValuePadTwo(m);
    DigitsValuePadTwo(d);
    var mm, dd := PadTwo(NatToString(m)), PadTwo(NatToString(d));
    FormatDateValid(NatToString(y), mm, dd, "");
    assert NatToString(y) + "-" + mm + "-" + dd + "" == NatToString(y) + "-" + mm + "-" + dd;
  }

  /** Text with no '-' at all has no month or day piece and comes back unchanged. */
  lemma FormatDateNoDash(s: string)
    requires s != "" && '-' !in s
    ensures FormatDate(Some(s)) == s
  {
    SplitNoSep(s, '-');
  }

  /** A zero piece (such as "0000-00-00") leaves the text unchanged. */
  lemma FormatDateZeroPiece(a: string, b: string, c: string)
    requires AllDigits(a) && AllDigits(b) && AllDigits(c)
    requires DigitsValue(a) == 0 || DigitsValue(b) == 0 || DigitsValue(c) == 0
    ensures FormatDate(Some(a + "-" + b + "-" + c)) == a + "-" + b + "-" + c
  {
    DigitsNoDash(a);
    DigitsNoDash(b);
    DigitsNoDash(c);
    var parts := Split(a + "-" + b + "-" + c + "", '-');
    SplitThree(a, b, c, "");
    assert a + "-" + b + "-" + c + "" == a + "-" + b + "-" + c;
    assert parts[0] == a && parts[1] == b && parts[2] == c by {
      assert parts[..3][0] == parts[0] && parts[..3][1] == parts[1] && parts[..3][2] == parts[2];
    }
    forall x | x == a || x == b || x == c ensures JsNumber(x) == Some(DigitsValue(x)) {
      if x != [] {
        JsNumberOfDigits(x);
      }
    }
  }

  // ---------------------------------------------------------------------------
  // Floor division facts

  /** `Math.floor(Math.floor(x / b) / c) == Math.floor(x / (b * c))` for positive `b`, `c`. */
  lemma DivDiv(x: int, b: int, c: int)
    requires b > 0 && c > 0
    ensures (x / b) / c == x / (b * c)
  {
    var q := x / (b * c);
    DivLowerBound(x, b * c, q);
    DivLowerBound(x, b * c, q + 1);
    assert q * (b * c) == (q * c) * b;
    assert (q + 1) * (b * c) == ((q + 1) * c) * b;
    DivLowerBound(x, b, q * c);
    DivLowerBound(x, b, (q + 1) * c);
    assert q * c <= x / b < (q + 1) * c;
    DivLowerBound(x / b, c, q);
    DivLowerBound(x / b, c, q + 1);
  }

  /** `x / b < k` exactly when `x < k * b`. */
  lemma DivLowerBound(x: int, b: int, k: int)
    requires b > 0
    ensures x / b < k <==> x < k * b
  {
    var q := x / b;
    assert x == q * b + x % b;
    if q < k {
      assert q * b <= (k - 1) * b;
    } else {
      assert q * b >= k * b;
    }
  }

  // ---------------------------------------------------------------------------
  // formatRelative (project lists)

  const MinuteMs := 60000
  const HourMs := 3600000
  const DayMs := 86400000

  /**
   * `formatRelative(iso)` given `diffMs = now - time(iso)`: '' for a missing
   * date; otherwise whole minutes, hours, days, 30-day months or 12-month
   * years, each step a floor division of the one before.
   */
  function FormatRelative(iso: string, diffMs: int): (r: string)
    ensures iso == "" <==> r == ""
  {
    if iso == "" then ""
    else
      var minutes := diffMs / MinuteMs;
      if minutes < 1 then "just now"
      else if minutes < 60 then NatToString(minutes) + "m ago"
      else
        var hours := minutes / 60;
        if hours < 24 then NatToString(hours) + "h ago"
        else
          var days := hours / 24;
          if days < 30 then NatToString(days) + "d ago"
          else
            var months := days / 30;
            if months < 12 then NatToString(months) + "mo ago"
            else NatToString(months / 12) + "y ago"
  }

  /** The buckets of `FormatRelative` stated directly on the millisecond difference. */
  lemma FormatRelativeBuckets(iso: string, diffMs: int)
    requires iso != ""
    ensures diffMs < MinuteMs ==> FormatRelative(iso, diffMs) == "just now"
    ensures MinuteMs <= diffMs < HourMs ==> FormatRelative(iso, diffMs) == NatToString(diffMs / MinuteMs) + "m ago"
    ensures HourMs <= diffMs < DayMs ==> FormatRelative(iso, diffMs) == NatToString(diffMs / HourMs) + "h ago"
    ensures DayMs <= diffMs < 30 * DayMs ==> FormatRelative(iso, diffMs) == NatToString(diffMs / DayMs) + "d ago"
    ensures 30 * DayMs <= diffMs < 360 * DayMs
        ==> FormatRelative(iso, diffMs) == NatToString(diffMs / (30 * DayMs)) + "mo ago"
    ensures 360 * DayMs <= diffMs ==> FormatRelative(iso, diffMs) == NatToString(diffMs / (360 * DayMs)) + "y ago"
  {
    var minutes := diffMs / MinuteMs;
    DivDiv(diffMs, MinuteMs, 60);
    var hours := minutes / 60;
    DivDiv(diffMs, HourMs, 24);
    var days := hours / 24;
    DivDiv(diffMs, DayMs, 30);
    var months := days / 30;
    DivDiv(diffMs, 30 * DayMs, 12);
    DivLowerBound(diffMs, MinuteMs, 1);
    DivLowerBound(diffMs, MinuteMs, 60);
    DivLowerBound(diffMs, HourMs, 24);
    DivLowerBound(diffMs, DayMs, 30);
    DivLowerBound(diffMs, 30 * DayMs, 12);
  }

  // ---------------------------------------------------------------------------
  // timeAgo (notice pages)

  /** "N unit ago", with an 's' exactly when N is more than one. */
  function Ago(n: int, unit: string): string {
    IntToString(n) + " " + unit + (if n > 1 then "s" else "") + " ago"
  }

  /**
   * `timeAgo(dateStr)` given `diffMs = now - time(dateStr)`: whole days are
   * checked first (more than 7 days gives weeks), then hours, then minutes.
   */
  function TimeAgo(diffMs: int): (r: string)
    ensures r == "Just now" <==> diffMs < MinuteMs
  {
    var seconds := diffMs / 1000;
    var minutes := seconds / 60;
    var hours := minutes / 60;
    var days := hours / 24;
    DivDiv(diffMs, 1000, 60);
    DivDiv(diffMs, MinuteMs, 60);
    DivDiv(diffMs, HourMs, 24);
    DivLowerBound(diffMs, MinuteMs, 1);
    DivLowerBound(diffMs, HourMs, 1);
    DivLowerBound(diffMs, DayMs, 1);
    if days > 7 then Ago(days / 7, "week")
    else if days > 0 then Ago(days, "day")
    else if hours > 0 then Ago(hours, "hour")
    else if minutes > 0 then Ago(minutes, "minute")
    else "Just now"
  }

  /** The buckets of `TimeAgo` on the millisecond difference; more than 7 whole days means weeks. */
  lemma TimeAgoBuckets(diffMs: int)
    ensures diffMs < MinuteMs ==> TimeAgo(diffMs) == "Just now"
    ensures MinuteMs <= diffMs < HourMs ==> TimeAgo(diffMs) == Ago(diffMs / MinuteMs, "minute")
    ensures HourMs <= diffMs < DayMs ==> TimeAgo(diffMs) == Ago(diffMs / HourMs, "hour")
    ensures DayMs <= diffMs < 8 * DayMs ==> TimeAgo(diffMs) == Ago(diffMs / DayMs, "day")
    ensures 8 * DayMs <= diffMs ==> TimeAgo(diffMs) == Ago(diffMs / (7 * DayMs), "week")
  {
    DivDiv(diffMs, 1000, 60);
    DivDiv(diffMs, MinuteMs, 60);
    DivDiv(diffMs, HourMs, 24);
    DivDiv(diffMs, DayMs, 7);
    DivLowerBound(diffMs, MinuteMs, 1);
    DivLowerBound(diffMs, HourMs, 1);
    DivLowerBound(diffMs, DayMs, 1);
    DivLowerBound(diffMs, DayMs, 8);
  }

  /** Exactly seven days still reads in days; eight days is the first "week". */
  lemma TimeAgoWeekBoundary()
    ensures TimeAgo(7 * DayMs) == "7 days ago"
    ensures TimeAgo(8 * DayMs) == "1 week ago"
  {
    TimeAgoBuckets(7 * DayMs);
    TimeAgoBuckets(8 * DayMs);
    assert NatToString(7) == "7";
    assert NatToString(1) == "1";
  }

  // ---------------------------------------------------------------------------
  // isNew

  const WeekMs := 7 * 24 * 60 * 60 * 1000

  /** `time > now - 7 days` */
  predicate IsNew(timeMs: int, nowMs: int) {
    timeMs > nowMs - WeekMs
  }

  /** A label in minutes, hours or days never reads as weeks. */
  lemma AgoNotWeeks(n: int, unit: string)
    requires unit == "minute" || unit == "hour" || unit == "day"
    ensures !EndsWith(Ago(n, unit), "weeks ago") && !EndsWith(Ago(n, unit), "week ago")
  {
    var w := unit + (if n > 1 then "s" else "");
    var t := Ago(n, unit);
    assert t == (IntToString(n) + " ") + w + " ago";
    assert |w| >= 3;
    assert t[|t| - 5] == w[|w| - 1];
    assert t[|t| - 6] == w[|w| - 2];
    assert w[|w| - 1] != 'k';
    assert w[|w| - 1] != 's' || w[|w| - 2] != 'k';
  }

  /** A notice is new exactly when less than a week has passed, and a new notice is never labelled in weeks. */
  lemma IsNewWithinWeek(timeMs: int, nowMs: int)
    ensures IsNew(timeMs, nowMs) <==> nowMs - timeMs < 7 * DayMs
    ensures IsNew(timeMs, nowMs) ==> (!EndsWith(TimeAgo(nowMs - timeMs), "weeks ago")
                                   && !EndsWith(TimeAgo(nowMs - timeMs), "week ago"))
  {
    var diff := nowMs - timeMs;
    TimeAgoBuckets(diff);
    if IsNew(timeMs, nowMs) && diff >= MinuteMs {
      if diff < HourMs {
        AgoNotWeeks(diff / MinuteMs, "minute");
      } else if diff < DayMs {
        AgoNotWeeks(diff / HourMs, "hour");
      } else {
        AgoNotWeeks(diff / DayMs, "day");
      }
    }
  }

  // ---------------------------------------------------------------------------
  // Completion percentage

  /**
   * `den ? Math.round(num / den * 100) : 0` over exact rationals: the
   * nearest whole percentage, halves rounded up.
   */
  function Pct(num: nat, den: nat): (r: nat)
    ensures den == 0 ==> r == 0
    ensures den > 0 ==> 2 * den * r <= 200 * num + den < 2 * den * (r + 1)
  {
    if den == 0 then 0 else (200 * num + den) / (2 * den)
  }

  /** With `num <= den` the percentage lies in 0..100, and is 100 exactly when everything is done. */
  lemma PctBounds(num: nat, den: nat)
    requires num <= den
    ensures Pct(num, den) <= 100
    ensures den > 0 ==> (Pct(num, den) == 100 <==> 200 * num >= 199 * den)
    ensures den > 0 && num == den ==> Pct(num, den) == 100
    ensures num == 0 ==> Pct(num, den) == 0
  {
    if den > 0 {
      var x := 200 * num + den;
      DivLowerBound(x, 2 * den, 101);
      DivLowerBound(x, 2 * den, 100);
      DivLowerBound(x, 2 * den, 1);
    }
  }

  /** The four counts a progress bar is drawn from, their total and the percentage done. */
  datatype Progress = Progress(todo: nat, doing: nat, testing: nat, done: nat, total: nat, pct: nat)

  /** `getProgress`: total of the four counts and the rounded share that is done. */
  function ProgressOf(todo: nat, doing: nat, testing: nat, done: nat): (p: Progress)
    ensures p.total == p.todo + p.doing + p.testing + p.done
    ensures p.pct <= 100
    ensures p.total == 0 ==> p.pct == 0
    ensures p.done == p.total > 0 ==> p.pct == 100
    ensures p.todo == todo && p.doing == doing && p.testing == testing && p.done == done
    ensures p.pct == Pct(p.done, p.total)
  {
    var total := todo + doing + testing + done;
    PctBounds(done, total);
    Progress(todo, doing, testing, done, total, Pct(done, total))
  }
}
