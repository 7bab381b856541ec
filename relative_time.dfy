/** `formatRelativeTime`: how long ago an ISO timestamp was, in French, bucketed
    into "just now", minutes, hours or days. Both dashboard scripts share it. */
module RelativeTime {
  import opened Js
  import opened Text

  const MinuteMs := 60000
  const HourMs := 3600000
  const DayMs := 86400000

  /** The bucket a millisecond difference falls in, with its count. */
  datatype Ago = JustNow | MinutesAgo(n: nat) | HoursAgo(n: nat) | DaysAgo(n: nat)

  predicate ValidAgo(a: Ago) {
    match a
    case JustNow => true
    case MinutesAgo(n) => 1 <= n < 60
    case HoursAgo(n) => 1 <= n < 24
    case DaysAgo(n) => 1 <= n
  }

  /** The bucketing of `diff = now - date`. `Math.floor` of a quotient by a positive
      constant is Dafny's `/` on `int`, negative differences included. */
  function Classify(diff: int): (a: Ago)
    ensures ValidAgo(a)
    ensures a.JustNow? <==> diff < MinuteMs
    ensures a.MinutesAgo? <==> MinuteMs <= diff < HourMs
    ensures a.HoursAgo? <==> HourMs <= diff < DayMs
    ensures a.DaysAgo? <==> DayMs <= diff
    ensures a.MinutesAgo? ==> a.n * MinuteMs <= diff < (a.n + 1) * MinuteMs
    ensures a.HoursAgo? ==> a.n * HourMs <= diff < (a.n + 1) * HourMs
    ensures a.DaysAgo? ==> a.n * DayMs <= diff < (a.n + 1) * DayMs
  {
    var minutes := diff / MinuteMs;
    var hours := diff / HourMs;
    var days := diff / DayMs;
    if minutes < 1 then JustNow
    else if minutes < 60 then MinutesAgo(minutes)
    else if hours < 24 then HoursAgo(hours)
    else DaysAgo(days)
  }

  /** The text shown for a bucket; days take a plural "s" only above one. */
  function Render(a: Ago): (r: string)
    requires ValidAgo(a)
    ensures a.JustNow? <==> !StartsWith(r, "Il y a ")
    ensures a.MinutesAgo? ==> EndsWith(r, " min")
    ensures a.HoursAgo? ==> EndsWith(r, "h")
    ensures a.DaysAgo? ==> (EndsWith(r, " jours") <==> a.n > 1)
  {
    match a
    case JustNow => assert "À l'instant"[0] != 'I'; "À l'instant"
    case MinutesAgo(n) => Framed(Decimal(n), " min"); "Il y a " + Decimal(n) + " min"
    case HoursAgo(n) => Framed(Decimal(n), "h"); "Il y a " + Decimal(n) + "h"
    case DaysAgo(n) =>
      var s := "Il y a " + Decimal(n) + " jour" + (if n > 1 then "s" else "");
      Framed(Decimal(n), if n > 1 then " jours" else " jour");
      assert s == "Il y a " + Decimal(n) + (if n > 1 then " jours" else " jour");
      assert n <= 1 ==> s[|s| - 1] == 'r';
      s
  }

  /** Reads a rendered text back into its bucket. */
  function Parse(s: string): Option<Ago> {
    if s == "À l'instant" then Some(JustNow)
    else if !StartsWith(s, "Il y a ") then None
    else if |s| >= 11 && EndsWith(s, " min") then Some(MinutesAgo(ParseDecimal(s[7..|s| - 4])))
    else if |s| >= 8 && EndsWith(s, "h") then Some(HoursAgo(ParseDecimal(s[7..|s| - 1])))
    else if |s| >= 13 && EndsWith(s, " jours") then Some(DaysAgo(ParseDecimal(s[7..|s| - 6])))
    else if |s| >= 12 && EndsWith(s, " jour") then Some(DaysAgo(ParseDecimal(s[7..|s| - 5])))
    else None
  }

  /** The pieces of a rendered count: the prefix, the digits and the unit suffix. */
  lemma Framed(d: string, suffix: string)
    requires |d| >= 1
    ensures var s := "Il y a " + d + suffix;
      && s != "À l'instant" && StartsWith(s, "Il y a ") && EndsWith(s, suffix)
      && s[7..|s| - |suffix|] == d
  {
    var s := "Il y a " + d + suffix;
    assert s[0] == 'I';
    assert s[..7] == "Il y a ";
    assert s[|s| - |suffix|..] == suffix;
    assert s[7..|s| - |suffix|] == d;
  }

  /** Every bucket renders to a distinct text: parsing the text gives the bucket back. */
  lemma {:induction false} ParseRender(a: Ago)
    requires ValidAgo(a)
    ensures Parse(Render(a)) == Some(a)
  {
    match a
    case JustNow =>
    case MinutesAgo(n) =>
      Framed(Decimal(n), " min");
      DecimalRoundTrip(n);
    case HoursAgo(n) =>
      var s := Render(a);
      Framed(Decimal(n), "h");
      assert s[|s| - 1] == 'h';
      assert !EndsWith(s, " min");
      DecimalRoundTrip(n);
    case DaysAgo(n) =>
      var s := Render(a);
      DecimalRoundTrip(n);
      if n > 1 {
        Framed(Decimal(n), " jours");
        assert s == "Il y a " + Decimal(n) + " jours";
        assert s[|s| - 1] == 's';
        assert !EndsWith(s, " min") && !EndsWith(s, "h");
      } else {
        Framed(Decimal(n), " jour");
        assert s == "Il y a " + Decimal(n) + " jour";
        assert s[|s| - 1] == 'r';
        assert !EndsWith(s, " min") && !EndsWith(s, "h") && !EndsWith(s, " jours");
      }
  }

  /** `formatRelativeTime(isoString)`. Date parsing and the clock are parameters:
      `parse` gives the epoch milliseconds of a date text, or `None` for an invalid
      date, whose NaN difference falls through every comparison to the day branch. */
  function FormatRelativeTime(iso: Option<string>, parse: string -> Option<int>, now: int): (r: string)
    ensures !Present(iso) <==> r == "--"
    ensures Present(iso) && parse(iso.value).None? ==> r == "Il y a NaN jour"
    ensures Present(iso) && parse(iso.value).Some? ==>
      var diff := now - parse(iso.value).value;
      r == Render(Classify(diff)) && Parse(r) == Some(Classify(diff)) && RenderedText(diff, r)
  {
    if !Present(iso) then "--"
    else if parse(iso.value).None? then "Il y a NaN jour"
    else
      var diff := now - parse(iso.value).value;
      RenderClassified(diff);
      Render(Classify(diff))
  }

  /** The text of each bucket written out against the difference itself. */
  predicate RenderedText(diff: int, r: string) {
    && (diff < MinuteMs ==> r == "À l'instant")
    && (MinuteMs <= diff < HourMs ==> r == "Il y a " + Decimal(diff / MinuteMs) + " min")
    && (HourMs <= diff < DayMs ==> r == "Il y a " + Decimal(diff / HourMs) + "h")
    && (DayMs <= diff < 2 * DayMs ==> r == "Il y a 1 jour")
    && (2 * DayMs <= diff ==> r == "Il y a " + Decimal(diff / DayMs) + " jours")
  }

  lemma RenderClassified(diff: int)
    ensures var r := Render(Classify(diff));
      && r != "--" && Parse(r) == Some(Classify(diff)) && RenderedText(diff, r)
  {
    var a := Classify(diff);
    ParseRender(a);
    if a.DaysAgo? {
      if diff < 2 * DayMs {
        assert a.n == 1;
        assert Decimal(1) == "1";
      } else {
        assert a.n == diff / DayMs > 1;
      }
    }
  }

  /** Differences under one minute, negative ones included, read "À l'instant". */
  lemma JustNowBelowOneMinute(diff: int)
    requires diff < MinuteMs
    ensures Render(Classify(diff)) == "À l'instant"
  {
  }

  /** One day reads "Il y a 1 jour"; two days and more take the plural. */
  lemma DayPlural(diff: int)
    requires DayMs <= diff
    ensures diff < 2 * DayMs ==> Render(Classify(diff)) == "Il y a 1 jour"
    ensures 2 * DayMs <= diff ==> EndsWith(Render(Classify(diff)), "jours")
  {
    var n := Classify(diff).n;
    if diff < 2 * DayMs {
      assert n == 1;
    } else {
      assert n >= 2;
    }
  }
}
