/** Date extraction for post prompts (time_parser.py): choosing among the dates found in a text,
    and rendering the chosen one in Russian. The date search itself and the clock are inputs. */
module TimeParser {
  import opened Wrappers
  import opened Text

  /** A timezone-aware datetime: its instant on a common time line (seconds), its wall-clock
      fields in its own zone, and its zone abbreviation as `tzname()` reports it. */
  datatype DateTime = DateTime(
    instant: int,
    year: int, month: int, day: int, hour: int, minute: int,
    tzName: Option<string>)

  /** What the date search produced: it raised, or it returned (snippet, datetime) pairs.
      A search returning `None` is `Found([])`. */
  datatype SearchOutcome = Raised | Found(results: seq<(string, DateTime)>)

  /** The datetimes of the pairs whose snippet is not a duration, in search order
      (the loop at time_parser.py:29-35). */
  function Candidates(results: seq<(string, DateTime)>, isDuration: string -> bool): (cs: seq<DateTime>)
    ensures |cs| <= |results|
    ensures forall j :: 0 <= j < |cs| ==>
      exists k :: 0 <= k < |results| && results[k].1 == cs[j] && !isDuration(results[k].0)
    ensures forall k :: 0 <= k < |results| && !isDuration(results[k].0) ==> results[k].1 in cs
  {
    if results == [] then []
    else
      var init, last := results[..|results| - 1], results[|results| - 1];
      var cs := Candidates(init, isDuration);
      var r := if isDuration(last.0) then cs else cs + [last.1];
      assert forall j :: 0 <= j < |r| ==>
        exists k :: 0 <= k < |results| && results[k].1 == r[j] && !isDuration(results[k].0)
      by {
        forall j | 0 <= j < |r|
          ensures exists k :: 0 <= k < |results| && results[k].1 == r[j] && !isDuration(results[k].0)
        {
          if j < |cs| {
            var k :| 0 <= k < |init| && init[k].1 == cs[j] && !isDuration(init[k].0);
            assert results[k] == init[k];
          } else {
            assert results[|results| - 1].1 == r[j];
          }
        }
      }
      assert forall k :: 0 <= k < |init| ==> init[k] == results[k];
      r
  }

  function Abs(x: int): nat
  {
    if x < 0 then -x else x
  }

  /** The sort key of time_parser.py:39, `(d < now, |d - now|)`, compared lexicographically
      with `False < True`: `a` sorts strictly before `b`. */
  predicate SortsBefore(a: DateTime, b: DateTime, now: int)
  {
    var pastA, pastB := a.instant < now, b.instant < now;
    (!pastA && pastB) || (pastA == pastB && Abs(a.instant - now) < Abs(b.instant - now))
  }

  /** `cs[i]` is what a stable sort by the key puts first: no candidate sorts before it, and
      every earlier candidate sorts strictly after it. */
  predicate IsFirstOfSort(cs: seq<DateTime>, i: int, now: int)
  {
    0 <= i < |cs| &&
    (forall j :: 0 <= j < |cs| ==> !SortsBefore(cs[j], cs[i], now)) &&
    (forall j :: 0 <= j < i ==> SortsBefore(cs[i], cs[j], now))
  }

  /** `parse_event_datetime` once the search has run: drop durations, sort by the key and take
      the first candidate; `None` when the search raised or nothing is left. */
  method ParseEventDatetime(search: SearchOutcome, now: int, isDuration: string -> bool)
    returns (r: Option<DateTime>)
    ensures r.None? <==> search.Raised? || Candidates(search.results, isDuration) == []
    ensures r.Some? ==>
      && search.Found?
      && exists i :: IsFirstOfSort(Candidates(search.results, isDuration), i, now) &&
                     r.value == Candidates(search.results, isDuration)[i]
    ensures r.Some? ==>
      exists k :: 0 <= k < |search.results| && search.results[k].1 == r.value && !isDuration(search.results[k].0)
    ensures r.Some? && (exists c :: c in Candidates(search.results, isDuration) && now <= c.instant) ==>
      now <= r.value.instant &&
      forall c :: c in Candidates(search.results, isDuration) && now <= c.instant ==> r.value.instant <= c.instant
    ensures r.Some? && (forall c :: c in Candidates(search.results, isDuration) ==> c.instant < now) ==>
      forall c :: c in Candidates(search.results, isDuration) ==> c.instant <= r.value.instant
  {
    if search.Raised? {
      return None;
    }
    var candidates := CollectCandidates(search.results, isDuration);
    if candidates == [] {
      return None;
    }
    var best := FirstOfSort(candidates, now);
    NearestOfSort(candidates, best, now);
    r := Some(candidates[best]);
  }

  /** The loop of time_parser.py:29-35. */
  method CollectCandidates(results: seq<(string, DateTime)>, isDuration: string -> bool)
    returns (candidates: seq<DateTime>)
    ensures candidates == Candidates(results, isDuration)
  {
    candidates := [];
    var i := 0;
    while i < |results|
      invariant 0 <= i <= |results|
      invariant candidates == Candidates(results[..i], isDuration)
    {
      var (snippet, dt) := results[i];
      assert results[..i + 1][..i] == results[..i];
      if !isDuration(snippet) {
        candidates := candidates + [dt];
      }
      i := i + 1;
    }
    assert results[..|results|] == results;
  }

  /** `candidates.sort(key=...)` followed by `candidates[0]`: Python's sort is stable, so the
      element it puts first is the first candidate with the least key. */
  method FirstOfSort(candidates: seq<DateTime>, now: int) returns (best: int)
    requires candidates != []
    ensures IsFirstOfSort(candidates, best, now)
  {
    best := 0;
    var j := 1;
    while j < |candidates|
      invariant 0 <= best < j <= |candidates|
      invariant IsFirstOfSort(candidates[..j], best, now)
    {
      if SortsBefore(candidates[j], candidates[best], now) {
        best := j;
      }
      j := j + 1;
    }
    assert candidates[..j] == candidates;
  }

  /** What the first of the sort is: the nearest candidate at or after `now` when there is one,
      otherwise the latest candidate. */
  lemma NearestOfSort(cs: seq<DateTime>, i: int, now: int)
    requires IsFirstOfSort(cs, i, now)
    ensures (exists c :: c in cs && now <= c.instant) ==>
      now <= cs[i].instant && forall c :: c in cs && now <= c.instant ==> cs[i].instant <= c.instant
    ensures (forall c :: c in cs ==> c.instant < now) ==> forall c :: c in cs ==> c.instant <= cs[i].instant
  {
    forall c | c in cs ensures !SortsBefore(c, cs[i], now) {
      var j :| 0 <= j < |cs| && cs[j] == c;
    }
  }

  const Months: seq<string> := [
    "января", "февраля", "марта", "апреля", "мая", "июня",
    "июля", "августа", "сентября", "октября", "ноября", "декабря"]

  /** `months[dt.month - 1]`: the genitive Russian month name. */
  function MonthName(month: int): (name: string)
    requires 1 <= month <= 12
    ensures ' ' !in name && |name| > 0
  {
    Months[month - 1]
  }

  /** `dt.tzname() or 'МСК'` */
  function TzAbbr(dt: DateTime): (tz: string)
    ensures tz != []
    ensures dt.tzName.Some? && dt.tzName.value != [] ==> tz == dt.tzName.value
    ensures !(dt.tzName.Some? && dt.tzName.value != []) ==> tz == "МСК"
  {
    if dt.tzName.Some? && dt.tzName.value != [] then dt.tzName.value else "МСК"
  }

  /** The field ranges a Python datetime always has. */
  predicate ValidFields(dt: DateTime)
  {
    1 <= dt.year && 1 <= dt.month <= 12 && 1 <= dt.day && 0 <= dt.hour < 24 && 0 <= dt.minute < 60
  }

  /** `format_dt_ru`: `"{day} {month name} {year}, {HH:MM} {tz}"`. */
  function FormatDtRu(dt: DateTime): string
    requires ValidFields(dt)
  {
    DecimalString(dt.day) + " " + (MonthName(dt.month) + " " + (DecimalString(dt.year) + "," + ClockText(dt)))
  }

  /** The part after the year's comma: `" {HH:MM} {tz}"`. */
  function ClockText(dt: DateTime): string
    requires ValidFields(dt)
  {
    " " + Pad2(dt.hour) + ":" + Pad2(dt.minute) + " " + TzAbbr(dt)
  }

  /** The fields a formatted date shows. */
  datatype Stamp = Stamp(day: nat, month: int, year: nat, hour: nat, minute: nat, tz: string)

  /** The month number of a month name, or 0 when it is none of them. */
  function MonthNumber(name: string): (m: int)
    ensures 0 <= m <= 12
    ensures m != 0 ==> MonthName(m) == name
  {
    MonthFrom(name, 1)
  }

  function MonthFrom(name: string, m: int): (r: int)
    requires 1 <= m <= 13
    ensures r == 0 || (m <= r <= 12 && Months[r - 1] == name)
    ensures (exists k :: m - 1 <= k < 12 && Months[k] == name) ==> r != 0
    decreases 13 - m
  {
    if m == 13 then 0 else if Months[m - 1] == name then m else MonthFrom(name, m + 1)
  }

  /** Reads the fields back from the layout `format_dt_ru` produces. */
  function ParseDtRu(s: string): Option<Stamp>
  {
    var i := Find(s, ' ');
    if i <= 0 || !AllDigits(s[..i]) then None
    else
      match ParseMonthOn(s[i + 1..])
      case None => None
      case Some(st) => Some(st.(day := DecimalValue(s[..i])))
  }

  /** `"{month name} {year}, {HH:MM} {tz}"`, the day left 0. */
  function ParseMonthOn(s: string): Option<Stamp>
  {
    var j := Find(s, ' ');
    if j < 0 || MonthNumber(s[..j]) == 0 then None
    else
      match ParseYearOn(s[j + 1..])
      case None => None
      case Some(st) => Some(st.(month := MonthNumber(s[..j])))
  }

  /** `"{year}, {HH:MM} {tz}"`, the day and month left 0. */
  function ParseYearOn(s: string): Option<Stamp>
  {
    var k := Find(s, ',');
    if k <= 0 || !AllDigits(s[..k]) then None
    else
      match ParseClock(s[k + 1..])
      case None => None
      case Some(st) => Some(st.(year := DecimalValue(s[..k])))
  }

  /** `" {HH:MM} {tz}"`, the date fields left 0. */
  function ParseClock(t: string): Option<Stamp>
  {
    if |t| < 7 || t[0] != ' ' || t[3] != ':' || t[6] != ' ' || !AllDigits(t[1..3]) || !AllDigits(t[4..6]) then None
    else Some(Stamp(0, 0, 0, DecimalValue(t[1..3]), DecimalValue(t[4..6]), t[7..]))
  }

  lemma DigitsHaveNo(s: string, c: char)
    requires AllDigits(s) && !IsDigit(c)
    ensures c !in s
  {
    forall i | 0 <= i < |s| ensures s[i] != c { }
  }

  /** The formatted date is unambiguous: day, month (through its name), year, hour, minute and
      the zone `TzAbbr` shows can all be read back from it. */
  lemma FormatDtRuRoundTrip(dt: DateTime)
    requires ValidFields(dt)
    ensures ParseDtRu(FormatDtRu(dt)) ==
      Some(Stamp(dt.day, dt.month, dt.year, dt.hour, dt.minute, TzAbbr(dt)))
  {
    var clock := Stamp(0, 0, 0, dt.hour, dt.minute, TzAbbr(dt));
    ClockRoundTrip(Pad2(dt.hour), Pad2(dt.minute), TzAbbr(dt));
    DecimalRoundTrip(dt.year);
    YearRoundTrip(DecimalString(dt.year), ClockText(dt), clock);
    var rest2 := DecimalString(dt.year) + "," + ClockText(dt);
    MonthRoundTrip(dt.month, rest2, clock.(year := dt.year));
    DecimalRoundTrip(dt.day);
    DayRoundTrip(DecimalString(dt.day), MonthName(dt.month) + " " + rest2,
                 clock.(year := dt.year, month := dt.month));
  }

  lemma DayRoundTrip(day: string, rest: string, st: Stamp)
    requires |day| > 0 && AllDigits(day) && ParseMonthOn(rest) == Some(st)
    ensures ParseDtRu(day + " " + rest) == Some(st.(day := DecimalValue(day)))
  {
    DigitsHaveNo(day, ' ');
    FindAfter(day, ' ', rest);
  }

  lemma ClockRoundTrip(hh: string, mm: string, tz: string)
    requires |hh| == 2 && |mm| == 2 && AllDigits(hh) && AllDigits(mm)
    ensures ParseClock(" " + hh + ":" + mm + " " + tz) == Some(Stamp(0, 0, 0, DecimalValue(hh), DecimalValue(mm), tz))
  {
    var t := " " + hh + ":" + mm + " " + tz;
    assert t[1] == hh[0] && t[2] == hh[1] && t[4] == mm[0] && t[5] == mm[1];
    assert t[1..3] == hh;
    assert t[4..6] == mm;
    assert t[7..] == tz;
  }

  lemma YearRoundTrip(year: string, t: string, clock: Stamp)
    requires |year| > 0 && AllDigits(year) && ParseClock(t) == Some(clock)
    ensures ParseYearOn(year + "," + t) == Some(clock.(year := DecimalValue(year)))
  {
    DigitsHaveNo(year, ',');
    FindAfter(year, ',', t);
  }

  lemma MonthRoundTrip(month: int, t: string, st: Stamp)
    requires 1 <= month <= 12 && ParseYearOn(t) == Some(st)
    ensures ParseMonthOn(MonthName(month) + " " + t) == Some(st.(month := month))
  {
    var name := MonthName(month);
    FindAfter(name, ' ', t);
    MonthNumberOfName(month);
  }

  lemma MonthNumberOfName(month: int)
    requires 1 <= month <= 12
    ensures MonthNumber(MonthName(month)) == month
  {
    MonthsDistinct();
    assert Months[month - 1] == MonthName(month);
  }

  lemma MonthsDistinct()
    ensures forall a, b :: 0 <= a < 12 && 0 <= b < 12 && Months[a] == Months[b] ==> a == b
  {
  }
}
