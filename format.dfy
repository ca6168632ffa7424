/** Display helpers (src/lib/utils/format.ts). A value that is `null`, `undefined` or `NaN` is
    `None`. The locale renderers (`Intl.NumberFormat`, `toFixed`, `Number.prototype.toString`,
    date-fns) and `parseFloat` are parameters; what is modelled is the branching around them. */
module Format {
  import opened Wrappers
  import opened Seqs
  import opened Text
  import opened JsMath

  /** `formatCurrency`: the won sign and zero when there is no number. */
  function FormatCurrency(value: Option<real>, krw: real -> string): (r: string)
    ensures value.None? ==> r == "₩0"
    ensures value.Some? ==> r == krw(value.value)
  {
    match value
    case None => "₩0"
    case Some(v) => krw(v)
  }

  /** `formatNumber`: zero when there is no number; `grouped(v, d)` renders with `d` decimals. */
  function FormatNumber(value: Option<real>, decimals: nat, grouped: (real, nat) -> string): (r: string)
    ensures value.None? ==> r == "0"
    ensures value.Some? ==> r == grouped(value.value, decimals)
  {
    match value
    case None => "0"
    case Some(v) => grouped(v, decimals)
  }

  const PercentDecimals: nat := 2

  /** `formatPercent`: a plus sign only for a positive value when signs are asked for. */
  function FormatPercent(value: Option<real>, decimals: nat, showSign: bool, grouped: (real, nat) -> string)
    : (r: string)
    ensures value.None? ==> r == "0.00%"
    ensures value.Some? ==> r == (if showSign && value.value > 0.0 then "+" else "")
                                  + FormatNumber(value, decimals, grouped) + "%"
  {
    match value
    case None => "0.00%"
    case Some(v) =>
      var sign := if showSign && v > 0.0 then "+" else "";
      sign + FormatNumber(value, decimals, grouped) + "%"
  }

  /** A percentage always ends with the percent sign, and starts with `+` exactly when the
      sign is asked for and the value is positive (given a renderer that never writes `+`). */
  lemma PercentSign(value: Option<real>, decimals: nat, showSign: bool, grouped: (real, nat) -> string)
    requires forall v: real, d: nat :: |grouped(v, d)| > 0 ==> grouped(v, d)[0] != '+'
    ensures var r := FormatPercent(value, decimals, showSign, grouped);
      && |r| > 0 && r[|r| - 1] == '%'
      && (r[0] == '+' <==> value.Some? && showSign && value.value > 0.0)
  {
    var r := FormatPercent(value, decimals, showSign, grouped);
    if value.Some? && !(showSign && value.value > 0.0) {
      var n := grouped(value.value, decimals);
      assert r == n + "%";
      if |n| > 0 {
        assert r[0] == n[0];
      }
    }
  }

  /** `formatDate`: `None` is a date that does not parse, on which date-fns throws and the
      helper answers `-`; `render` is the date-fns pattern renderer. */
  function FormatDate(date: Option<int>, render: int -> string): (r: string)
    ensures date.None? ==> r == "-"
    ensures date.Some? ==> r == render(date.value)
  {
    match date
    case None => "-"
    case Some(t) => render(t)
  }

  const SecondMs: int := 1000
  const MinuteMs: int := 60000
  const HourMs: int := 3600000
  const DayMs: int := 86400000
  const WeekMs: int := 604800000

  /** `formatRelativeTime`, from the current time and the date's time in milliseconds (`None`
      when the date does not parse and `getTime` is `NaN`, so that every comparison fails);
      `render` formats the date as `yyyy-MM-dd`. The elapsed time is floored step by step as in
      the source. */
  function FormatRelativeTime(nowMs: int, date: Option<int>, render: int -> string): (r: string)
  {
    match date
    case None => FormatDate(date, render)
    case Some(t) =>
      var diffMs := nowMs - t;
      var diffSec := Floor(diffMs as real / 1000.0);
      var diffMin := Floor(diffSec as real / 60.0);
      var diffHour := Floor(diffMin as real / 60.0);
      var diffDay := Floor(diffHour as real / 24.0);
      if diffSec < 60 then "방금 전"
      else if diffMin < 60 then NatToString(diffMin) + "분 전"
      else if diffHour < 24 then NatToString(diffHour) + "시간 전"
      else if diffDay < 7 then NatToString(diffDay) + "일 전"
      else FormatDate(date, render)
  }

  /** The elapsed whole seconds, minutes, hours and days, as divisions of the milliseconds. */
  lemma ElapsedUnits(diffMs: int)
    ensures var diffSec := Floor(diffMs as real / 1000.0);
      var diffMin := Floor(diffSec as real / 60.0);
      var diffHour := Floor(diffMin as real / 60.0);
      var diffDay := Floor(diffHour as real / 24.0);
      && diffSec == diffMs / SecondMs && diffMin == diffMs / MinuteMs
      && diffHour == diffMs / HourMs && diffDay == diffMs / DayMs
  {
    var diffSec := Floor(diffMs as real / 1000.0);
    assert diffSec == diffMs / 1000;
    var diffMin := Floor(diffSec as real / 60.0);
    assert diffMin == diffSec / 60;
    assert diffMin == diffMs / 60000;
    var diffHour := Floor(diffMin as real / 60.0);
    assert diffHour == diffMin / 60;
    assert diffHour == diffMs / 3600000;
    var diffDay := Floor(diffHour as real / 24.0);
    assert diffDay == diffHour / 24;
  }

  /** The bucket of a relative time, stated on the elapsed milliseconds: under a minute
      (including dates in the future) is "just now", then whole minutes below an hour, whole
      hours below a day, whole days below a week, and the calendar date from a week on. */
  lemma RelativeTimeBuckets(nowMs: int, t: int, render: int -> string)
    ensures var d := nowMs - t;
      var r := FormatRelativeTime(nowMs, Some(t), render);
      && (d < MinuteMs ==> r == "방금 전")
      && (MinuteMs <= d < HourMs ==> r == NatToString(d / MinuteMs) + "분 전" && 1 <= d / MinuteMs < 60)
      && (HourMs <= d < DayMs ==> r == NatToString(d / HourMs) + "시간 전" && 1 <= d / HourMs < 24)
      && (DayMs <= d < WeekMs ==> r == NatToString(d / DayMs) + "일 전" && 1 <= d / DayMs < 7)
      && (WeekMs <= d ==> r == render(t))
  {
    ElapsedUnits(nowMs - t);
  }

  /** A date that does not parse is shown as `-`. */
  lemma RelativeTimeInvalidDate(nowMs: int, render: int -> string)
    ensures FormatRelativeTime(nowMs, None, render) == "-"
  {
  }

  /** The unit `formatCompactNumber` picks. */
  datatype Magnitude = Billions | Millions | Thousands | Units
  {
    function Divisor(): real {
      match this
      case Billions => 1000000000.0
      case Millions => 1000000.0
      case Thousands => 1000.0
      case Units => 1.0
    }

    function Suffix(): string {
      match this
      case Billions => "B"
      case Millions => "M"
      case Thousands => "K"
      case Units => ""
    }
  }

  /** The largest unit not above the value; below a thousand (negative values included) the
      number is shown as it is. The scaled value of a unit below billions lies in [1, 1000). */
  function MagnitudeOf(value: real): (m: Magnitude)
    ensures m != Units <==> value >= 1000.0
    ensures m != Units ==> 1.0 <= value / m.Divisor()
    ensures m != Units && m != Billions ==> value / m.Divisor() < 1000.0
  {
    if value >= 1000000000.0 then Billions
    else if value >= 1000000.0 then Millions
    else if value >= 1000.0 then Thousands
    else Units
  }

  /** `formatCompactNumber`: the value scaled to its unit with one decimal (`fixed1`) and the
      unit's letter, or the plain rendering (`show`) below a thousand. */
  function FormatCompactNumber(value: real, fixed1: real -> string, show: real -> string): (r: string)
    ensures var m := MagnitudeOf(value);
      r == if m == Units then show(value) else fixed1(value / m.Divisor()) + m.Suffix()
  {
    if value >= 1000000000.0 then fixed1(value / 1000000000.0) + "B"
    else if value >= 1000000.0 then fixed1(value / 1000000.0) + "M"
    else if value >= 1000.0 then fixed1(value / 1000.0) + "K"
    else show(value)
  }

  const DefaultMaxLength: int := 50

  /** `truncateText`: the text itself when it fits, otherwise `text.slice(0, maxLength)`
      followed by three dots. */
  function TruncateText(text: string, maxLength: int): (r: string)
    ensures |text| <= maxLength ==> r == text
    ensures |text| > maxLength >= 0 ==> r == text[..maxLength] + "..." && |r| == maxLength + 3
  {
    if |text| <= maxLength then text else JsSlice(text, 0, maxLength) + "..."
  }

  /** A negative limit counts from the end, as `slice` does: the last `-maxLength` characters
      are cut before the dots. */
  lemma TruncateNegative(text: string, maxLength: int)
    requires maxLength < 0 && |text| + maxLength >= 0
    ensures TruncateText(text, maxLength) == text[..|text| + maxLength] + "..."
  {
  }

  /** Truncation never makes a text longer than the limit plus the three dots, and keeps
      every text that fits. */
  lemma TruncateBounded(text: string, maxLength: nat)
    ensures |TruncateText(text, maxLength)| <= maxLength + 3
    ensures |text| <= maxLength ==> TruncateText(text, maxLength) == text
  {
  }

  const DefaultFallback: real := 0.0

  /** `safeParseNumber`: what `parseFloat` reads, or the fallback when it reads `NaN`
      (`parse` returns `None` then). */
  function SafeParseNumber(value: string, parse: string -> Option<real>, fallback: real): (r: real)
    ensures parse(value).Some? ==> r == parse(value).value
    ensures parse(value).None? ==> r == fallback
  {
    match parse(value)
    case None => fallback
    case Some(x) => x
  }
}
