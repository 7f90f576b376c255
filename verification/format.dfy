/** The display helpers of src/core/utils/format.ts. Number rendering with
    `toFixed` is left abstract: a display carries the value to render and the
    unit suffix chosen for it. */
module Format {
  import opened Optional
  import Strings

  /** `n` copies of `c`. */
  function Repeat(c: char, n: nat): (r: string)
    ensures |r| == n && forall i :: 0 <= i < n ==> r[i] == c
  {
    seq(n, _ => c)
  }

  /** `formatPriceLevel`: one `$` per level for levels 1 to 4, otherwise
      nothing (absent, 0 and out-of-range levels alike). */
  function FormatPriceLevel(level: Option<int>): (r: string)
    ensures (level.Some? && 1 <= level.value <= 4) ==> |r| == level.value && forall i :: 0 <= i < |r| ==> r[i] == '$'
    ensures !(level.Some? && 1 <= level.value <= 4) ==> r == ""
  {
    if level.None? || level.value == 0 || level.value < 1 || level.value > 4 then ""
    else Repeat('$', level.value)
  }

  /** Shown for a place that is open. */
  const OpenLabel: string := "營業中"
  /** Shown for a place that is closed. */
  const ClosedLabel: string := "已打烊"

  /** `formatOpenStatus`: nothing when unknown, otherwise open or closed. */
  function FormatOpenStatus(isOpen: Option<bool>): string {
    match isOpen
    case None => ""
    case Some(true) => OpenLabel
    case Some(false) => ClosedLabel
  }

  /** The three open states are told apart: the label determines the state. */
  lemma FormatOpenStatusInjective(a: Option<bool>, b: Option<bool>)
    ensures FormatOpenStatus(a) == FormatOpenStatus(b) ==> a == b
  {
  }

  /** JavaScript `Math.round`: halves round up. */
  function JsRound(x: real): int {
    (x + 0.5).Floor
  }

  /** A number to show and the unit written after it. */
  datatype Display = Display(value: real, suffix: string)

  /** `formatDistance`: whole meters below 1 km, kilometers (to one decimal by
      `toFixed`, left abstract) from 1 km on. */
  function FormatDistance(meters: real): Display {
    if meters < 1000.0 then Display(JsRound(meters) as real, " M")
    else Display(meters / 1000.0, " KM")
  }

  /** The unit is meters exactly below 1000, and the shown value is the
      distance in that unit, rounded to the nearest meter in the meter case. */
  lemma FormatDistanceUnit(meters: real)
    ensures FormatDistance(meters).suffix == " M" <==> meters < 1000.0
    ensures FormatDistance(meters).suffix == " KM" <==> meters >= 1000.0
    ensures meters < 1000.0 ==> -0.5 < FormatDistance(meters).value - meters <= 0.5
    ensures meters >= 1000.0 ==> FormatDistance(meters).value * 1000.0 == meters
  {
  }

  /** How `formatRatingCount` shows a count: as is, or scaled with a suffix. */
  datatype CountDisplay = Plain(text: string) | Scaled(value: real, suffix: string)

  /** `formatRatingCount`. */
  function FormatRatingCount(count: int): CountDisplay {
    if count < 1000 then Plain(Strings.IntToString(count))
    else if count < 1000000 then Scaled(count as real / 1000.0, "K")
    else Scaled(count as real / 1000000.0, "M")
  }

  /** Counts below 1000 are shown in full (and read back as the count); up to a
      million in thousands; beyond that in millions. */
  lemma FormatRatingCountBranches(count: int)
    ensures FormatRatingCount(count).Plain? <==> count < 1000
    ensures 0 <= count < 1000 ==> Strings.ParseDigits(FormatRatingCount(count).text) == count
    ensures FormatRatingCount(count).Scaled? && FormatRatingCount(count).suffix == "K" <==> 1000 <= count < 1000000
    ensures FormatRatingCount(count).Scaled? && FormatRatingCount(count).suffix == "M" <==> count >= 1000000
    ensures 1000 <= count < 1000000 ==> FormatRatingCount(count).value * 1000.0 == count as real
    ensures count >= 1000000 ==> FormatRatingCount(count).value * 1000000.0 == count as real
  {
    if 0 <= count < 1000 {
      Strings.ParseNatToString(count);
    }
  }

  /** `getTodayDateString`: the part of the UTC ISO timestamp `isoNow`
      (`new Date().toISOString()`) before its first `T`. */
  function GetTodayDateString(isoNow: string): string {
    Strings.Split(isoNow, 'T')[0]
  }

  /** The date string is the longest `T`-free prefix of the timestamp; for a
      well-formed `YYYY-MM-DDTHH:mm:ss.sssZ` timestamp it is its ten-character
      `YYYY-MM-DD` date. */
  lemma TodayIsDatePart(isoNow: string)
    ensures GetTodayDateString(isoNow) <= isoNow
    ensures 'T' !in GetTodayDateString(isoNow)
    ensures |GetTodayDateString(isoNow)| < |isoNow| ==> isoNow[|GetTodayDateString(isoNow)|] == 'T'
    ensures |isoNow| > 10 && isoNow[10] == 'T' && 'T' !in isoNow[..10] ==> GetTodayDateString(isoNow) == isoNow[..10]
  {
    Strings.SplitFirstPiece(isoNow, 'T');
    var d := GetTodayDateString(isoNow);
    if |isoNow| > 10 && isoNow[10] == 'T' && 'T' !in isoNow[..10] {
      assert |d| == 10;
    }
  }

  /** `isToday`. */
  predicate IsToday(dateString: string, isoNow: string) {
    dateString == GetTodayDateString(isoNow)
  }

  /** The date string of a timestamp is "today" for that timestamp, and no
      string containing a `T` ever is. */
  lemma IsTodayOfToday(dateString: string, isoNow: string)
    ensures IsToday(GetTodayDateString(isoNow), isoNow)
    ensures 'T' in dateString ==> !IsToday(dateString, isoNow)
  {
    TodayIsDatePart(isoNow);
  }
}
