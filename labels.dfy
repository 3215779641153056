/** The labels and attribute names the integration uses, as literals. */
module Labels {

  const Domain: string := "lupt"

  // Event and state labels
  const SunriseLabel: string := "Sunrise"
  const DuhaLabel: string := "Duha"
  const ZawaalLabel: string := "Zawaal"
  const MaghribLabel: string := "Maghrib Begins"
  const AsrMithl1Label: string := "Asr Mithl 1"
  const AsrMithl2Label: string := "Asr Mithl 2"

  // Attribute names of the entity
  const IslamicDateAttr: string := "islamic_date"
  const IslamicYearAttr: string := "islamic_year"
  const IslamicMonthAttr: string := "islamic_month"
  const IslamicDayAttr: string := "islamic_day"
  // The four statistics names come from the timetable library's key enumeration;
  // these literals stand for its values.
  const LastUpdatedAttr: string := "last_updated"
  const MinDateAttr: string := "min_date"
  const MaxDateAttr: string := "max_date"
  const NumDatesAttr: string := "number_of_dates"

  /** Lower-cases the ASCII capitals of a string and leaves every other character. */
  function Lower(s: string): (r: string)
    ensures |r| == |s|
  {
    if s == [] then [] else [LowerChar(s[0])] + Lower(s[1..])
  }

  /** Lower-casing maps each character on its own. */
  lemma {:induction false} LowerEachChar(s: string)
    ensures forall i :: 0 <= i < |s| ==> Lower(s)[i] == LowerChar(s[i])
  {
    if s != [] {
      LowerEachChar(s[1..]);
    }
  }

  function LowerChar(c: char): char
  {
    if 'A' <= c <= 'Z' then (c as int + 32) as char else c
  }
}
