/**
 * Date.prototype.toISOString for instants given as milliseconds since the
 * Unix epoch: `YYYY-MM-DDTHH:mm:ss.sssZ` in UTC. Civil dates follow the
 * proleptic Gregorian calendar (days-to-civil conversion by eras of 400 years).
 */
module IsoDate {
  import opened Text

  /** Milliseconds of 10000-01-01T00:00:00Z: below it the year has four digits. */
  const MaxFourDigitMs: int := 253402300800000

  const MsPerDay: int := 86400000

  /** The last `width` decimal digits of n (all of them when n < 10^width), zero-padded. */
  function Pad(n: int, width: nat): (s: string)
    ensures |s| == width && AllDigits(s)
    decreases width
  {
    if width == 0 then "" else Pad(n / 10, width - 1) + [Digit(n % 10)]
  }

  datatype CivilDate = CivilDate(year: int, month: int, day: int)

  /** The Gregorian date of the given day number (day 0 is 1970-01-01). */
  function CivilFromDays(days: int): (date: CivilDate)
    ensures 1 <= date.month <= 12 && 1 <= date.day <= 31
  {
    var z := days + 719468;
    var era := z / 146097;
    var doe := z - era * 146097;
    var yoe := (doe - doe / 1460 + doe / 36524 - doe / 146096) / 365;
    var doy := doe - (365 * yoe + yoe / 4 - yoe / 100);
    var mp := (5 * doy + 2) / 153;
    var day := doy - (153 * mp + 2) / 5 + 1;
    var month := if mp < 10 then mp + 3 else mp - 9;
    var year := yoe + era * 400;
    CivilDate(if month <= 2 then year + 1 else year, month, day)
  }

  predicate NoT(s: string)
  {
    forall i :: 0 <= i < |s| ==> s[i] != 'T'
  }

  lemma NoTConcat(a: string, b: string)
    requires NoT(a) && NoT(b)
    ensures NoT(a + b)
  {
  }

  lemma NoLineTerminatorConcat(a: string, b: string)
    requires NoLineTerminator(a) && NoLineTerminator(b)
    ensures NoLineTerminator(a + b)
  {
  }

  /** `YYYY-MM-DD`. */
  function DateString(date: CivilDate): (s: string)
    ensures |s| == 10 && NoT(s)
  {
    var y, m, d := Pad(date.year, 4), Pad(date.month, 2), Pad(date.day, 2);
    NoTConcat(y, "-");
    NoTConcat(y + "-", m);
    NoTConcat(y + "-" + m, "-");
    NoTConcat(y + "-" + m + "-", d);
    y + "-" + m + "-" + d
  }

  /** `<h>:<mi>:<sec>.<milli>Z`: digits and separators only, so no line terminator. */
  function TimeLayout(h: string, mi: string, sec: string, milli: string): (s: string)
    requires AllDigits(h) && AllDigits(mi) && AllDigits(sec) && AllDigits(milli)
    ensures |s| == |h| + |mi| + |sec| + |milli| + 4 && NoLineTerminator(s)
  {
    NoLineTerminatorConcat(h, ":");
    NoLineTerminatorConcat(h + ":", mi);
    NoLineTerminatorConcat(h + ":" + mi, ":");
    NoLineTerminatorConcat(h + ":" + mi + ":", sec);
    NoLineTerminatorConcat(h + ":" + mi + ":" + sec, ".");
    NoLineTerminatorConcat(h + ":" + mi + ":" + sec + ".", milli);
    NoLineTerminatorConcat(h + ":" + mi + ":" + sec + "." + milli, "Z");
    h + ":" + mi + ":" + sec + "." + milli + "Z"
  }

  /** `HH:mm:ss.sssZ` for a time of day in milliseconds. */
  function TimeString(t: int): (s: string)
    ensures |s| == 13 && NoLineTerminator(s)
  {
    TimeLayout(Pad(t / 3600000, 2), Pad(t / 60000 % 60, 2), Pad(t / 1000 % 60, 2), Pad(t % 1000, 3))
  }

  /** The `YYYY-MM-DD` part of the ISO string of an instant. */
  function IsoDatePart(ms: int): (s: string)
    ensures |s| == 10 && NoT(s)
  {
    DateString(CivilFromDays(ms / MsPerDay))
  }

  /** The `HH:mm:ss.sssZ` part of the ISO string of an instant. */
  function IsoTimePart(ms: int): (s: string)
    ensures |s| == 13 && NoLineTerminator(s)
  {
    TimeString(ms % MsPerDay)
  }

  /** `<date>T<time>`. */
  function IsoLayout(date: string, time: string): (s: string)
    requires |date| == 10 && |time| == 13
    ensures |s| == 24 && s[10] == 'T'
  {
    assert (date + "T" + time)[10] == 'T';
    date + "T" + time
  }

  /** new Date(ms).toISOString(). */
  function ToIsoString(ms: int): (s: string)
    requires 0 <= ms < MaxFourDigitMs
    ensures |s| == 24 && s[10] == 'T'
  {
    IsoLayout(IsoDatePart(ms), IsoTimePart(ms))
  }

  /**
   * `iso.replace(/T.*$/, '')` leaves the date of an ISO timestamp: the ten
   * characters `YYYY-MM-DD`.
   */
  lemma DateOnlyOfIso(ms: int)
    requires 0 <= ms < MaxFourDigitMs
    ensures DropFromT(ToIsoString(ms)) == IsoDatePart(ms) == ToIsoString(ms)[..10]
  {
    DropFromTKeepsDate(IsoDatePart(ms), IsoTimePart(ms));
  }
}
