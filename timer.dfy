/** The countdown shown on an active rental's card (client/src/components/Timer.tsx):
    the seconds left, the once-per-second update of the timer's state, and the `mm:ss`
    display. The interval scheduling itself is not modelled: each firing is one call of
    `TimerState.Tick` with the clock reading at that moment. */
module Timer {
  import opened Wrappers
  import opened Types
  import Text

  /** `DEFAULT_DURATIONS`, in minutes. */
  function DefaultDuration(t: RentalType): (minutes: int)
    ensures minutes == 60 || minutes == 120
    ensures minutes == 120 <==> t == SNORKEL
  {
    match t
    case BED => 60
    case SUP => 60
    case SNORKEL => 120
  }

  /** `WARNING_THRESHOLD`, in minutes. */
  const WarningThreshold := 10

  /** `duration || DEFAULT_DURATIONS[rentalType]`, in minutes. */
  function EffectiveDuration(t: RentalType, duration: Option<int>): (minutes: int)
    ensures minutes != 0
    ensures minutes == DefaultDuration(t) || duration == Some(minutes)
    ensures duration.Some? && duration.value != 0 ==> minutes == duration.value
    ensures duration.None? || duration == Some(0) ==> minutes == DefaultDuration(t)
  {
    OptNumOr(duration, DefaultDuration(t))
  }

  /** The end of the rental in milliseconds: `start + duration * 60 * 1000`. */
  function EndTime(start: int, t: RentalType, duration: Option<int>): (end: int)
    ensures end != start && (end - start) % 60000 == 0
    ensures duration.Some? && duration.value != 0 ==> end == start + duration.value * 60000
    ensures duration.None? || duration == Some(0) ==> end == start + DefaultDuration(t) * 60000
  {
    start + EffectiveDuration(t, duration) * 60 * 1000
  }

  /** `calculateTimeLeft`: `Math.max(0, Math.floor((end - now) / 1000))`. Dafny's `/` rounds
      down for a positive divisor, as `Math.floor` does. The result is the number of whole
      seconds before the end, and 0 from one second before the end onwards. */
  function TimeLeft(start: int, t: RentalType, duration: Option<int>, now: int): (secs: nat)
    ensures var left := EndTime(start, t, duration) - now;
      && (secs == 0 <==> left < 1000)
      && (left >= 0 ==> secs * 1000 <= left < secs * 1000 + 1000)
  {
    var left := EndTime(start, t, duration) - now;
    if left / 1000 > 0 then left / 1000 else 0
  }

  /** As the clock advances the seconds left never grow, and they are 0 for good once the
      end time is reached. */
  lemma TimeLeftNonIncreasing(start: int, t: RentalType, duration: Option<int>, now1: int, now2: int)
    requires now1 <= now2
    ensures TimeLeft(start, t, duration, now2) <= TimeLeft(start, t, duration, now1)
    ensures now1 >= EndTime(start, t, duration) ==> TimeLeft(start, t, duration, now2) == 0
  {
    var s1, s2 := TimeLeft(start, t, duration, now1), TimeLeft(start, t, duration, now2);
    var e := EndTime(start, t, duration);
    if s2 > 0 {
      assert s2 * 1000 <= e - now2 <= e - now1 < s1 * 1000 + 1000;
    }
  }

  /** The warning test of a tick: `floor(secondsLeft / 60)` between 1 and 10 minutes. */
  predicate WarningDue(secondsLeft: int)
    ensures WarningDue(secondsLeft) <==> 60 <= secondsLeft < 60 * (WarningThreshold + 1)
  {
    var minutesLeft := secondsLeft / 60;
    minutesLeft <= WarningThreshold && minutesLeft > 0
  }

  /** `minutes = Math.floor(timeLeft / 60)` and `seconds = timeLeft % 60`. */
  function Split(timeLeft: nat): (ms: (nat, nat))
    ensures ms.0 * 60 + ms.1 == timeLeft && ms.1 < 60
  {
    (timeLeft / 60, timeLeft % 60)
  }

  /** The value of a string of decimal digits, or None when some character is not a digit. */
  function ReadDigits(s: string): Option<nat> {
    if s == [] then Some(0)
    else if !Text.IsDigit(s[|s| - 1]) then None
    else match ReadDigits(s[..|s| - 1])
      case None => None
      case Some(v) => Some(v * 10 + Text.DigitValue(s[|s| - 1]))
  }

  /** Reads an `m...m:ss` text back into seconds: the minutes before the colon, exactly two
      digits of seconds after it. */
  function ReadClock(s: string): Option<nat> {
    if |s| < 4 || s[|s| - 3] != ':' then None
    else match (ReadDigits(s[..|s| - 3]), ReadDigits(s[|s| - 2..]))
      case (Some(m), Some(sec)) => Some(m * 60 + sec)
      case _ => None
  }

  lemma {:induction false} ReadDigitsOfDigits(s: string)
    requires Text.AllDigits(s)
    ensures ReadDigits(s) == Some(Text.ParseNat(s))
  {
    if s != [] {
      ReadDigitsOfDigits(s[..|s| - 1]);
    }
  }

  lemma {:induction false} ReadClockParts(mm: string, ss: string, m: nat, sec: nat)
    requires |mm| >= 1 && |ss| == 2
    requires ReadDigits(mm) == Some(m) && ReadDigits(ss) == Some(sec)
    ensures ReadClock(mm + ":" + ss) == Some(m * 60 + sec)
  {
    var s := mm + ":" + ss;
    assert s[..|s| - 3] == mm;
    assert s[|s| - 2..] == ss;
  }

  /** `String(x).padStart(2, '0')`: at least two digits, exactly two below 100, and they
      read back as `n`. */
  function TwoDigits(n: nat): (s: string)
    ensures |s| >= 2 && ReadDigits(s) == Some(n)
    ensures n < 100 ==> |s| == 2
  {
    var digits := Text.NatToString(n);
    Text.ParsePadded(n, 2);
    ReadDigitsOfDigits(Text.PadStart(digits, 2, '0'));
    assert 10 <= n ==> |Text.NatToString(n / 10)| == |digits| - 1;
    Text.PadStart(digits, 2, '0')
  }

  /** `${mm}:${ss}`: both fields padded to two digits. Reading it back gives the minutes
      and seconds it was written from. */
  function ClockText(m: nat, sec: nat): (s: string)
    ensures sec < 60 ==> ReadClock(s) == Some(m * 60 + sec)
  {
    var s := TwoDigits(m) + ":" + TwoDigits(sec);
    if sec < 60 then
      ReadClockParts(TwoDigits(m), TwoDigits(sec), m, sec);
      s
    else s
  }

  /** The `mm:ss` text of the countdown; it shows the seconds left exactly, for any number
      of minutes: reading the text back gives `timeLeft`. */
  function Display(timeLeft: nat): (s: string)
    ensures ReadClock(s) == Some(timeLeft)
  {
    ClockText(Split(timeLeft).0, Split(timeLeft).1)
  }

  datatype Color = Error | Primary

  /** The countdown is drawn in the error colour below ten minutes. */
  function DisplayColor(timeLeft: nat): (c: Color)
    ensures c == Error <==> timeLeft < 60 * WarningThreshold
  {
    if Split(timeLeft).0 < WarningThreshold then Error else Primary
  }

  /** The timer component's props and React state. */
  class TimerState {
    const startTime: int
    const rentalType: RentalType
    const duration: Option<int>
    var timeLeft: nat
    var showWarning: bool
    var isExpired: bool

    /** Mounting: nothing has ticked yet, so the display shows 00:00. */
    constructor (startTime: int, rentalType: RentalType, duration: Option<int>)
      ensures this.startTime == startTime && this.rentalType == rentalType && this.duration == duration
      ensures timeLeft == 0 && !showWarning && !isExpired
    {
      this.startTime := startTime;
      this.rentalType := rentalType;
      this.duration := duration;
      timeLeft := 0;
      showWarning := false;
      isExpired := false;
    }

    /** One firing of the interval at clock reading `now`. `warned` tells whether
        `onTimeWarning` was called: only when the warning is due and not already showing.
        The expired flag is raised when no second is left and is never lowered. */
    method Tick(now: int) returns (warned: bool)
      modifies this
      ensures timeLeft == TimeLeft(startTime, rentalType, duration, now)
      ensures warned <==> !old(showWarning) && WarningDue(timeLeft)
      ensures showWarning == (old(showWarning) || warned)
      ensures isExpired == (old(isExpired) || timeLeft == 0)
    {
      var secondsLeft := TimeLeft(startTime, rentalType, duration, now);
      timeLeft := secondsLeft;
      warned := false;
      var minutesLeft := secondsLeft / 60;
      if minutesLeft <= WarningThreshold && minutesLeft > 0 && !showWarning {
        showWarning := true;
        warned := true;
      }
      if secondsLeft == 0 && !isExpired {
        isExpired := true;
      }
    }

    /** The warning snackbar closes (by itself or by the user). */
    method DismissWarning()
      modifies this
      ensures !showWarning
      ensures timeLeft == old(timeLeft) && isExpired == old(isExpired)
    {
      showWarning := false;
    }

    /** What the component renders: the `mm:ss` text and its colour. */
    function Rendered(): (r: (string, Color))
      reads this
      ensures ReadClock(r.0) == Some(timeLeft)
      ensures r.1 == Error <==> timeLeft < 600
    {
      (Display(timeLeft), DisplayColor(timeLeft))
    }
  }
}
