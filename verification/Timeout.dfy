/** `set_timeout` and `timeout`: `Duration` to `struct timeval` and back. */
module Timeout {
  import opened Bytes
  import opened Types

  type u64 = v: int | 0 <= v < 0x1_0000_0000_0000_0000
  type subsec = v: int | 0 <= v < 1_000_000_000

  datatype Duration = Duration(secs: u64, nanos: subsec) {
    function Nanos(): nat {
      secs * 1_000_000_000 + nanos
    }

    /** Whole microseconds, rounded down. */
    function Micros(): nat {
      secs * 1_000_000 + nanos / 1000
    }
  }

  datatype Timeval = Timeval(sec: int, usec: int)

  /** `time_t::MAX` of a 32-bit or a 64-bit target. */
  type TimeMax = m: int | m == 0x7fff_ffff || m == 0x7fff_ffff_ffff_ffff witness 0x7fff_ffff

  /** The value `set_timeout` passes to the kernel. */
  function ToTimeval(tmax: TimeMax, dur: Option<Duration>): Result<Timeval> {
    match dur
    case None => Ok(Timeval(0, 0))
    case Some(d) =>
      if d.secs == 0 && d.nanos == 0 then Err(InvalidInput("cannot set a zero duration timeout"))
      else Ok(Timeval(Min(d.secs, tmax), Max(d.nanos / 1000, if d.secs == 0 then 1 else 0)))
  }

  datatype Reading = Disabled | Set(d: Duration) | Panic

  /** `Duration + Duration`, which panics if the seconds overflow. */
  function Add(a: Duration, b: Duration): Reading {
    var nanos := a.nanos + b.nanos;
    var secs := a.secs + b.secs + nanos / 1_000_000_000;
    if secs < 0x1_0000_0000_0000_0000 then Set(Duration(secs, nanos % 1_000_000_000)) else Panic
  }

  /** A field of a `timeval` on this target. */
  predicate InRange(tmax: TimeMax, v: int) {
    0 <= v + tmax + 1 && v <= tmax
  }

  /** What `timeout` makes of a `timeval`, normalized or not. */
  function FromTimeval(tmax: TimeMax, tv: Timeval): Reading
    requires InRange(tmax, tv.sec) && InRange(tmax, tv.usec)
  {
    if tv.sec == 0 && tv.usec == 0 then Disabled
    else
      var usec := Max(tv.usec, 0);
      Add(Duration(Max(tv.sec, 0), 0), Duration(usec / 1_000_000, usec % 1_000_000 * 1000))
  }

  /** Decoding any `timeval`, even negative or unnormalized, never overflows, and adds up the parts. */
  lemma DecodingNeverPanics(tmax: TimeMax, tv: Timeval)
    requires InRange(tmax, tv.sec) && InRange(tmax, tv.usec)
    ensures !FromTimeval(tmax, tv).Panic?
    ensures FromTimeval(tmax, tv).Disabled? <==> tv == Timeval(0, 0)
    ensures tv != Timeval(0, 0) ==>
      FromTimeval(tmax, tv).d.Nanos() == Max(tv.sec, 0) * 1_000_000_000 + Max(tv.usec, 0) * 1000
  {
  }

  /** The sent value is a normalized `timeval`, and it is the zero one only to disable the timeout. */
  lemma NeverAccidentallyDisabled(tmax: TimeMax, dur: Option<Duration>)
    ensures ToTimeval(tmax, dur).Err? <==> dur == Some(Duration(0, 0))
    ensures ToTimeval(tmax, dur).Err? ==> ToTimeval(tmax, dur).error.InvalidInput?
    ensures ToTimeval(tmax, dur).Ok? ==>
      var tv := ToTimeval(tmax, dur).value;
      && 0 <= tv.sec <= tmax && 0 <= tv.usec < 1_000_000 && InRange(tmax, tv.usec)
      && (tv == Timeval(0, 0) <==> dur == None)
  {
  }

  /** What a later `timeout` reports for a timeout set to `d`. */
  function ReadBack(tmax: TimeMax, d: Duration): (r: Duration)
    requires d.secs != 0 || d.nanos != 0
  {
    NeverAccidentallyDisabled(tmax, Some(d));
    DecodingNeverPanics(tmax, ToTimeval(tmax, Some(d)).value);
    FromTimeval(tmax, ToTimeval(tmax, Some(d)).value).d
  }

  lemma SplitMicros(tmax: TimeMax, sec: nat, usec: nat)
    requires sec <= tmax && usec < 1_000_000 && (sec != 0 || usec != 0)
    ensures FromTimeval(tmax, Timeval(sec, usec)) == Set(Duration(sec, usec * 1000))
  {
  }

  /** Within `time_t`, reading back gives the duration truncated to microseconds, but at least one. */
  lemma ReadsBackTruncated(tmax: TimeMax, d: Duration)
    requires d.secs != 0 || d.nanos != 0
    requires d.secs <= tmax
    ensures ReadBack(tmax, d).nanos % 1000 == 0
    ensures ReadBack(tmax, d).Micros() == Max(1, d.Micros())
    ensures ReadBack(tmax, d).Nanos() == Max(1000, d.Nanos() - d.nanos % 1000)
  {
    var usec := Max(d.nanos / 1000, if d.secs == 0 then 1 else 0);
    SplitMicros(tmax, d.secs, usec);
    assert d.nanos == d.nanos / 1000 * 1000 + d.nanos % 1000;
  }

  /** Beyond `time_t` the seconds saturate and the microseconds stay. */
  lemma ReadsBackSaturated(tmax: TimeMax, d: Duration)
    requires d.secs > tmax
    ensures ReadBack(tmax, d) == Duration(tmax, d.nanos - d.nanos % 1000)
  {
    SplitMicros(tmax, tmax, d.nanos / 1000);
    assert d.nanos == d.nanos / 1000 * 1000 + d.nanos % 1000;
  }

  lemma NoneRoundTrips(tmax: TimeMax)
    ensures ToTimeval(tmax, None).Ok? && FromTimeval(tmax, ToTimeval(tmax, None).value) == Disabled
  {
  }

  /**
   * A longer timeout reads back at least as long, except exactly when the longer one saturates, the shorter
   * one has reached the last second and carries more microseconds.
   */
  lemma MonotoneIff(tmax: TimeMax, a: Duration, b: Duration)
    requires a.secs != 0 || a.nanos != 0
    requires a.Nanos() <= b.Nanos()
    ensures b.secs != 0 || b.nanos != 0
    ensures ReadBack(tmax, a).Nanos() <= ReadBack(tmax, b).Nanos()
        <==> !(b.secs > tmax && a.secs >= tmax && a.nanos / 1000 > b.nanos / 1000)
  {
    assert a.secs <= b.secs;
    SplitMicros(tmax, Min(a.secs, tmax), Max(a.nanos / 1000, if a.secs == 0 then 1 else 0));
    SplitMicros(tmax, Min(b.secs, tmax), Max(b.nanos / 1000, if b.secs == 0 then 1 else 0));
  }

  /** The exception is real: one nanosecond more than the largest exact timeout reads back shorter. */
  lemma SaturationBreaksMonotonicity(tmax: TimeMax)
    ensures var a, b := Duration(tmax, 999_999_999), Duration(tmax + 1, 0);
      a.Nanos() + 1 == b.Nanos() && ReadBack(tmax, a).Nanos() > ReadBack(tmax, b).Nanos()
  {
    MonotoneIff(tmax, Duration(tmax, 999_999_999), Duration(tmax + 1, 0));
  }
}
