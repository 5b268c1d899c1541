/** The `[HH:MM:SS]` dialogue timestamps shared by the transcript generators: formatting
    a second count, reading a stamp back for the meeting duration, and the running clock
    that starts at zero and advances by a drawn gap after every turn. */
module Timestamps {
  import opened Common

  datatype Clock = Clock(hours: nat, minutes: nat, seconds: nat)

  /** `seconds // 3600`, `(seconds % 3600) // 60`, `seconds % 60`. */
  function ToClock(t: nat): (c: Clock)
    ensures c.minutes < 60 && c.seconds < 60
    ensures c.hours * 3600 + c.minutes * 60 + c.seconds == t
  {
    Clock(t / 3600, (t % 3600) / 60, t % 60)
  }

  /** A clock reading with minutes and seconds below 60 is determined by its second count. */
  lemma ClockUnique(t: nat, c: Clock)
    requires c.minutes < 60 && c.seconds < 60
    requires c.hours * 3600 + c.minutes * 60 + c.seconds == t
    ensures c == ToClock(t)
  {
    var d := ToClock(t);
    assert c.hours * 3600 + (c.minutes * 60 + c.seconds) == d.hours * 3600 + (d.minutes * 60 + d.seconds);
    assert c.minutes * 60 + c.seconds < 3600 && d.minutes * 60 + d.seconds < 3600;
    assert c.hours == d.hours;
    assert c.minutes * 60 + c.seconds == d.minutes * 60 + d.seconds;
  }

  /** `_format_timestamp`: `f"[{hours:02d}:{minutes:02d}:{secs:02d}]"`. */
  function FormatTimestamp(t: nat): (s: string)
    ensures |s| >= 10 && s[0] == '[' && s[|s| - 1] == ']'
  {
    var c := ToClock(t);
    ZeroPad2Length(c.minutes);
    ZeroPad2Length(c.seconds);
    "[" + ZeroPad(c.hours, 2) + ":" + ZeroPad(c.minutes, 2) + ":" + ZeroPad(c.seconds, 2) + "]"
  }

  /** `int(field)` for the fields of a stamp; Python's leniency about signs, blanks and
      underscores is not reproduced, only plain digit strings are read. */
  function ReadField(f: string): (r: Result<nat>)
    ensures r.Ok? <==> f != [] && AllDigits(f)
  {
    if f != [] && AllDigits(f) then Ok(ParseNat(f)) else Err("ValueError")
  }

  /** The fields of `ts.strip('[]').split(':')`. */
  function StampFields(ts: string): (fields: seq<string>)
    ensures |fields| >= 1
  {
    Split(Strip(ts, {'[', ']'}), ':')
  }

  /** `hours, minutes, _ = map(int, ts.strip('[]').split(':'))`: exactly three fields. */
  function ParseClock(ts: string): (r: Result<Clock>)
    ensures r.Ok? ==> |StampFields(ts)| == 3
  {
    var fields := StampFields(ts);
    if |fields| != 3 then Err("ValueError")
    else
      var h := ReadField(fields[0]);
      var m := ReadField(fields[1]);
      var s := ReadField(fields[2]);
      if h.Ok? && m.Ok? && s.Ok? then Ok(Clock(h.value, m.value, s.value)) else Err("ValueError")
  }

  /** `int(f[0]) * 60 + int(f[1])` with `f = ts.strip('[]').split(':')`: whole minutes.
      The first field is converted before the second is indexed, so a first field that is
      not a number fails with `ValueError` even when there is no second field. */
  function StampMinutes(ts: string): (r: Result<nat>)
    ensures |StampFields(ts)| < 2 ==>
              r == (if ReadField(StampFields(ts)[0]).Ok? then Err("IndexError") else Err("ValueError"))
    ensures r.Ok? <==> |StampFields(ts)| >= 2 && ReadField(StampFields(ts)[0]).Ok? && ReadField(StampFields(ts)[1]).Ok?
  {
    var fields := StampFields(ts);
    var h := ReadField(fields[0]);
    if h.Err? then Err("ValueError")
    else if |fields| < 2 then Err("IndexError")
    else
      var m := ReadField(fields[1]);
      if m.Ok? then Ok(h.value * 60 + m.value) else Err("ValueError")
  }

  /** The minutes a reading amounts to, as both duration computations take it. */
  function ClockMinutes(c: Clock): nat {
    c.hours * 60 + c.minutes
  }

  lemma StampFieldsOfFormat(t: nat)
    ensures StampFields(FormatTimestamp(t)) ==
      [ZeroPad(ToClock(t).hours, 2), ZeroPad(ToClock(t).minutes, 2), ZeroPad(ToClock(t).seconds, 2)]
  {
    var c := ToClock(t);
    var h, m, s := ZeroPad(c.hours, 2), ZeroPad(c.minutes, 2), ZeroPad(c.seconds, 2);
    ZeroPad2Length(c.minutes);
    ZeroPad2Length(c.seconds);
    var body := h + [':'] + m + [':'] + s;
    assert FormatTimestamp(t) == ['['] + body + [']'];
    assert body[0] == h[0] && body[|body| - 1] == s[|s| - 1];
    StripDelimited('[', body, ']', {'[', ']'});
    assert ':' !in h && ':' !in m && ':' !in s by {
      assert AllDigits(h) && AllDigits(m) && AllDigits(s);
    }
    assert body == h + [':'] + (m + [':'] + s);
    SplitAt(h, ':', m + [':'] + s);
    SplitAt(m, ':', s);
    SplitWithout(s, ':');
  }

  /** Reading a formatted stamp back gives the clock it was formatted from. */
  lemma ParseFormatRoundTrip(t: nat)
    ensures ParseClock(FormatTimestamp(t)) == Ok(ToClock(t))
  {
    StampFieldsOfFormat(t);
  }

  /** The minutes read off a formatted stamp are its whole minutes, `t // 60`. */
  lemma StampMinutesOfFormat(t: nat)
    ensures StampMinutes(FormatTimestamp(t)) == Ok(t / 60)
    ensures ClockMinutes(ToClock(t)) == t / 60
  {
    StampFieldsOfFormat(t);
    var c := ToClock(t);
    assert t == (c.hours * 60 + c.minutes) * 60 + c.seconds;
  }

  /** Distinct second counts give distinct stamps. */
  lemma FormatInjective(t1: nat, t2: nat)
    requires FormatTimestamp(t1) == FormatTimestamp(t2)
    ensures t1 == t2
  {
    ParseFormatRoundTrip(t1);
    ParseFormatRoundTrip(t2);
  }

  /** `f"{minutes // 60:02d}:{minutes % 60:02d}"`. */
  function FormatDuration(minutes: nat): (s: string)
    ensures |s| >= 5 && s[|s| - 3] == ':'
  {
    ZeroPad2Length(minutes % 60);
    ZeroPad(minutes / 60, 2) + ":" + ZeroPad(minutes % 60, 2)
  }

  lemma FormatDurationReadsBack(minutes: nat)
    ensures StampMinutes(FormatDuration(minutes)) == Ok(minutes)
  {
    var h, m := ZeroPad(minutes / 60, 2), ZeroPad(minutes % 60, 2);
    ZeroPad2Length(minutes % 60);
    assert FormatDuration(minutes) == h + [':'] + m;
    assert h[0] != '[' && h[0] != ']' by { assert AllDigits(h); }
    assert m[|m| - 1] != '[' && m[|m| - 1] != ']' by { assert AllDigits(m); }
    assert LStrip(h + [':'] + m, {'[', ']'}) == h + [':'] + m;
    assert (h + [':'] + m)[|h + [':'] + m| - 1] == m[|m| - 1];
    assert RStrip(h + [':'] + m, {'[', ']'}) == h + [':'] + m;
    assert ':' !in h by { assert AllDigits(h); }
    assert ':' !in m by { assert AllDigits(m); }
    SplitAt(h, ':', m);
    SplitWithout(m, ':');
  }

  // ------------------------------------------------------------------------
  // The running clock
  // ------------------------------------------------------------------------

  /** A drawn gap of `random.randint(30, 180)` seconds. */
  predicate GapsInRange(gaps: seq<int>) {
    forall i :: 0 <= i < |gaps| ==> 30 <= gaps[i] <= 180
  }

  /** The clock when turn `k` starts: the sum of the gaps drawn after the earlier turns. */
  function StartTime(gaps: seq<int>, k: nat): int
    requires k <= |gaps|
  {
    Sum(gaps[..k])
  }

  /** The clock starts at zero and each turn starts 30 to 180 seconds after the previous. */
  lemma StartTimeStep(gaps: seq<int>, k: nat)
    requires GapsInRange(gaps) && k < |gaps|
    ensures StartTime(gaps, 0) == 0
    ensures StartTime(gaps, k + 1) == StartTime(gaps, k) + gaps[k]
    ensures 30 <= StartTime(gaps, k + 1) - StartTime(gaps, k) <= 180
  {
    assert gaps[..k + 1][..k] == gaps[..k];
  }

  /** Start times are non-negative and strictly increasing. */
  lemma {:induction false} StartTimeIncreasing(gaps: seq<int>, j: nat, k: nat)
    requires GapsInRange(gaps) && j < k <= |gaps|
    ensures 0 <= StartTime(gaps, j) < StartTime(gaps, k)
    ensures 30 * (k - j) <= StartTime(gaps, k) - StartTime(gaps, j) <= 180 * (k - j)
    decreases k
  {
    StartTimeStep(gaps, k - 1);
    if j < k - 1 {
      StartTimeIncreasing(gaps, j, k - 1);
    } else {
      if j > 0 {
        StartTimeIncreasing(gaps, 0, j);
      } else {
        StartTimeStep(gaps, 0);
      }
    }
  }

  lemma StartTimeNonNegative(gaps: seq<int>, k: nat)
    requires GapsInRange(gaps) && k <= |gaps|
    ensures StartTime(gaps, k) >= 0
  {
    if k > 0 {
      StartTimeIncreasing(gaps, 0, k);
    }
  }

  /** The stamp written on turn `k`: the clock at its start, formatted. */
  function TurnStamp(gaps: seq<int>, k: nat): string
    requires GapsInRange(gaps) && k <= |gaps|
  {
    StartTimeNonNegative(gaps, k);
    FormatTimestamp(StartTime(gaps, k))
  }

  function ClockSeconds(c: Clock): nat {
    c.hours * 3600 + c.minutes * 60 + c.seconds
  }

  /** The first turn is stamped `[00:00:00]`. */
  lemma FirstTurnStamp(gaps: seq<int>)
    requires GapsInRange(gaps)
    ensures TurnStamp(gaps, 0) == "[00:00:00]"
  {
    assert StartTime(gaps, 0) == 0 by {
      assert gaps[..0] == [];
    }
    assert ZeroPad(0, 2) == "00" by {
      assert NatToString(0) == "0";
      assert Zeros(1) == "0";
    }
  }

  /** Every later stamp reads back as a clock 30 to 180 seconds per turn later than an
      earlier one. */
  lemma TurnStampsIncrease(gaps: seq<int>, j: nat, k: nat)
    requires GapsInRange(gaps) && j < k <= |gaps|
    ensures ParseClock(TurnStamp(gaps, j)).Ok? && ParseClock(TurnStamp(gaps, k)).Ok?
    ensures 30 * (k - j) <= ClockSeconds(ParseClock(TurnStamp(gaps, k)).value)
                             - ClockSeconds(ParseClock(TurnStamp(gaps, j)).value) <= 180 * (k - j)
  {
    StartTimeIncreasing(gaps, j, k);
    var tj, tk := StartTime(gaps, j), StartTime(gaps, k);
    ParseFormatRoundTrip(tj);
    ParseFormatRoundTrip(tk);
    assert ClockSeconds(ToClock(tj)) == tj;
    assert ClockSeconds(ToClock(tk)) == tk;
  }
}
