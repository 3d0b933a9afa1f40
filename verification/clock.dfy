/**
 The clock formatter of the timer page (`fmt`, milliseconds to `HH:MM:SS`)
 and the `Math.round(ms / 60000)` minute rounding used for history entries.
 */
module Clock {
  import opened Core
  import opened Text
  import opened Decimal

  const MsPerSecond: int := 1000
  const MsPerMinute: int := 60000

  /** `Math.floor(ms / 1000)` clamped below at 0: the whole seconds shown. */
  function ShownSeconds(ms: int): nat {
    Max(0, ms / MsPerSecond)
  }

  /** `r` reads as `H:MM:SS` for `total` seconds: three digit fields separated by
      colons, the last two exactly two digits and below 60, the first at least two
      digits, and together they add up to `total`. */
  ghost predicate ShowsSeconds(r: string, total: nat) {
    && |r| >= 8 && r[|r| - 6] == ':' && r[|r| - 3] == ':'
    && var hh, mm, ss := r[..|r| - 6], r[|r| - 5..|r| - 3], r[|r| - 2..];
      && DigitString(hh) && DigitString(mm) && DigitString(ss)
      && ParseNat(mm) < 60 && ParseNat(ss) < 60
      && ParseNat(hh) * 3600 + ParseNat(mm) * 60 + ParseNat(ss) == total
  }

  /** `fmt(ms)`: each of hours, minutes and seconds as decimal text padded to two digits. */
  function Fmt(ms: int): (r: string)
    ensures ShowsSeconds(r, ShownSeconds(ms))
    ensures ShownSeconds(ms) < 360000 ==> |r| == 8
  {
    var s := ShownSeconds(ms);
    var h, m, sec := s / 3600, (s % 3600) / 60, s % 60;
    SplitSeconds(s);
    PaddedField(h);
    PaddedField(m);
    PaddedField(sec);
    NatToStringShort(h);
    var r := PadStart2(NatToString(h)) + ":" + PadStart2(NatToString(m)) + ":" + PadStart2(NatToString(sec));
    JoinShows(PadStart2(NatToString(h)), PadStart2(NatToString(m)), PadStart2(NatToString(sec)));
    r
  }

  /** Hours, minutes below 60 and seconds below 60 add back up to the total. */
  lemma SplitSeconds(s: nat)
    ensures (s % 3600) / 60 < 60 && s % 60 < 60
    ensures s / 3600 * 3600 + (s % 3600) / 60 * 60 + s % 60 == s
  {
    assert s % 3600 == (s % 3600) / 60 * 60 + s % 60;
  }

  /** A padded field is digit text of at least two characters that reads back
      as its number, exactly two characters below 100. */
  lemma PaddedField(n: nat)
    ensures var f := PadStart2(NatToString(n));
      && DigitString(f) && ParseNat(f) == n && |f| >= 2 && (n < 100 ==> |f| == 2)
  {
    ParseNatToString(n);
    NatToStringShort(n);
  }

  /** Three digit fields joined by colons read as those fields. */
  lemma JoinShows(hh: string, mm: string, ss: string)
    requires DigitString(hh) && DigitString(mm) && DigitString(ss)
    requires |hh| >= 2 && |mm| == 2 && |ss| == 2
    requires ParseNat(mm) < 60 && ParseNat(ss) < 60
    ensures ShowsSeconds(hh + ":" + mm + ":" + ss, ParseNat(hh) * 3600 + ParseNat(mm) * 60 + ParseNat(ss))
  {
    JoinSlices(hh, mm, ss);
  }

  /** Where the fields of `hh:mm:ss` sit, for two-character `mm` and `ss`. */
  lemma JoinSlices(hh: string, mm: string, ss: string)
    requires |mm| == 2 && |ss| == 2
    ensures var r := hh + ":" + mm + ":" + ss;
      && |r| == |hh| + 6 && r[|r| - 6] == ':' && r[|r| - 3] == ':'
      && r[..|r| - 6] == hh && r[|r| - 5..|r| - 3] == mm && r[|r| - 2..] == ss
  {
    var r := hh + ":" + mm + ":" + ss;
    var n := |hh|;
    assert r[..n] == hh;
    assert r[n + 1..n + 3] == mm;
    assert r[n + 4..] == ss;
  }

  /** Any duration under one second, negative ones included, shows as `00:00:00`. */
  lemma FmtUnderOneSecond(ms: int)
    requires ms < 1000
    ensures Fmt(ms) == "00:00:00"
  {
    assert ShownSeconds(ms) == 0;
    assert NatToString(0) == "0";
    assert PadStart2("0") == "00";
  }

  /** `Math.round(ms / 60000)`: halves round up, toward positive infinity,
      for every integer `ms` (Dafny's `/` floors for a positive divisor). */
  function RoundMinutes(ms: int): (r: int)
    ensures r * MsPerMinute - 30000 <= ms < r * MsPerMinute + 30000
  {
    (ms + 30000) / MsPerMinute
  }

  /** A whole number of minutes rounds to itself. */
  lemma RoundMinutesWhole(m: int)
    ensures RoundMinutes(m * MsPerMinute) == m
  {
    var r := RoundMinutes(m * MsPerMinute);
    assert (r - m) * MsPerMinute < 30000 && (m - r) * MsPerMinute <= 30000;
  }
}
