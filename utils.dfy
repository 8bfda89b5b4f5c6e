/** formatTimeAsClock: a count of seconds as the "mm:ss" clock string a
    recorder displays. The library obtains it by slicing characters 14 to 19
    out of the ISO-8601 rendering of that many seconds after the epoch; here
    the same characters are computed arithmetically. */
module Utils {
  import opened Js

  /** 0000-01-01T00:00:00Z and 9999-12-31T23:59:59Z in seconds after the epoch:
      the range in which Date.prototype.toISOString (ECMA-262 section
      21.4.4.36) writes a four-digit year, so that minutes and seconds sit at
      offsets 14 to 18 of its result. */
  const FirstFourDigitYearSecond: int := -62167219200
  const LastFourDigitYearSecond: int := 253402300799

  predicate FourDigitYear(t: int)
  {
    FirstFourDigitYearSecond <= t <= LastFourDigitYearSecond
  }

  /** A number below 100 written with two digits, a leading zero if need be. */
  function Pad2(n: nat): (s: string)
    requires n < 100
    ensures |s| == 2 && AllDigits(s)
  {
    [DigitChar(n / 10), DigitChar(n % 10)]
  }

  /** The ISO-8601 extended format "YYYY-MM-DDTHH:mm:ss.sssZ" of the instant
      `t` seconds after the epoch, given its 10-character calendar date (the
      calendar computation itself is not modelled). Hours, minutes and seconds
      are ECMA-262's HourFromTime, MinFromTime and SecFromTime, in seconds:
      the floor of the time over an hour modulo 24, over a minute modulo 60,
      and the time modulo 60; milliseconds are 0 for whole seconds. */
  function IsoTimestamp(date: string, t: int): string
  {
    date + "T" + Pad2((t / 3600) % 24) + ":" + Pad2((t / 60) % 60) + ":" + Pad2(t % 60) + ".000Z"
  }

  /** formatTimeAsClock(timeInSecond): a number becomes the minutes and seconds
      of its instant, zero-padded and hours dropped; any other value "00:00". */
  function FormatTimeAsClock(v: JsValue): (r: string)
    requires v.Number? ==> FourDigitYear(v.n)
    ensures |r| == 5 && r[2] == ':'
    ensures !v.Number? ==> r == "00:00"
  {
    if v.Number? then Pad2((v.n % 3600) / 60) + ":" + Pad2(v.n % 60) else "00:00"
  }

  /** The minute of the day's hour is the minute within `t` modulo an hour. */
  lemma MinuteOfHour(t: int)
    ensures (t / 60) % 60 == (t % 3600) / 60
  {
    var q, r := t / 3600, t % 3600;
    var x := r / 60;
    assert r == 60 * x + r % 60 && x < 60;
    assert t == 60 * (60 * q + x) + r % 60;
    assert t / 60 == 60 * q + x;
  }

  /** The arithmetic above is the slice `substring(14, 19)` of the ISO string. */
  lemma IsoSlice(date: string, t: int)
    requires |date| == 10 && FourDigitYear(t)
    ensures IsoTimestamp(date, t)[14..19] == FormatTimeAsClock(Number(t))
  {
    var iso := IsoTimestamp(date, t);
    MinuteOfHour(t);
    var m, s := Pad2((t / 60) % 60), Pad2(t % 60);
    assert iso[14..16] == m;
    assert iso[16] == ':';
    assert iso[17..19] == s;
    assert iso[14..19] == iso[14..16] + [iso[16]] + iso[17..19];
  }

  /** A well-formed clock: two digit pairs below 60 around a colon. */
  predicate ValidClock(s: string)
  {
    |s| == 5 && s[2] == ':' && AllDigits(s[..2]) && AllDigits(s[3..])
    && DigitsValue(s[..2]) < 60 && DigitsValue(s[3..]) < 60
  }

  /** Reads a clock string back as the number of seconds it shows. */
  function ParseClock(s: string): Option<int>
  {
    if |s| == 5 && s[2] == ':' && AllDigits(s[..2]) && AllDigits(s[3..])
    then Some(DigitsValue(s[..2]) * 60 + DigitsValue(s[3..]))
    else None
  }

  lemma Pad2Value(n: nat)
    requires n < 100
    ensures DigitsValue(Pad2(n)) == n
  {
    var p := Pad2(n);
    assert p[..1][..0] == [];
    assert DigitsValue(p[..1]) == n / 10;
  }

  lemma Pad2OfValue(p: string)
    requires |p| == 2 && AllDigits(p)
    ensures DigitsValue(p) < 100 && Pad2(DigitsValue(p)) == p
  {
    assert p[..1][..0] == [];
    assert p[..|p| - 1] == p[..1];
    assert DigitsValue(p[..1]) == DigitValue(p[0]);
    var n := DigitsValue(p);
    assert n == DigitValue(p[0]) * 10 + DigitValue(p[1]);
  }

  /** Minutes and seconds of the clock are those of `t` modulo an hour. */
  lemma ClockFields(t: int)
    ensures (t % 3600) / 60 < 60 && (t % 3600) % 60 == t % 60
  {
    var q, r := t / 3600, t % 3600;
    assert t == 60 * (60 * q + r / 60) + r % 60;
  }

  /** Round trip: the clock of `t` is well formed and reads back as `t mod 3600`. */
  lemma ClockRoundTrip(t: int)
    requires FourDigitYear(t)
    ensures ValidClock(FormatTimeAsClock(Number(t)))
    ensures ParseClock(FormatTimeAsClock(Number(t))) == Some(t % 3600)
  {
    var r := FormatTimeAsClock(Number(t));
    ClockFields(t);
    var mm, ss := (t % 3600) / 60, t % 60;
    assert r[..2] == Pad2(mm) && r[3..] == Pad2(ss);
    Pad2Value(mm);
    Pad2Value(ss);
  }

  /** Conversely, every well-formed clock is the clock of exactly the instants
      whose remainder modulo an hour it shows. */
  lemma ClockOfParsed(s: string, t: int)
    requires ValidClock(s) && FourDigitYear(t)
    requires ParseClock(s) == Some(t % 3600)
    ensures FormatTimeAsClock(Number(t)) == s
  {
    var mm, ss := DigitsValue(s[..2]), DigitsValue(s[3..]);
    ClockFields(t);
    assert (t % 3600) / 60 == mm && t % 60 == ss;
    Pad2OfValue(s[..2]);
    Pad2OfValue(s[3..]);
    assert s == s[..2] + ":" + s[3..];
  }

  /** Hours are dropped: an hour later the clock reads the same. */
  lemma HoursDropped(t: int)
    requires FourDigitYear(t) && FourDigitYear(t + 3600)
    ensures FormatTimeAsClock(Number(t + 3600)) == FormatTimeAsClock(Number(t))
  {
    assert (t + 3600) % 3600 == t % 3600;
    assert (t + 3600) % 60 == t % 60;
  }

  /** Sample values, including an instant before 1970, where the floor
      remainder counts back from the hour. */
  lemma ClockExamples()
    ensures FormatTimeAsClock(Number(0)) == "00:00"
    ensures FormatTimeAsClock(Number(65)) == "01:05"
    ensures FormatTimeAsClock(Number(3600)) == "00:00"
    ensures FormatTimeAsClock(Number(-5)) == "59:55"
    ensures FormatTimeAsClock(Str("65")) == "00:00"
  {
  }
}
