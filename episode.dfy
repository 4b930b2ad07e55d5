/**
 * episode.go: the episode record, as far as ReleaseDateTime reads it, and the
 * rule that turns a release date of a given precision into a calendar date.
 */
module Episode {
  import opened Wrappers
  import opened Strings
  import opened Strconv

  /**
   * The year, month and day ReleaseDateTime hands to time.Date, always at
   * 00:00:00 UTC. The arguments are kept as given: time.Date's normalisation
   * of an out-of-range month or day is not part of this model.
   */
  datatype Date = Date(year: int, month: int, day: int)

  /** Go's zero time.Time: January 1 of year 1, 00:00:00 UTC. */
  const ZeroTime := Date(1, 1, 1)

  /** The fields of SimpleEpisode that ReleaseDateTime reads. */
  datatype SimpleEpisode = SimpleEpisode(releaseDate: string, releaseDatePrecision: string)

  /** FullEpisode embeds SimpleEpisode and adds nothing. */
  datatype FullEpisode = FullEpisode(simpleEpisode: SimpleEpisode)

  /** time.Parse(DateLayout, ·): a date, or None for a parse error. */
  type DateParser = string -> Option<Date>

  /**
   * SimpleEpisode.ReleaseDateTime. With precision "day" the date is whatever
   * parse gives, or the zero time on a parse error. With precision "month"
   * the year and month are the first two '-'-separated pieces and the day is
   * 1. Any other precision reads the whole string as the year of January 1.
   * Numerals go through Atoi with its error dropped, so a numeral with a syntax
   * error counts as 0.
   * The "month" branch indexes the second piece, which Go does not check: a
   * date without '-' panics there, hence the precondition.
   */
  function ReleaseDateTime(e: SimpleEpisode, parse: DateParser): (t: Date)
    requires e.releaseDatePrecision == "month" ==> '-' in e.releaseDate
    ensures e.releaseDatePrecision != "day" ==> t.day == 1
    ensures e.releaseDatePrecision != "day" && e.releaseDatePrecision != "month" ==> t.month == 1
  {
    if e.releaseDatePrecision == "day" then
      match parse(e.releaseDate)
      case Some(d) => d
      case None => ZeroTime
    else if e.releaseDatePrecision == "month" then
      SplitHasTwoPieces(e.releaseDate, '-');
      var ym := Split(e.releaseDate, '-');
      Date(Atoi(ym[0]).value, Atoi(ym[1]).value, 1)
    else
      Date(Atoi(e.releaseDate).value, 1, 1)
  }

  /** "day": the parsed date, and the zero time when parsing fails. */
  lemma DayPrecision(e: SimpleEpisode, parse: DateParser)
    requires e.releaseDatePrecision == "day"
    ensures parse(e.releaseDate).Some? ==> ReleaseDateTime(e, parse) == parse(e.releaseDate).value
    ensures parse(e.releaseDate).None? ==> ReleaseDateTime(e, parse) == ZeroTime
  {
  }

  /**
   * "month": for a date y-m, or y-m-anything, the year is Atoi(y), the month
   * Atoi(m) and the day 1; later pieces are ignored.
   */
  lemma MonthPrecision(y: string, m: string, tail: string, parse: DateParser)
    requires '-' !in y && '-' !in m
    requires tail == "" || tail[0] == '-'
    ensures ReleaseDateTime(SimpleEpisode(y + "-" + m + tail, "month"), parse)
         == Date(Atoi(y).value, Atoi(m).value, 1)
  {
    var date := y + "-" + m + tail;
    assert date[|y|] == '-';
    MonthPieces(y, m, tail);
  }

  /** The first two '-'-separated pieces of y-m or y-m-anything are y and m. */
  lemma MonthPieces(y: string, m: string, tail: string)
    requires '-' !in y && '-' !in m
    requires tail == "" || tail[0] == '-'
    ensures |Split(y + "-" + m + tail, '-')| >= 2
    ensures Split(y + "-" + m + tail, '-')[0] == y && Split(y + "-" + m + tail, '-')[1] == m
  {
    var date := y + "-" + m + tail;
    SplitAfterPrefix(y, "-" + m + tail, '-');
    assert date == y + ("-" + m + tail);
    var rest := m + tail;
    assert "-" + m + tail == [ '-' ] + rest;
    assert ([ '-' ] + rest)[1..] == rest;
    assert Split("-" + m + tail, '-') == [""] + Split(rest, '-');
    SplitAfterPrefix(m, tail, '-');
    if tail == "" {
      assert m + tail == m;
    } else {
      assert tail == [ '-' ] + tail[1..];
      assert Split(tail, '-')[0] == "";
      assert m + Split(tail, '-')[0] == m;
    }
    assert Split(date, '-')[0] == y;
    assert Split(date, '-')[1] == m;
  }

  /** Any precision other than "day" and "month" reads the whole date as a year. */
  lemma YearPrecision(e: SimpleEpisode, parse: DateParser, n: int)
    requires e.releaseDatePrecision != "day" && e.releaseDatePrecision != "month"
    requires MinInt <= n <= MaxInt && e.releaseDate == Itoa(n)
    ensures ReleaseDateTime(e, parse) == Date(n, 1, 1)
  {
    AtoiItoa(n);
  }

  /** Outside "day", a year numeral with a syntax error becomes year 0. */
  lemma BadYearIsZero(e: SimpleEpisode, parse: DateParser)
    requires e.releaseDatePrecision != "day"
    requires e.releaseDatePrecision == "month" ==> '-' in e.releaseDate
    requires e.releaseDatePrecision == "month" ==> Atoi(Split(e.releaseDate, '-')[0]).err == Some(ErrSyntax)
    requires e.releaseDatePrecision != "month" ==> Atoi(e.releaseDate).err == Some(ErrSyntax)
    ensures ReleaseDateTime(e, parse).year == 0
  {
  }

  /**
   * A year that does not start with a digit, such as "abc" or the "x" of
   * "x-12", is read as year 0.
   */
  lemma NonNumericYearIsZero(e: SimpleEpisode, parse: DateParser)
    requires e.releaseDatePrecision != "day"
    requires e.releaseDatePrecision == "month" ==> '-' in e.releaseDate
    requires e.releaseDatePrecision == "month" ==> NoLeadingDigit(Split(e.releaseDate, '-')[0])
    requires e.releaseDatePrecision != "month" ==> NoLeadingDigit(e.releaseDate)
    ensures ReleaseDateTime(e, parse).year == 0
  {
    if e.releaseDatePrecision == "month" {
      SplitHasTwoPieces(e.releaseDate, '-');
      NotNumeral(Split(e.releaseDate, '-')[0]);
    } else {
      NotNumeral(e.releaseDate);
    }
  }

  /** At precision "month", a month piece that does not start with a digit is read as month 0. */
  lemma NonNumericMonthIsZero(e: SimpleEpisode, parse: DateParser)
    requires e.releaseDatePrecision == "month" && '-' in e.releaseDate
    requires |Split(e.releaseDate, '-')| >= 2 && NoLeadingDigit(Split(e.releaseDate, '-')[1])
    ensures ReleaseDateTime(e, parse).month == 0
  {
    NotNumeral(Split(e.releaseDate, '-')[1]);
  }

  /** "abc" at precision "year" is January 1 of year 0. */
  lemma NonNumericYearExample(parse: DateParser)
    ensures ReleaseDateTime(SimpleEpisode("abc", "year"), parse) == Date(0, 1, 1)
  {
    NotNumeral("abc");
  }

  /** The example of the field's documentation: "1981-12-15" at month precision is December 1, 1981. */
  lemma MonthExample(parse: DateParser)
    ensures ReleaseDateTime(SimpleEpisode("1981-12-15", "month"), parse) == Date(1981, 12, 1)
  {
    assert "1981-12-15" == "1981" + "-" + "12" + "-15";
    MonthPrecision("1981", "12", "-15", parse);
    Atoi1981();
    Atoi12();
  }

  /** A zero-padded month, as in every ISO date from January to September: "2020-03" is March 1, 2020. */
  lemma PaddedMonthExample(parse: DateParser)
    ensures ReleaseDateTime(SimpleEpisode("2020-03", "month"), parse) == Date(2020, 3, 1)
  {
    assert "2020-03" == "2020" + "-" + "03" + "";
    MonthPrecision("2020", "03", "", parse);
    Atoi2020();
    Atoi03();
  }

  // Example plumbing for the two month examples: each lemma evaluates Atoi on
  // one literal. They are kept apart because the solver's cost of evaluating
  // several literals in one proof grows much faster than their number.
  lemma Atoi1981()
    ensures Atoi("1981").value == 1981
  {
    assert Decimal(1) == "1" && Decimal(19) == "19" && Decimal(198) == "198" && Decimal(1981) == "1981";
    AtoiItoa(1981);
  }

  lemma Atoi12()
    ensures Atoi("12").value == 12
  {
    assert Itoa(12) == "12";
    AtoiItoa(12);
  }

  lemma Atoi2020()
    ensures Atoi("2020").value == 2020
  {
    assert Decimal(2) == "2" && Decimal(20) == "20" && Decimal(202) == "202" && Decimal(2020) == "2020";
    AtoiItoa(2020);
  }

  lemma Atoi03()
    ensures Atoi("03").value == 3
  {
    assert Unsigned("03") == "03" && !Negative("03");
    assert "03"[..1] == "0" && "0"[..0] == "";
    assert Value("03") == 3;
  }
}
