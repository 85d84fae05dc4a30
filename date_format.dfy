/** Dates as the helper formats them: PHP's date_format() for the two patterns it uses, the display
    setting that picks between them, and the formatting of the last order date and the birthday.
    Parsing a date (date_create) and converting it to UTC are not modelled: they are passed in. */
module DateFormat {
  import opened Wrappers
  import opened Failures
  import opened PhpText
  import opened PhpValues

  /** A broken-down date and time, as a PHP DateTime object holds it. */
  datatype DateTime = DateTime(year: int, month: int, day: int, hour: int, minute: int, second: int) {
    predicate Valid() {
      1 <= month <= 12 && 1 <= day <= 31 && 0 <= hour < 24 && 0 <= minute < 60 && 0 <= second < 60
    }
  }

  type Instant = d: DateTime | d.Valid() witness DateTime(1970, 1, 1, 0, 0, 0)

  /** date_create(): the instant a date string denotes, in the default time zone, or None when PHP
      cannot parse it. */
  type DateParser = string -> Option<Instant>

  /** ->setTimezone(new DateTimeZone('UTC')): the same instant seen in UTC. */
  type UtcConversion = Instant -> Instant

  /** The two date_format() patterns of the helper: FORMAT_DATE_TIME is 'Y-m-d\\TH:i:s\\Z' and
      FORMAT_DATE_ONLY is 'Y-m-d'. */
  datatype Pattern = FORMAT_DATE_TIME | FORMAT_DATE_ONLY

  /** The `Y` format letter: at least four digits, with a minus sign before years BCE. */
  function YearText(year: int): (t: string)
    ensures |t| >= 4 && (t[0] == '-' <==> year < 0)
    ensures 0 <= year <= 9999 ==> |t| == 4 && AllDigits(t) && ValueOf(t) == year
  {
    var n := if year < 0 then -year else year;
    var digits := if n < 10000 then FixedDigits(n, 4) else Decimal(n);
    if year < 0 then "-" + digits else digits
  }

  /** date_format() with one of the two patterns; `m`, `d`, `H`, `i` and `s` are two digits wide. */
  function Format(d: Instant, pattern: Pattern): (r: string)
    ensures |r| > |YearText(d.year)| && r[..|YearText(d.year)|] == YearText(d.year)
    ensures pattern == FORMAT_DATE_ONLY ==> |r| == |YearText(d.year)| + 6
    ensures pattern == FORMAT_DATE_TIME ==>
      |r| == |YearText(d.year)| + 16 && r[|r| - 10] == 'T' && r[|r| - 1] == 'Z'
  {
    var date := YearText(d.year) + "-" + FixedDigits(d.month, 2) + "-" + FixedDigits(d.day, 2);
    match pattern
    case FORMAT_DATE_ONLY => date
    case FORMAT_DATE_TIME =>
      date + "T" + FixedDigits(d.hour, 2) + ":" + FixedDigits(d.minute, 2) + ":" + FixedDigits(d.second, 2) + "Z"
  }

  /** Reads a `YYYY-MM-DD` text back into its year, month and day. */
  function ReadDate(s: string): Option<(int, int, int)> {
    if |s| == 10 && AllDigits(s[0..4]) && s[4] == '-' && AllDigits(s[5..7]) && s[7] == '-'
       && AllDigits(s[8..10])
    then Some((ValueOf(s[0..4]), ValueOf(s[5..7]), ValueOf(s[8..10])))
    else None
  }

  /** Reads a `YYYY-MM-DDTHH:MM:SSZ` text back into the date and time it writes. */
  function ReadDateTime(s: string): Option<DateTime> {
    if |s| == 20 && ReadDate(s[..10]).Some? && s[10] == 'T' && AllDigits(s[11..13]) && s[13] == ':'
       && AllDigits(s[14..16]) && s[16] == ':' && AllDigits(s[17..19]) && s[19] == 'Z'
    then
      var (y, m, d) := ReadDate(s[..10]).value;
      Some(DateTime(y, m, d, ValueOf(s[11..13]), ValueOf(s[14..16]), ValueOf(s[17..19])))
    else None
  }

  predicate FourDigitYear(d: Instant) {
    0 <= d.year <= 9999
  }

  /** The date-only pattern writes `YYYY-MM-DD`, which reads back as the instant's date. */
  lemma {:induction false} DateOnlyReadsBack(d: Instant)
    ensures FourDigitYear(d) ==> ReadDate(Format(d, FORMAT_DATE_ONLY)) == Some((d.year, d.month, d.day))
    ensures FourDigitYear(d) ==> ReadDateTime(Format(d, FORMAT_DATE_ONLY)) == None
  {
    if !FourDigitYear(d) { return; }
    var y, m, dd := FixedDigits(d.year, 4), FixedDigits(d.month, 2), FixedDigits(d.day, 2);
    var s := Format(d, FORMAT_DATE_ONLY);
    assert s == y + "-" + m + "-" + dd;
    assert s[0..4] == y && s[5..7] == m && s[8..10] == dd;
  }

  /** The date-and-time pattern writes `YYYY-MM-DDTHH:MM:SSZ`, which reads back as the instant. */
  lemma {:induction false} DateTimeReadsBack(d: Instant)
    ensures FourDigitYear(d) ==> ReadDateTime(Format(d, FORMAT_DATE_TIME)) == Some(d)
    ensures FourDigitYear(d) ==> ReadDate(Format(d, FORMAT_DATE_TIME)) == None
  {
    if !FourDigitYear(d) { return; }
    var h, i, sec := FixedDigits(d.hour, 2), FixedDigits(d.minute, 2), FixedDigits(d.second, 2);
    var date := Format(d, FORMAT_DATE_ONLY);
    DateOnlyReadsBack(d);
    var s := Format(d, FORMAT_DATE_TIME);
    assert s == date + "T" + h + ":" + i + ":" + sec + "Z";
    assert s[..10] == date;
    assert s[11..13] == h && s[14..16] == i && s[17..19] == sec;
  }

  /** getAttributeConfig(): whether the decoded attributes setting (None when the JSON does not decode
      to an array) asks for lastOrderDate as date and time. PHP's isset() ignores a null entry and
      `===` compares type and value, which is Scalar equality here. */
  function GetAttributeConfig(attributes: Option<map<string, Scalar>>, dateAndTime: Scalar): (dateTime: bool)
    ensures dateTime ==> attributes.Some? && "lastOrderDate" in attributes.value
    ensures dateTime ==> attributes.value["lastOrderDate"] == dateAndTime && dateAndTime != Null
    ensures (attributes.Some? && "lastOrderDate" in attributes.value && dateAndTime != Null
             && attributes.value["lastOrderDate"] == dateAndTime) ==> dateTime
  {
    match attributes
    case None => false
    case Some(config) =>
      if "lastOrderDate" in config && config["lastOrderDate"] != Null
      then config["lastOrderDate"] == dateAndTime
      else false
  }

  /** formatOrderDate(): the order's creation time, converted to UTC and written with the date-time
      pattern when the attributes setting asks for it, with the date-only pattern otherwise. When PHP
      cannot parse the date, the call on the `false` that date_create returns is an uncaught Error. */
  function FormatOrderDate(date: string, parse: DateParser, toUtc: UtcConversion,
                           attributes: Option<map<string, Scalar>>, dateAndTime: Scalar): (r: Result<string, Failure>)
    ensures parse(date).None? ==> r == Err(OrderDateUnparsable(date))
    ensures parse(date).Some? ==> r.Ok? && r.value != []
    ensures parse(date).Some? && FourDigitYear(toUtc(parse(date).value)) ==>
      var utc := toUtc(parse(date).value);
      && (ReadDateTime(r.value) == Some(utc) <==> GetAttributeConfig(attributes, dateAndTime))
      && (ReadDate(r.value) == Some((utc.year, utc.month, utc.day)) <==> !GetAttributeConfig(attributes, dateAndTime))
  {
    match parse(date)
    case None => Err(OrderDateUnparsable(date))
    case Some(local) =>
      var utc := toUtc(local);
      var pattern := if GetAttributeConfig(attributes, dateAndTime) then FORMAT_DATE_TIME else FORMAT_DATE_ONLY;
      DateTimeReadsBack(utc);
      DateOnlyReadsBack(utc);
      Ok(Format(utc, pattern))
  }

  /** The outcome of formatting a birthday: the text stored (empty when there is none) and whether a
      critical event was logged. */
  datatype Birthday = Birthday(text: string, logged: bool)

  /** formatBirthday(), as the rest of the model uses it: a date of birth that parses is written as
      `YYYY-MM-DD`; one that does not gives "" and a logged critical event; a customer without a date
      of birth gives "" (see FormatBirthdayAsWritten for what the source does then). */
  function FormatBirthday(dob: Option<string>, parse: DateParser): (b: Birthday)
    ensures dob.None? ==> b == Birthday("", false)
    ensures dob.Some? ==> (b.text == "" <==> parse(dob.value).None?)
    ensures dob.Some? ==> (b.logged <==> parse(dob.value).None?)
    ensures dob.Some? && parse(dob.value).Some? && FourDigitYear(parse(dob.value).value) ==>
      var d := parse(dob.value).value;
      ReadDate(b.text) == Some((d.year, d.month, d.day))
  {
    match dob
    case None => Birthday("", false)
    case Some(birthday) =>
      match parse(birthday)
      case None => Birthday("", true)
      case Some(d) =>
        DateOnlyReadsBack(d);
        Birthday(Format(d, FORMAT_DATE_ONLY), false)
  }

  /** formatBirthday() as written: its parameter is declared `string`, so a customer whose date of birth
      is null makes the call itself throw a TypeError, which `catch (Exception $e)` does not catch. */
  function FormatBirthdayAsWritten(dob: Option<string>, parse: DateParser): (r: Result<Birthday, Failure>)
    ensures dob.None? ==> r == Err(BirthdayTypeError)
    ensures dob.Some? ==> r == Ok(FormatBirthday(dob, parse))
  {
    match dob
    case None => Err(BirthdayTypeError)
    case Some(_) => Ok(FormatBirthday(dob, parse))
  }

  /** The discrepancy: without a date of birth the source aborts, while the corrected formatting leaves
      the birthday out and logs nothing. */
  lemma MissingBirthdayAborts(parse: DateParser)
    ensures FormatBirthdayAsWritten(None, parse).Err?
    ensures FormatBirthday(None, parse) == Birthday("", false)
  {
  }
}
