/** process_manual_data, process_bot_data and get_data: the two sheets' rows
    rewritten column by column into dated, valued, attributed expenses. */
module Normalize {
  import opened Wrappers
  import opened Text

  datatype Date = Date(day: int, month: int, year: int)

  /** One row of the unified frame: columns data, valor and pagador. */
  datatype Expense = Expense(date: Date, amount: real, payer: string)

  /** A row of the manual sheet, reduced to the columns data, valor and pagador
      that process_manual_data selects. */
  datatype ManualRow = ManualRow(data: string, valor: string, pagador: string)

  /** A row of the sheet the bot's form fills: "Carimbo de data/hora", "Tipo",
      "Valor", "Descrição" and "Responsável". */
  datatype BotRow = BotRow(carimbo: string, tipo: string, valor: string, descricao: string, responsavel: string)

  /** astype(float) raising ValueError, and to_datetime failing to match the
      format, each naming the first offending cell as rewritten. */
  datatype Error = MalformedAmount(text: string) | MalformedDate(text: string)

  // ---------------------------------------------------------------------------
  // Amounts

  /** The manual valor column's rewrites: "R$ " dropped, every "." dropped,
      every "," made a ".". */
  function ManualAmountText(text: string): string
  {
    ReplaceAll(ReplaceAll(ReplaceAll(text, "R$ ", ""), ".", ""), ",", ".")
  }

  /** The bot Valor column's rewrite: every "," made a ".". */
  function BotAmountText(text: string): string
  {
    ReplaceAll(text, ",", ".")
  }

  function ManualAmount(text: string): Option<real> { ParseFloat(ManualAmountText(text)) }

  function BotAmount(text: string): Option<real> { ParseFloat(BotAmountText(text)) }

  /** The bot Carimbo column: times deleted, then read as "%d/%m/%Y". */
  function BotDate(text: string): Option<Date> { ParseDate(StripTimes(text)) }

  /** Digits with a "." before every group of three, counted from the right. */
  function Grouped(digits: string): string
    decreases |digits|
  {
    if |digits| <= 3 then digits
    else Grouped(digits[..|digits| - 3]) + "." + digits[|digits| - 3..]
  }

  /** How a Brazilian sheet shows an amount of cents: "R$ 1.234,56". */
  function Reais(cents: nat): string
  {
    "R$ " + Grouped(NatToDigits(cents / 100)) + "," + TwoDigits(cents % 100)
  }

  /** The bot sheet's spelling of an amount of cents: "1234,56". */
  function BotSpelling(cents: nat): string
  {
    NatToDigits(cents / 100) + "," + TwoDigits(cents % 100)
  }

  lemma {:induction false} GroupedChars(digits: string)
    requires AllDigits(digits)
    ensures forall i :: 0 <= i < |Grouped(digits)| ==> IsDigit(Grouped(digits)[i]) || Grouped(digits)[i] == '.'
    decreases |digits|
  {
    if |digits| > 3 {
      var front, back := digits[..|digits| - 3], digits[|digits| - 3..];
      GroupedChars(front);
      var g := Grouped(front);
      assert Grouped(digits) == g + "." + back;
      forall i | 0 <= i < |Grouped(digits)|
        ensures IsDigit(Grouped(digits)[i]) || Grouped(digits)[i] == '.'
      {
        if i < |g| { assert Grouped(digits)[i] == g[i]; }
        else if i > |g| { assert Grouped(digits)[i] == back[i - |g| - 1]; }
      }
    }
  }

  /** Deleting the group separators gives the digits back. */
  lemma {:induction false} UngroupGrouped(digits: string)
    requires AllDigits(digits)
    ensures ReplaceAll(Grouped(digits), ".", "") == digits
    decreases |digits|
  {
    var dot := ".";
    assert dot == ['.'];
    if |digits| <= 3 {
      ReplaceAllAbsent(digits, dot, "");
    } else {
      var front, back := digits[..|digits| - 3], digits[|digits| - 3..];
      ReplaceCharConcat(Grouped(front) + ".", back, '.', "");
      ReplaceCharConcat(Grouped(front), ".", '.', "");
      UngroupGrouped(front);
      assert ReplaceAll(".", dot, "") == "" by {
        assert "."[..1] == dot && "."[1..] == [];
      }
      ReplaceAllAbsent(back, dot, "");
      assert front + back == digits;
    }
  }

  /** Every amount the manual sheet writes in Brazilian style is read back as
      its value in reais. */
  lemma ManualAmountRoundTrip(cents: nat)
    ensures ManualAmount(Reais(cents)) == Some(cents as real / 100.0)
  {
    var whole := NatToDigits(cents / 100);
    var g, frac := Grouped(whole), TwoDigits(cents % 100);
    var body := g + "," + frac;
    assert Reais(cents) == "R$ " + body;
    // Step 1: the currency prefix goes, and no other "R" is there.
    ReplaceAllLeading("R$ ", body, "");
    GroupedChars(whole);
    assert 'R' !in body by {
      forall i | 0 <= i < |body| ensures body[i] != 'R' {
        if i < |g| { assert body[i] == g[i]; }
        else if i > |g| { assert body[i] == frac[i - |g| - 1]; }
      }
    }
    assert "R$ "[0] == 'R';
    ReplaceAllAbsent(body, "R$ ", "");
    assert ReplaceAll(Reais(cents), "R$ ", "") == body;
    // Step 2: the group separators go.
    var dot := ".";
    assert dot == ['.'];
    ReplaceCharConcat(g + ",", frac, '.', "");
    ReplaceCharConcat(g, ",", '.', "");
    UngroupGrouped(whole);
    ReplaceAllAbsent(",", dot, "");
    ReplaceAllAbsent(frac, dot, "");
    var plain := whole + "," + frac;
    assert ReplaceAll(body, ".", "") == plain;
    // Step 3: the decimal comma becomes a point.
    BotAmountCommaToPoint(cents);
  }

  /** The comma of "<digits>,<two digits>" becomes the decimal point, and the
      result reads as the amount. */
  lemma BotAmountCommaToPoint(cents: nat)
    ensures ParseFloat(ReplaceAll(BotSpelling(cents), ",", ".")) == Some(cents as real / 100.0)
  {
    var whole, frac := NatToDigits(cents / 100), TwoDigits(cents % 100);
    var comma := ",";
    assert comma == [','];
    ReplaceCharConcat(whole + ",", frac, ',', ".");
    ReplaceCharConcat(whole, ",", ',', ".");
    ReplaceAllAbsent(whole, comma, ".");
    ReplaceAllAbsent(frac, comma, ".");
    assert ReplaceAll(",", comma, ".") == "." by {
      assert ","[..1] == comma && ","[1..] == [];
    }
    assert ReplaceAll(BotSpelling(cents), ",", ".") == CentsToDecimal(cents);
    CentsRoundTrip(cents);
  }

  /** Every amount the bot sheet writes with a decimal comma is read back as
      its value in reais. */
  lemma BotAmountRoundTrip(cents: nat)
    ensures BotAmount(BotSpelling(cents)) == Some(cents as real / 100.0)
  {
    BotAmountCommaToPoint(cents);
  }

  /** The bot's Valor column is not freed of thousands separators: a
      Brazilian-style "1.234,56" there becomes "1.234.56", which is no number. */
  lemma BotAmountKeepsDots()
    ensures BotAmount("1.234,56") == None
  {
    ReplaceCharAt("1.234,56", ',', '.');
    var r := BotAmountText("1.234,56");
    assert |r| == 8;
    assert r[0] == '1' && r[1] == '.' && r[5] == '.' && r[7] == '6';
    UnsignedFloat(r);
    TwoPoints(r, 1, 5);
  }

  // ---------------------------------------------------------------------------
  // Payers

  /** The manual pagador column's rewrite: every "joao" made "joão". */
  function ManualPayer(text: string): string
  {
    ReplaceAll(text, "joao", "joão")
  }

  /** "joao" gets its accent; "Bruno" keeps its capital, as the manual
      sheet's names are not lower-cased. */
  lemma ManualPayerExamples()
    ensures ManualPayer("joao") == "joão"
    ensures ManualPayer("Bruno") == "Bruno"
    ensures ManualPayer("joão") == "joão"
  {
    ReplaceAllAbsent("Bruno", "joao", "joão");
    assert !Contains("joão", "joao") by {
      assert "joão"[0..4][2] != "joao"[2];
    }
    ManualPayerKeepsOthers("joão");
    ReplaceAllLeading("joao", "", "joão");
    assert "joao" + "" == "joao";
  }

  /** A name in which "joao" does not occur is kept as it is: "Bruno",
      "raissa", "jose" and the spelling "joão" among them. */
  lemma ManualPayerKeepsOthers(name: string)
    requires !Contains(name, "joao")
    ensures ManualPayer(name) == name
  {
    ReplaceAllNoMatch(name, "joao", "joão");
  }

  // ---------------------------------------------------------------------------
  // Dates

  predicate IsLeapYear(year: int)
  {
    year % 4 == 0 && (year % 100 != 0 || year % 400 == 0)
  }

  function DaysInMonth(month: int, year: int): int
    requires 1 <= month <= 12
  {
    if month == 2 then (if IsLeapYear(year) then 29 else 28)
    else if month == 4 || month == 6 || month == 9 || month == 11 then 30
    else 31
  }

  /** Within the range of pandas' nanosecond timestamps: from 22 September
      1677 to 11 April 2262; a date outside raises OutOfBoundsDatetime. */
  predicate InTimestampRange(d: Date)
  {
    (d.year > 1677 || (d.year == 1677 && (d.month > 9 || (d.month == 9 && d.day >= 22)))) &&
    (d.year < 2262 || (d.year == 2262 && (d.month < 4 || (d.month == 4 && d.day <= 11))))
  }

  predicate ValidDate(d: Date)
  {
    1 <= d.month <= 12 && 1 <= d.day <= DaysInMonth(d.month, d.year) && InTimestampRange(d)
  }

  /** %d: one or two digits from 1 to 31, or a space and a digit from 1 to 9. */
  function DayField(f: string): Option<int>
  {
    if |f| == 2 && f[0] == ' ' && IsDigit(f[1]) && f[1] != '0' then Some(DigitValue(f[1]))
    else if 1 <= |f| <= 2 && AllDigits(f) && 1 <= DigitsValue(f) <= 31 then Some(DigitsValue(f))
    else None
  }

  /** %m: one or two digits from 1 to 12. */
  function MonthField(f: string): Option<int>
  {
    if 1 <= |f| <= 2 && AllDigits(f) && 1 <= DigitsValue(f) <= 12 then Some(DigitsValue(f)) else None
  }

  /** %Y: exactly four digits. */
  function YearField(f: string): Option<int>
  {
    if |f| == 4 && AllDigits(f) then Some(DigitsValue(f)) else None
  }

  /** to_datetime(text, format="%d/%m/%Y"): the whole text must be day, slash,
      month, slash, year, and name a calendar date pandas can hold. */
  function ParseDate(text: string): (r: Option<Date>)
    ensures r.Some? ==> ValidDate(r.value)
  {
    var k1 := Find(text, '/');
    if k1 == |text| then None
    else
      var rest := text[k1 + 1..];
      var k2 := Find(rest, '/');
      if k2 == |rest| then None
      else
        match (DayField(text[..k1]), MonthField(rest[..k2]), YearField(rest[k2 + 1..]))
        case (Some(d), Some(m), Some(y)) =>
          if ValidDate(Date(d, m, y)) then Some(Date(d, m, y)) else None
        case _ => None
  }

  /** The bot Carimbo column's rewrite: every " HH:MM:SS" (a space, then three
      pairs of digits with colons between) is deleted. */
  function StripTimes(text: string): string
    decreases |text|
  {
    if |text| < 9 then text
    else if IsTimeSuffix(text[..9]) then StripTimes(text[9..])
    else [text[0]] + StripTimes(text[1..])
  }

  predicate IsTimeSuffix(s: string)
  {
    |s| == 9 && s[0] == ' ' && IsDigit(s[1]) && IsDigit(s[2]) && s[3] == ':' &&
    IsDigit(s[4]) && IsDigit(s[5]) && s[6] == ':' && IsDigit(s[7]) && IsDigit(s[8])
  }

  /** The way both sheets write a date: "dd/mm/yyyy". */
  function DateText(d: Date): string
    requires 1000 <= d.year <= 9999 && 1 <= d.month <= 12 && 1 <= d.day <= 31
  {
    TwoDigits(d.day) + "/" + TwoDigits(d.month) + "/" + TwoDigits(d.year / 100) + TwoDigits(d.year % 100)
  }

  /** A form timestamp's time of day: " hh:mm:ss". */
  function TimeText(h: nat, m: nat, s: nat): string
    requires h < 100 && m < 100 && s < 100
  {
    " " + TwoDigits(h) + ":" + TwoDigits(m) + ":" + TwoDigits(s)
  }

  lemma YearDigits(year: int)
    requires 1000 <= year <= 9999
    ensures var f := TwoDigits(year / 100) + TwoDigits(year % 100);
            |f| == 4 && AllDigits(f) && DigitsValue(f) == year
  {
    DigitsAppend(TwoDigits(year / 100), TwoDigits(year % 100));
    assert Pow10(2) == 100;
  }

  /** Every date pandas can hold, written "dd/mm/yyyy", is read back. */
  lemma DateRoundTrip(d: Date)
    requires ValidDate(d)
    ensures ParseDate(DateText(d)) == Some(d)
  {
    var dd, mm := TwoDigits(d.day), TwoDigits(d.month);
    var yyyy := TwoDigits(d.year / 100) + TwoDigits(d.year % 100);
    YearDigits(d.year);
    var text := DateText(d);
    assert text == dd + "/" + mm + "/" + yyyy;
    assert text[2] == '/' && IsDigit(text[0]) && IsDigit(text[1]);
    assert Find(text, '/') == 2;
    var rest := text[3..];
    assert rest == mm + "/" + yyyy;
    assert rest[2] == '/' && IsDigit(rest[0]) && IsDigit(rest[1]);
    assert Find(rest, '/') == 2;
    assert text[..2] == dd && rest[..2] == mm && rest[3..] == yyyy;
    assert DayField(dd) == Some(d.day) by { assert dd[0] != ' '; }
  }

  /** Text with no space is kept by StripTimes, and so is what follows it. */
  lemma {:induction false} StripTimesAfter(a: string, b: string)
    requires ' ' !in a
    ensures StripTimes(a + b) == a + StripTimes(b)
    decreases |a|
  {
    if a != [] {
      var s := a + b;
      assert s[0] == a[0] && s[1..] == a[1..] + b;
      if |s| >= 9 {
        assert !IsTimeSuffix(s[..9]) by { assert s[..9][0] == a[0]; }
      } else {
        StripShort(a, b);
      }
      StripTimesAfter(a[1..], b);
    } else {
      assert a + b == b;
    }
  }

  lemma StripShort(a: string, b: string)
    requires a != [] && |a + b| < 9 && ' ' !in a
    ensures StripTimes(a + b) == a + StripTimes(b)
  {
    assert StripTimes(a + b) == a + b;
    assert |b| < 9;
    assert StripTimes(b) == b;
  }

  /** The bot's timestamps, "dd/mm/yyyy hh:mm:ss", are read as their date. */
  lemma BotDateRoundTrip(d: Date, h: nat, m: nat, s: nat)
    requires ValidDate(d) && h < 100 && m < 100 && s < 100
    ensures BotDate(DateText(d) + TimeText(h, m, s)) == Some(d)
  {
    var t := TimeText(h, m, s);
    var text := DateText(d);
    assert ' ' !in text by {
      var dd, mm := TwoDigits(d.day), TwoDigits(d.month);
      var yyyy := TwoDigits(d.year / 100) + TwoDigits(d.year % 100);
      YearDigits(d.year);
      assert text == dd + "/" + mm + "/" + yyyy;
      forall i | 0 <= i < |text| ensures text[i] != ' ' {
        if i < 2 { assert text[i] == dd[i]; }
        else if 3 <= i < 5 { assert text[i] == mm[i - 3]; }
        else if i >= 6 { assert text[i] == yyyy[i - 6]; }
      }
    }
    StripTimesAfter(text, t);
    assert IsTimeSuffix(t[..9]) && t[9..] == [];
    assert StripTimes(t) == StripTimes([]) == [];
    assert text + [] == text;
    DateRoundTrip(d);
  }

  // ---------------------------------------------------------------------------
  // Frames

  /** Series.astype(float) or to_datetime over a rewritten column: every cell
      converts, or the first that does not is reported. */
  function ParseColumn<R, T>(rows: seq<R>, parse: R -> Option<T>, fail: R -> Error): (r: Result<seq<T>, Error>)
    ensures r.Success? ==> |r.value| == |rows|
    ensures r.Success? ==> forall i :: 0 <= i < |rows| ==> parse(rows[i]) == Some(r.value[i])
    ensures r.Failure? ==> exists i :: 0 <= i < |rows| && parse(rows[i]).None? && r.error == fail(rows[i]) &&
                                       (forall j :: 0 <= j < i ==> parse(rows[j]).Some?)
    ensures r.Success? <==> forall i :: 0 <= i < |rows| ==> parse(rows[i]).Some?
  {
    if rows == [] then Success([])
    else
      match parse(rows[0])
      case None => Failure(fail(rows[0]))
      case Some(v) =>
        match ParseColumn(rows[1..], parse, fail)
        case Failure(e) =>
          var r: Result<seq<T>, Error> := Failure(e);
          assert forall i :: 1 <= i < |rows| ==> rows[1..][i - 1] == rows[i];
          r
        case Success(vs) =>
          assert forall i :: 1 <= i < |rows| ==> rows[1..][i - 1] == rows[i];
          Success([v] + vs)
  }

  /** process_manual_data: valor rewritten and converted to float, then data
      converted to a date, then pagador rewritten. */
  function ProcessManualData(rows: seq<ManualRow>): (r: Result<seq<Expense>, Error>)
    ensures r.Success? ==> |r.value| == |rows|
    ensures r.Success? ==> forall i :: 0 <= i < |rows| ==>
              Some(r.value[i].amount) == ManualAmount(rows[i].valor) &&
              Some(r.value[i].date) == ParseDate(rows[i].data) &&
              r.value[i].payer == ManualPayer(rows[i].pagador)
    ensures r.Success? <==> forall i :: 0 <= i < |rows| ==>
              ManualAmount(rows[i].valor).Some? && ParseDate(rows[i].data).Some?
    ensures (exists i :: 0 <= i < |rows| && ManualAmount(rows[i].valor).None?) ==> r.Failure? && r.error.MalformedAmount?
    ensures ((forall i :: 0 <= i < |rows| ==> ManualAmount(rows[i].valor).Some?) &&
             (exists i :: 0 <= i < |rows| && ParseDate(rows[i].data).None?)) ==> r.Failure? && r.error.MalformedDate?
  {
    match ParseColumn(rows, (row: ManualRow) => ManualAmount(row.valor), (row: ManualRow) => MalformedAmount(ManualAmountText(row.valor)))
    case Failure(e) => Failure(e)
    case Success(amounts) =>
      match ParseColumn(rows, (row: ManualRow) => ParseDate(row.data), (row: ManualRow) => MalformedDate(row.data))
      case Failure(e) =>
        var r: Result<seq<Expense>, Error> := Failure(e);
        r
      case Success(dates) =>
        Success(Zip(dates, amounts, seq(|rows|, i requires 0 <= i < |rows| => ManualPayer(rows[i].pagador))))
  }

  /** The unified frame's rows from its three columns. */
  function Zip(dates: seq<Date>, amounts: seq<real>, payers: seq<string>): (es: seq<Expense>)
    requires |dates| == |amounts| == |payers|
    ensures |es| == |dates|
    ensures forall i :: 0 <= i < |es| ==>
              es[i].date == dates[i] && es[i].amount == amounts[i] && es[i].payer == payers[i]
  {
    seq(|dates|, i requires 0 <= i < |dates| => Expense(dates[i], amounts[i], payers[i]))
  }

  /** process_bot_data: Tipo and Descrição dropped, the rest renamed data,
      valor and pagador; data freed of its time and converted to a date, then
      valor rewritten and converted to float; pagador kept as it is. */
  function ProcessBotData(rows: seq<BotRow>): (r: Result<seq<Expense>, Error>)
    ensures r.Success? ==> |r.value| == |rows|
    ensures r.Success? ==> forall i :: 0 <= i < |rows| ==>
              Some(r.value[i].amount) == BotAmount(rows[i].valor) &&
              Some(r.value[i].date) == BotDate(rows[i].carimbo) &&
              r.value[i].payer == rows[i].responsavel
    ensures r.Success? <==> forall i :: 0 <= i < |rows| ==>
              BotAmount(rows[i].valor).Some? && BotDate(rows[i].carimbo).Some?
    ensures (exists i :: 0 <= i < |rows| && BotDate(rows[i].carimbo).None?) ==> r.Failure? && r.error.MalformedDate?
    ensures ((forall i :: 0 <= i < |rows| ==> BotDate(rows[i].carimbo).Some?) &&
             (exists i :: 0 <= i < |rows| && BotAmount(rows[i].valor).None?)) ==> r.Failure? && r.error.MalformedAmount?
  {
    match ParseColumn(rows, (row: BotRow) => BotDate(row.carimbo), (row: BotRow) => MalformedDate(StripTimes(row.carimbo)))
    case Failure(e) => Failure(e)
    case Success(dates) =>
      match ParseColumn(rows, (row: BotRow) => BotAmount(row.valor), (row: BotRow) => MalformedAmount(BotAmountText(row.valor)))
      case Failure(e) =>
        var r: Result<seq<Expense>, Error> := Failure(e);
        r
      case Success(amounts) =>
        Success(Zip(dates, amounts, seq(|rows|, i requires 0 <= i < |rows| => rows[i].responsavel)))
  }

  /** get_data without the fetches: the manual sheet's expenses, then the bot
      sheet's. Any malformed cell fails the whole read, the manual sheet's
      first. */
  function GetData(manual: seq<ManualRow>, bot: seq<BotRow>): (r: Result<seq<Expense>, Error>)
    ensures r.Success? <==> ProcessManualData(manual).Success? && ProcessBotData(bot).Success?
    ensures r.Success? ==> r.value == ProcessManualData(manual).value + ProcessBotData(bot).value
    ensures ProcessManualData(manual).Failure? ==> r == Failure(ProcessManualData(manual).error)
    ensures ProcessManualData(manual).Success? && ProcessBotData(bot).Failure? ==> r == Failure(ProcessBotData(bot).error)
  {
    var m :- ProcessManualData(manual);
    var b :- ProcessBotData(bot);
    Success(m + b)
  }

  /** A manual sheet of one row whose cells convert is that row's expense. */
  lemma ManualSingleRow(row: ManualRow, d: Date, a: real)
    requires ManualAmount(row.valor) == Some(a) && ParseDate(row.data) == Some(d)
    ensures ProcessManualData([row]) == Success([Expense(d, a, ManualPayer(row.pagador))])
  {
    var r := ProcessManualData([row]);
    assert [row][0] == row;
    assert r.Success?;
    assert |r.value| == 1;
    assert r.value[0] == Expense(d, a, ManualPayer(row.pagador));
    assert r.value == [r.value[0]];
  }

  /** A bot sheet of one row whose cells convert is that row's expense. */
  lemma BotSingleRow(row: BotRow, d: Date, a: real)
    requires BotAmount(row.valor) == Some(a) && BotDate(row.carimbo) == Some(d)
    ensures ProcessBotData([row]) == Success([Expense(d, a, row.responsavel)])
  {
    var r := ProcessBotData([row]);
    assert [row][0] == row;
    assert r.Success?;
    assert |r.value| == 1;
    assert r.value[0] == Expense(d, a, row.responsavel);
    assert r.value == [r.value[0]];
  }

  /** The manual sheet's "R$ 100,00" is 100 reais. */
  lemma ManualAmountExample()
    ensures ManualAmount("R$ 100,00") == Some(100.0)
  {
    assert Reais(10000) == "R$ 100,00" by {
      assert NatToDigits(100) == "100";
    }
    ManualAmountRoundTrip(10000);
  }

  /** The manual sheet's "01/03/2024" is the first of March 2024. */
  lemma ManualDateExample()
    ensures ParseDate("01/03/2024") == Some(Date(1, 3, 2024))
  {
    assert DateText(Date(1, 3, 2024)) == "01/03/2024";
    DateRoundTrip(Date(1, 3, 2024));
  }

  /** The bot's "50,00" is 50 reais. */
  lemma BotAmountExample()
    ensures BotAmount("50,00") == Some(50.0)
  {
    assert BotSpelling(5000) == "50,00" by {
      assert NatToDigits(50) == "50";
    }
    BotAmountRoundTrip(5000);
  }

  /** The bot's stamp "01/03/2024 10:00:00" is the first of March 2024. */
  lemma BotStampExample()
    ensures BotDate("01/03/2024 10:00:00") == Some(Date(1, 3, 2024))
  {
    StampTextExample();
    BotDateRoundTrip(Date(1, 3, 2024), 10, 0, 0);
  }

  lemma StampTextExample()
    ensures DateText(Date(1, 3, 2024)) + TimeText(10, 0, 0) == "01/03/2024 10:00:00"
  {
    TimeTextExample();
    DateTextExample();
    assert "01/03/2024" + " 10:00:00" == "01/03/2024 10:00:00";
  }

  lemma TimeTextExample() ensures TimeText(10, 0, 0) == " 10:00:00" {}

  lemma DateTextExample() ensures DateText(Date(1, 3, 2024)) == "01/03/2024" {}

  /** The manual sheet's "R$ 1.234,56" is 1234.56 reais. */
  lemma ManualThousandsExample()
    ensures ManualAmount("R$ 1.234,56") == Some(1234.56)
  {
    ReaisThousands();
    ManualAmountRoundTrip(123456);
  }

  lemma ReaisThousands()
    ensures Reais(123456) == "R$ 1.234,56"
  {
    DigitsThousand();
    CentsFiftySix();
    ReaisShape(123456, "1.234", "56");
    assert "R$ " + "1.234" + "," + "56" == "R$ 1.234,56";
  }

  lemma ReaisShape(cents: nat, whole: string, frac: string)
    requires Grouped(NatToDigits(cents / 100)) == whole && TwoDigits(cents % 100) == frac
    ensures Reais(cents) == "R$ " + whole + "," + frac
  {
  }

  lemma CentsFiftySix()
    ensures TwoDigits(56) == "56"
  {
  }

  lemma DigitsThousand()
    ensures Grouped(NatToDigits(1234)) == "1.234"
  {
    assert NatToDigits(1234) == "1234";
    assert Grouped("1234") == "1.234" by {
      assert "1234"[..1] == "1" && "1234"[1..] == "234";
    }
  }

  /** The bot's "1234,56" is 1234.56 reais. */
  lemma BotThousandsExample()
    ensures BotAmount("1234,56") == Some(1234.56)
  {
    BotSpellingThousands();
    BotAmountRoundTrip(123456);
  }

  lemma BotSpellingThousands()
    ensures BotSpelling(123456) == "1234,56"
  {
    assert NatToDigits(1234) == "1234";
    CentsFiftySix();
    BotSpellingShape(123456, "1234", "56");
    assert "1234" + "," + "56" == "1234,56";
  }

  lemma BotSpellingShape(cents: nat, whole: string, frac: string)
    requires NatToDigits(cents / 100) == whole && TwoDigits(cents % 100) == frac
    ensures BotSpelling(cents) == whole + "," + frac
  {
  }
}
