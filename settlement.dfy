/** The /fechamento computation: the month's expenses, their total, what each
    of the three residents paid, the share each owes under the fixed split,
    and each one's balance. Money that is rounded is in integer cents; the
    amounts read from the sheets and their per-payer sums are exact reals. */
module Settlement {
  import opened Wrappers
  import opened Text
  import opened Normalize

  // ---------------------------------------------------------------------------
  // process_args

  /** IndexError for a missing month, ValueError for text int() rejects. */
  datatype ArgsError = MissingMonth | NotAnInteger(text: string)

  /** process_args(args): the month from the first argument, the year from the
      second or, when there is none, the current year (a parameter here: the
      source reads the clock). Further arguments are ignored, and neither
      number is range-checked. */
  function ProcessArgs(args: seq<string>, currentYear: int): (r: Result<(int, int), ArgsError>)
    ensures args == [] ==> r == Failure(MissingMonth)
    ensures r.Success? <==> args != [] && ParseInt(args[0]).Some? && (|args| >= 2 ==> ParseInt(args[1]).Some?)
    ensures r.Success? ==> Some(r.value.0) == ParseInt(args[0])
    ensures r.Success? ==> r.value.1 == if |args| == 1 then currentYear else ParseInt(args[1]).value
    ensures args != [] && ParseInt(args[0]).None? ==> r == Failure(NotAnInteger(args[0]))
    ensures |args| >= 2 && ParseInt(args[0]).Some? && ParseInt(args[1]).None? ==> r == Failure(NotAnInteger(args[1]))
  {
    if args == [] then Failure(MissingMonth)
    else
      match ParseInt(args[0])
      case None => Failure(NotAnInteger(args[0]))
      case Some(month) =>
        if |args| == 1 then Success((month, currentYear))
        else
          match ParseInt(args[1])
          case None => Failure(NotAnInteger(args[1]))
          case Some(year) => Success((month, year))
  }

  /** Month and year written as numbers are read back; a missing year is the
      current one. */
  lemma ProcessArgsRoundTrip(month: int, year: int, currentYear: int)
    ensures ProcessArgs([IntToString(month), IntToString(year)], currentYear) == Success((month, year))
    ensures ProcessArgs([IntToString(month)], currentYear) == Success((month, currentYear))
  {
    IntRoundTrip(month);
    IntRoundTrip(year);
  }

  /** A year that is not a number is an error, not the current year. */
  lemma ProcessArgsBadYear(currentYear: int)
    ensures ProcessArgs(["3", "x"], currentYear) == Failure(NotAnInteger("x"))
  {
    ParseThree();
    ParseX();
    var args := ["3", "x"];
    assert |args| == 2 && args[0] == "3" && args[1] == "x";
  }

  // ---------------------------------------------------------------------------
  // filter_target_month

  predicate InMonth(e: Expense, month: int, year: int)
  {
    e.date.month == month && e.date.year == year
  }

  /** filter_target_month: the expenses dated in the given month of the given
      year, in their original order. */
  function FilterTargetMonth(records: seq<Expense>, month: int, year: int): (r: seq<Expense>)
    ensures forall i :: 0 <= i < |r| ==> InMonth(r[i], month, year)
    ensures forall e :: multiset(r)[e] == if InMonth(e, month, year) then multiset(records)[e] else 0
  {
    if records == [] then []
    else
      var rest := FilterTargetMonth(records[1..], month, year);
      assert records == [records[0]] + records[1..];
      assert multiset(records) == multiset{records[0]} + multiset(records[1..]);
      if InMonth(records[0], month, year) then [records[0]] + rest else rest
  }

  /** Filtering keeps order: it distributes over concatenation. */
  lemma {:induction false} FilterConcat(a: seq<Expense>, b: seq<Expense>, month: int, year: int)
    ensures FilterTargetMonth(a + b, month, year) == FilterTargetMonth(a, month, year) + FilterTargetMonth(b, month, year)
  {
    if a == [] {
      assert a + b == b;
    } else {
      assert (a + b)[0] == a[0] && (a + b)[1..] == a[1..] + b;
      FilterConcat(a[1..], b, month, year);
    }
  }

  // ---------------------------------------------------------------------------
  // Rounding

  /** Python's round(x) on the exact value: to the nearest integer, ties to
      the even one. */
  function RoundHalfEven(x: real): (n: int)
    ensures x - 0.5 <= n as real <= x + 0.5
    ensures (n as real == x + 0.5 || n as real == x - 0.5) ==> n % 2 == 0
  {
    var f := x.Floor;
    var d := x - f as real;
    if d < 0.5 then f else if d > 0.5 then f + 1 else if f % 2 == 0 then f else f + 1
  }

  /** round(x, 2) for an amount in reais, as a number of cents. */
  function RoundCents(x: real): (cents: int)
    ensures x * 100.0 - 0.5 <= cents as real <= x * 100.0 + 0.5
  {
    RoundHalfEven(x * 100.0)
  }

  lemma RoundWhole(n: int)
    ensures RoundHalfEven(n as real) == n
  {
  }

  // ---------------------------------------------------------------------------
  // calculate_total_expenses

  function Sum(records: seq<Expense>): real
  {
    if records == [] then 0.0 else records[0].amount + Sum(records[1..])
  }

  lemma {:induction false} SumConcat(a: seq<Expense>, b: seq<Expense>)
    ensures Sum(a + b) == Sum(a) + Sum(b)
  {
    if a == [] {
      assert a + b == b;
    } else {
      assert (a + b)[0] == a[0] && (a + b)[1..] == a[1..] + b;
      SumConcat(a[1..], b);
    }
  }

  /** calculate_total_expenses: the sum of the amounts, in cents, within half
      a cent of the exact sum. */
  function CalculateTotalExpenses(records: seq<Expense>): (cents: int)
    ensures Sum(records) * 100.0 - 0.5 <= cents as real <= Sum(records) * 100.0 + 0.5
  {
    RoundCents(Sum(records))
  }

  // ---------------------------------------------------------------------------
  // calculate_payments_breakdown

  /** The residents, in the order the breakdown loop visits them. */
  const Participants: seq<string> := ["bruno", "joão", "raissa"]

  const ParticipantSet: set<string> := {"bruno", "joão", "raissa"}

  /** The sum of the amounts a payer paid. */
  function PaidBy(records: seq<Expense>, payer: string): real
  {
    if records == [] then 0.0
    else (if records[0].payer == payer then records[0].amount else 0.0) + PaidBy(records[1..], payer)
  }

  function Payers(records: seq<Expense>): set<string>
  {
    set i | 0 <= i < |records| :: records[i].payer
  }

  /** groupby("pagador").sum("valor"): one group per payer that occurs, with
      the sum of that payer's amounts. */
  function GroupByPayer(records: seq<Expense>): (groups: map<string, real>)
    ensures groups.Keys == Payers(records)
    ensures forall p :: p in groups ==> groups[p] == PaidBy(records, p)
  {
    if records == [] then map[]
    else
      var rest := GroupByPayer(records[1..]);
      var e := records[0];
      assert Payers(records) == {e.payer} + Payers(records[1..]) by {
        forall p | p in Payers(records) ensures p in {e.payer} + Payers(records[1..]) {
          var i :| 0 <= i < |records| && records[i].payer == p;
          if i > 0 { assert records[1..][i - 1] == records[i]; }
        }
        forall p | p in Payers(records[1..]) ensures p in Payers(records) {
          var i :| 0 <= i < |records[1..]| && records[1..][i].payer == p;
          assert records[i + 1] == records[1..][i];
        }
      }
      assert e.payer !in rest ==> PaidBy(records[1..], e.payer) == 0.0 by {
        if e.payer !in rest { PaidByNobody(records[1..], e.payer); }
      }
      rest[e.payer := e.amount + (if e.payer in rest then rest[e.payer] else 0.0)]
  }

  /** A payer with no expense has paid exactly 0. */
  lemma {:induction false} PaidByNobody(records: seq<Expense>, payer: string)
    requires payer !in Payers(records)
    ensures PaidBy(records, payer) == 0.0
  {
    if records != [] {
      assert records[0].payer in Payers(records);
      assert Payers(records[1..]) <= Payers(records) by {
        forall p | p in Payers(records[1..]) ensures p in Payers(records) {
          var i :| 0 <= i < |records[1..]| && records[1..][i].payer == p;
          assert records[i + 1] == records[1..][i];
        }
      }
      PaidByNobody(records[1..], payer);
    }
  }

  /** What each resident paid, 0 for one with no expense. */
  function PaidMap(records: seq<Expense>): (paid: map<string, real>)
    ensures paid.Keys == ParticipantSet
  {
    map p | p in ParticipantSet :: PaidBy(records, p)
  }

  /** calculate_payments_breakdown: the groups' sums looked up for each
      resident in turn, a missing group (KeyError) standing for 0. */
  method CalculatePaymentsBreakdown(records: seq<Expense>) returns (paymentsDone: map<string, real>)
    ensures paymentsDone.Keys == ParticipantSet
    ensures forall p :: p in paymentsDone ==> paymentsDone[p] == PaidBy(records, p)
    ensures paymentsDone == PaidMap(records)
  {
    var breakdown := GroupByPayer(records);
    paymentsDone := map[];
    for i := 0 to |Participants|
      invariant paymentsDone.Keys == set j | 0 <= j < i :: Participants[j]
      invariant forall p :: p in paymentsDone ==> paymentsDone[p] == PaidBy(records, p)
    {
      var person := Participants[i];
      if person in breakdown {
        paymentsDone := paymentsDone[person := breakdown[person]];
      } else {
        PaidByNobody(records, person);
        paymentsDone := paymentsDone[person := 0.0];
      }
      assert (set j | 0 <= j < i + 1 :: Participants[j]) == (set j | 0 <= j < i :: Participants[j]) + {person};
    }
    assert (set j | 0 <= j < 3 :: Participants[j]) == ParticipantSet by {
      assert Participants[0] == "bruno" && Participants[1] == "joão" && Participants[2] == "raissa";
    }
  }

  /** The amounts of payers outside the three residents. */
  function Unattributed(records: seq<Expense>): real
  {
    if records == [] then 0.0
    else (if records[0].payer in ParticipantSet then 0.0 else records[0].amount) + Unattributed(records[1..])
  }

  /** The total counts every expense: what the three residents paid plus what
      anyone else (a misspelt or differently-cased name) paid. */
  lemma {:induction false} SumSplitsByPayer(records: seq<Expense>)
    ensures Sum(records) == PaidBy(records, "bruno") + PaidBy(records, "joão") + PaidBy(records, "raissa") + Unattributed(records)
  {
    if records != [] {
      SumSplitsByPayer(records[1..]);
    }
  }

  // ---------------------------------------------------------------------------
  // calculate_cost_division

  /** The fixed split in basis points: 36.42%, 36.42% and 27.16%, summing to
      10000. */
  const Ratios: map<string, int> := map["bruno" := 3642, "joão" := 3642, "raissa" := 2716]

  /** round(total * ratio, 2) for a total in cents: within half a cent of the
      exact share. */
  function Share(totalCents: int, basisPoints: int): (cents: int)
    ensures (totalCents * basisPoints) as real / 10000.0 - 0.5 <= cents as real
    ensures cents as real <= (totalCents * basisPoints) as real / 10000.0 + 0.5
  {
    RoundHalfEven((totalCents * basisPoints) as real / 10000.0)
  }

  /** Each resident's share of a total. */
  function CostDivision(totalCents: int): (division: map<string, int>)
    ensures division.Keys == ParticipantSet
  {
    map p | p in ParticipantSet :: Share(totalCents, Ratios[p])
  }

  /** calculate_cost_division: the three shares assigned one after another. */
  method CalculateCostDivision(totalCents: int) returns (costDivision: map<string, int>)
    ensures costDivision.Keys == ParticipantSet
    ensures forall p :: p in costDivision ==> costDivision[p] == Share(totalCents, Ratios[p])
    ensures costDivision == CostDivision(totalCents)
  {
    costDivision := map[];
    costDivision := costDivision["bruno" := Share(totalCents, 3642)];
    costDivision := costDivision["joão" := Share(totalCents, 3642)];
    costDivision := costDivision["raissa" := Share(totalCents, 2716)];
  }

  /** The shares are not corrected to add up to the total: each is rounded on
      its own, so together they are off by at most one cent. */
  lemma ShareDrift(totalCents: int)
    ensures var d := CostDivision(totalCents);
            -1 <= d["bruno"] + d["joão"] + d["raissa"] - totalCents <= 1
  {
    var d := CostDivision(totalCents);
    var t := totalCents as real;
    assert (totalCents * 3642) as real == t * 3642.0;
    assert (totalCents * 2716) as real == t * 2716.0;
    var sum := d["bruno"] + d["joão"] + d["raissa"];
    assert sum as real - t <= 1.5 && sum as real - t >= -1.5;
  }

  /** The cent of drift does happen: one cent splits into three zero shares. */
  lemma ShareDriftHappens()
    ensures var d := CostDivision(1); d["bruno"] + d["joão"] + d["raissa"] == 0
  {
    var d := CostDivision(1);
    assert d["bruno"] == RoundHalfEven(0.3642);
    assert d["raissa"] == RoundHalfEven(0.2716);
  }

  // ---------------------------------------------------------------------------
  // calculate_final_balance

  /** calculate_final_balance: for every key of the division, round(share -
      paid, 2), in cents. A key the division has and the payments lack would
      raise KeyError. */
  function CalculateFinalBalance(costDivision: map<string, int>, paymentsDone: map<string, real>): (balance: map<string, int>)
    requires costDivision.Keys <= paymentsDone.Keys
    ensures balance.Keys == costDivision.Keys
    ensures forall p :: p in balance ==>
              costDivision[p] as real - paymentsDone[p] * 100.0 - 0.5 <= balance[p] as real <=
              costDivision[p] as real - paymentsDone[p] * 100.0 + 0.5
  {
    map p | p in costDivision :: RoundCents(costDivision[p] as real / 100.0 - paymentsDone[p])
  }

  /** When what someone paid is a whole number of cents, the balance is exact. */
  lemma BalanceExact(costDivision: map<string, int>, paymentsDone: map<string, real>, p: string, paidCents: int)
    requires costDivision.Keys <= paymentsDone.Keys && p in costDivision
    requires paymentsDone[p] == paidCents as real / 100.0
    ensures CalculateFinalBalance(costDivision, paymentsDone)[p] == costDivision[p] - paidCents
  {
    var x := costDivision[p] as real / 100.0 - paymentsDone[p];
    assert x * 100.0 == (costDivision[p] - paidCents) as real;
    RoundWhole(costDivision[p] - paidCents);
  }

  // ---------------------------------------------------------------------------
  // The report

  /** total_month, cost_division, payments_breakdown and final_balance. */
  datatype Report = Report(total: int, division: map<string, int>, paid: map<string, real>, balance: map<string, int>)

  /** The computation of fechamento_command once data and arguments are in. */
  function Settle(records: seq<Expense>, month: int, year: int): (report: Report)
    ensures report.division.Keys == report.paid.Keys == report.balance.Keys == ParticipantSet
  {
    var target := FilterTargetMonth(records, month, year);
    var total := CalculateTotalExpenses(target);
    var paid := PaidMap(target);
    var division := CostDivision(total);
    Report(total, division, paid, CalculateFinalBalance(division, paid))
  }

  /** A month without expenses is all zeros, with every resident present. */
  lemma EmptyMonth(records: seq<Expense>, month: int, year: int)
    requires forall i :: 0 <= i < |records| ==> !InMonth(records[i], month, year)
    ensures var report := Settle(records, month, year);
            report.total == 0 &&
            (forall p :: p in ParticipantSet ==> report.division[p] == 0 && report.paid[p] == 0.0 && report.balance[p] == 0)
  {
    var target := FilterTargetMonth(records, month, year);
    assert target == [];
    assert CalculateTotalExpenses(target) == 0 by { RoundWhole(0); }
    RoundWhole(0);
    var report := Settle(records, month, year);
    forall p | p in ParticipantSet
      ensures report.division[p] == 0 && report.paid[p] == 0.0 && report.balance[p] == 0
    {
      assert report.division[p] == Share(0, Ratios[p]) == 0;
      BalanceExact(report.division, report.paid, p, 0);
    }
  }

  /** fechamento_command's failures: the sheets could not be read, or the
      arguments are wrong. */
  datatype ReportError = BadData(error: Normalize.Error) | BadArgs(argsError: ArgsError)

  /** get_data, then process_args, then the settlement: sheet errors are
      reported before argument errors. */
  function Fechamento(manual: seq<ManualRow>, bot: seq<BotRow>, args: seq<string>, currentYear: int): (r: Result<Report, ReportError>)
    ensures GetData(manual, bot).Failure? ==> r == Failure(BadData(GetData(manual, bot).error))
    ensures GetData(manual, bot).Success? && ProcessArgs(args, currentYear).Failure? ==>
              r == Failure(BadArgs(ProcessArgs(args, currentYear).error))
    ensures r.Success? <==> GetData(manual, bot).Success? && ProcessArgs(args, currentYear).Success?
    ensures r.Success? ==> r.value == Settle(GetData(manual, bot).value,
                                             ProcessArgs(args, currentYear).value.0,
                                             ProcessArgs(args, currentYear).value.1)
  {
    match GetData(manual, bot)
    case Failure(e) => Failure(BadData(e))
    case Success(records) =>
      match ProcessArgs(args, currentYear)
      case Failure(e) => Failure(BadArgs(e))
      case Success(period) => Success(Settle(records, period.0, period.1))
  }

  /** March 2024 with expenses of 100,00 paid by bruno and 50,00 paid by
      raissa: a total of 150,00 split 54,63 / 54,63 / 40,74, so bruno is owed
      45,37, joão owes 54,63 and raissa is owed 9,26. */
  lemma SettleExample()
    ensures var report := Settle([Expense(Date(1, 3, 2024), 100.0, "bruno"), Expense(Date(1, 3, 2024), 50.0, "raissa")], 3, 2024);
            report.total == 15000 &&
            report.division == map["bruno" := 5463, "joão" := 5463, "raissa" := 4074] &&
            report.paid == map["bruno" := 100.0, "joão" := 0.0, "raissa" := 50.0] &&
            report.balance == map["bruno" := -4537, "joão" := 5463, "raissa" := -926]
  {
    var records := [Expense(Date(1, 3, 2024), 100.0, "bruno"), Expense(Date(1, 3, 2024), 50.0, "raissa")];
    ExampleTarget(records);
    ExampleShares();
    ExamplePaid(records);
    ExampleBalance();
  }

  lemma ExampleTarget(records: seq<Expense>)
    requires records == [Expense(Date(1, 3, 2024), 100.0, "bruno"), Expense(Date(1, 3, 2024), 50.0, "raissa")]
    ensures FilterTargetMonth(records, 3, 2024) == records
    ensures CalculateTotalExpenses(records) == 15000
  {
    var tail := records[1..];
    assert tail[1..] == [];
    assert Sum(tail) == 50.0;
    assert Sum(records) == 150.0;
    assert Sum(records) * 100.0 == 15000 as real;
    RoundWhole(15000);
  }

  lemma ExampleShares()
    ensures CostDivision(15000) == map["bruno" := 5463, "joão" := 5463, "raissa" := 4074]
  {
    var division := CostDivision(15000);
    assert (15000 * 3642) as real / 10000.0 == 5463 as real;
    assert (15000 * 2716) as real / 10000.0 == 4074 as real;
    RoundWhole(5463);
    RoundWhole(4074);
    assert division["bruno"] == 5463 && division["joão"] == 5463 && division["raissa"] == 4074;
  }

  lemma ExamplePaid(records: seq<Expense>)
    requires records == [Expense(Date(1, 3, 2024), 100.0, "bruno"), Expense(Date(1, 3, 2024), 50.0, "raissa")]
    ensures PaidMap(records) == map["bruno" := 100.0, "joão" := 0.0, "raissa" := 50.0]
  {
    var paid := PaidMap(records);
    var tail := records[1..];
    assert tail[1..] == [];
    assert PaidBy(tail, "bruno") == 0.0 && PaidBy(tail, "joão") == 0.0 && PaidBy(tail, "raissa") == 50.0;
    assert paid["bruno"] == 100.0 && paid["joão"] == 0.0 && paid["raissa"] == 50.0;
  }

  lemma ExampleBalance()
    ensures CalculateFinalBalance(map["bruno" := 5463, "joão" := 5463, "raissa" := 4074],
                                  map["bruno" := 100.0, "joão" := 0.0, "raissa" := 50.0])
            == map["bruno" := -4537, "joão" := 5463, "raissa" := -926]
  {
    var division := map["bruno" := 5463, "joão" := 5463, "raissa" := 4074];
    var paid := map["bruno" := 100.0, "joão" := 0.0, "raissa" := 50.0];
    BalanceExact(division, paid, "bruno", 10000);
    BalanceExact(division, paid, "joão", 0);
    BalanceExact(division, paid, "raissa", 5000);
    var balance := CalculateFinalBalance(division, paid);
    assert balance["bruno"] == -4537 && balance["joão"] == 5463 && balance["raissa"] == -926;
  }

  /** "/fechamento 3" in 2024 over a manual sheet of one row (100,00 paid by
      bruno on 01/03/2024) and a bot sheet of one row (50,00 registered by
      raissa on the same day) gives the report of SettleExample. The
      requires fix only what each cell converts to; ManualAmountExample,
      ManualDateExample, ManualPayerExamples, BotAmountExample and
      BotStampExample show cells such as "R$ 100,00", "01/03/2024", "Bruno",
      "50,00" and "01/03/2024 10:00:00" meeting them. */
  lemma FechamentoFromRows(m: ManualRow, b: BotRow)
    requires ManualAmount(m.valor) == Some(100.0) && ParseDate(m.data) == Some(Date(1, 3, 2024))
    requires ManualPayer(m.pagador) == "bruno"
    requires BotAmount(b.valor) == Some(50.0) && BotDate(b.carimbo) == Some(Date(1, 3, 2024))
    requires b.responsavel == "raissa"
    ensures var r := Fechamento([m], [b], ["3"], 2024);
            r.Success? &&
            r.value.total == 15000 &&
            r.value.division == map["bruno" := 5463, "joão" := 5463, "raissa" := 4074] &&
            r.value.paid == map["bruno" := 100.0, "joão" := 0.0, "raissa" := 50.0] &&
            r.value.balance == map["bruno" := -4537, "joão" := 5463, "raissa" := -926]
  {
    var records := [Expense(Date(1, 3, 2024), 100.0, "bruno"), Expense(Date(1, 3, 2024), 50.0, "raissa")];
    ExampleSheets(m, b);
    ProcessArgsMonthOnly();
    assert Fechamento([m], [b], ["3"], 2024) == Success(Settle(records, 3, 2024));
    SettleExample();
  }

  lemma ExampleSheets(m: ManualRow, b: BotRow)
    requires ManualAmount(m.valor) == Some(100.0) && ParseDate(m.data) == Some(Date(1, 3, 2024))
    requires ManualPayer(m.pagador) == "bruno"
    requires BotAmount(b.valor) == Some(50.0) && BotDate(b.carimbo) == Some(Date(1, 3, 2024))
    requires b.responsavel == "raissa"
    ensures GetData([m], [b]) == Success([Expense(Date(1, 3, 2024), 100.0, "bruno"), Expense(Date(1, 3, 2024), 50.0, "raissa")])
  {
    var e1 := Expense(Date(1, 3, 2024), 100.0, "bruno");
    var e2 := Expense(Date(1, 3, 2024), 50.0, "raissa");
    ManualSingleRow(m, Date(1, 3, 2024), 100.0);
    BotSingleRow(b, Date(1, 3, 2024), 50.0);
    SheetsOfOneRow(m, b, e1, e2);
  }

  lemma SheetsOfOneRow(m: ManualRow, b: BotRow, e1: Expense, e2: Expense)
    requires ProcessManualData([m]) == Success([e1]) && ProcessBotData([b]) == Success([e2])
    ensures GetData([m], [b]) == Success([e1, e2])
  {
    SheetsRead([m], [b], [e1], [e2]);
    assert [e1] + [e2] == [e1, e2];
  }

  lemma SheetsRead(manual: seq<ManualRow>, bot: seq<BotRow>, fromManual: seq<Expense>, fromBot: seq<Expense>)
    requires ProcessManualData(manual) == Success(fromManual) && ProcessBotData(bot) == Success(fromBot)
    ensures GetData(manual, bot) == Success(fromManual + fromBot)
  {
  }

  /** "/fechamento 3" in 2024 is March 2024. */
  lemma ProcessArgsMonthOnly()
    ensures ProcessArgs(["3"], 2024) == Success((3, 2024))
  {
    ParseThree();
  }

  lemma ParseThree()
    ensures ParseInt("3") == Some(3)
  {
    DigitsInt("3");
  }

  lemma ParseX()
    ensures ParseInt("x") == None
  {
    StripNoSpace("x");
  }
}
