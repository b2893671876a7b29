/** The finance summary (pages/Finance.tsx): revenue from approved quotes split into received and
    to-receive, expenses split into paid and unpaid and into category buckets, and the gross and
    net margins. The two collections arrive as sequences; `None` stands for a failed read. */
module Finance {

  import opened Common
  import opened Numeric

  /** A stored quote as the summary reads it; `paid` is the truthiness of the stored flag. */
  datatype Quote = Quote(status: string, total: Option<real>, paid: bool)

  /** A stored expense; `amount` may be absent. */
  datatype Expense = Expense(amount: Option<real>, paid: bool, category: string)

  /** The category buckets of the expense switch. */
  datatype Bucket = Marketing | Labour | Food | Parking | Tools | OtherExpenses

  function BucketOf(category: string): (b: Bucket)
    ensures b == Labour <==> category == "mao-de-obra" || category == "mão de obra"
    ensures b == Food <==> category == "alimentacao" || category == "alimentação"
    ensures b == Marketing <==> category == "marketing"
  {
    match category
    case "marketing" => Marketing
    case "mao-de-obra" => Labour
    case "mão de obra" => Labour
    case "alimentacao" => Food
    case "alimentação" => Food
    case "estacionamento" => Parking
    case "ferramentas" => Tools
    case _ => OtherExpenses
  }

  /** `quote.total || 0`. */
  function QuoteValue(q: Quote): real
  {
    OrElse(q.total, 0.0)
  }

  /** `expense.amount || 0`. */
  function Amount(e: Expense): real
  {
    OrElse(e.amount, 0.0)
  }

  /** `quotes.filter(q => q.status === 'approved')`, in order. */
  function Approved(qs: seq<Quote>): (r: seq<Quote>)
    ensures |r| <= |qs|
    ensures forall i :: 0 <= i < |r| ==> r[i].status == "approved" && r[i] in qs
    ensures forall q :: q in qs && q.status == "approved" ==> q in r
  {
    if qs == [] then []
    else Approved(qs[..|qs| - 1]) + (if qs[|qs| - 1].status == "approved" then [qs[|qs| - 1]] else [])
  }

  /** The quotes whose paid flag is `paid`, in order. */
  function WithPaid(qs: seq<Quote>, paid: bool): (r: seq<Quote>)
    ensures |r| <= |qs|
    ensures forall i :: 0 <= i < |r| ==> r[i].paid == paid && r[i] in qs
    ensures forall q :: q in qs && q.paid == paid ==> q in r
  {
    if qs == [] then []
    else WithPaid(qs[..|qs| - 1], paid) + (if qs[|qs| - 1].paid == paid then [qs[|qs| - 1]] else [])
  }

  /** Filtering keeps the order: the approved quotes of two lists one after the other are
      those of the first list followed by those of the second. */
  lemma {:induction false} ApprovedAppend(a: seq<Quote>, b: seq<Quote>)
    ensures Approved(a + b) == Approved(a) + Approved(b)
    decreases |b|
  {
    if b == [] {
      assert a + b == a;
    } else {
      assert (a + b)[..|a + b| - 1] == a + b[..|b| - 1];
      ApprovedAppend(a, b[..|b| - 1]);
    }
  }

  lemma {:induction false} WithPaidAppend(a: seq<Quote>, b: seq<Quote>, paid: bool)
    ensures WithPaid(a + b, paid) == WithPaid(a, paid) + WithPaid(b, paid)
    decreases |b|
  {
    if b == [] {
      assert a + b == a;
    } else {
      assert (a + b)[..|a + b| - 1] == a + b[..|b| - 1];
      WithPaidAppend(a, b[..|b| - 1], paid);
    }
  }

  /** `reduce((sum, q) => sum + (q.total || 0), 0)`. */
  function QuoteSum(qs: seq<Quote>): real
  {
    if qs == [] then 0.0 else QuoteSum(qs[..|qs| - 1]) + QuoteValue(qs[|qs| - 1])
  }

  lemma {:induction false} QuoteSumAppend(a: seq<Quote>, b: seq<Quote>)
    ensures QuoteSum(a + b) == QuoteSum(a) + QuoteSum(b)
    decreases |b|
  {
    if b == [] {
      assert a + b == a;
    } else {
      assert (a + b)[..|a + b| - 1] == a + b[..|b| - 1];
      QuoteSumAppend(a, b[..|b| - 1]);
    }
  }

  /** Every quote is either paid or not, so what was received and what is still to receive add
      up to the sum of all the quotes. */
  lemma {:induction false} PaidSplit(qs: seq<Quote>)
    ensures QuoteSum(WithPaid(qs, false)) + QuoteSum(WithPaid(qs, true)) == QuoteSum(qs)
  {
    if qs != [] {
      var init, last := qs[..|qs| - 1], qs[|qs| - 1];
      PaidSplit(init);
      QuoteSumAppend(WithPaid(init, false), if !last.paid then [last] else []);
      QuoteSumAppend(WithPaid(init, true), if last.paid then [last] else []);
      assert QuoteSum([last]) == QuoteSum([last][..0]) + QuoteValue(last);
      assert QuoteSum([]) == 0.0;
    }
  }

  datatype Revenue = Revenue(faturamento: real, valoresAReceber: real, recebido: real)

  /** Revenue is the sum over approved quotes; what is to receive and what was received are the
      sums over its unpaid and paid parts. */
  function RevenueOf(qs: seq<Quote>): (r: Revenue)
    ensures r.valoresAReceber + r.recebido == r.faturamento
  {
    var approved := Approved(qs);
    PaidSplit(approved);
    Revenue(QuoteSum(approved), QuoteSum(WithPaid(approved, false)), QuoteSum(WithPaid(approved, true)))
  }

  /** Quotes that are not approved do not count towards revenue. */
  lemma {:induction false} ApprovedOnly(qs: seq<Quote>, q: Quote)
    requires q.status != "approved"
    ensures RevenueOf(qs + [q]) == RevenueOf(qs)
  {
    assert (qs + [q])[..|qs + [q]| - 1] == qs;
    assert Approved(qs + [q]) == Approved(qs) + [];
    assert Approved(qs) + [] == Approved(qs);
  }

  /** The sum of the amounts of the expenses whose paid flag is `paid`. */
  function PaidSum(es: seq<Expense>, paid: bool): real
  {
    if es == [] then 0.0
    else PaidSum(es[..|es| - 1], paid) + (if es[|es| - 1].paid == paid then Amount(es[|es| - 1]) else 0.0)
  }

  /** The sum of the amounts of the expenses that fall in bucket `b`. */
  function BucketSum(es: seq<Expense>, b: Bucket): real
  {
    if es == [] then 0.0
    else BucketSum(es[..|es| - 1], b) + (if BucketOf(es[|es| - 1].category) == b then Amount(es[|es| - 1]) else 0.0)
  }

  /** The sum of all the amounts. */
  function AmountSum(es: seq<Expense>): real
  {
    if es == [] then 0.0 else AmountSum(es[..|es| - 1]) + Amount(es[|es| - 1])
  }

  /** Each expense is added to exactly one of paid and unpaid. */
  lemma {:induction false} ExpensePaidSplit(es: seq<Expense>)
    ensures PaidSum(es, true) + PaidSum(es, false) == AmountSum(es)
  {
    if es != [] {
      ExpensePaidSplit(es[..|es| - 1]);
    }
  }

  /** Each expense lands in exactly one bucket, so the six buckets add up to all the amounts. */
  lemma {:induction false} BucketsPartition(es: seq<Expense>)
    ensures BucketSum(es, Marketing) + BucketSum(es, Labour) + BucketSum(es, Food)
            + BucketSum(es, Parking) + BucketSum(es, Tools) + BucketSum(es, OtherExpenses)
            == AmountSum(es)
  {
    if es != [] {
      BucketsPartition(es[..|es| - 1]);
    }
  }

  datatype ExpenseTotals = ExpenseTotals(
    contasAPagar: real, contasPagas: real, investimentoMarketing: real, maoDeObra: real,
    alimentacao: real, estacionamento: real, ferramentas: real, outrasDespesas: real)

  /** The expense loop (lines 66-112). A failed read leaves every total at 0; otherwise each
      total is the sum of the amounts it selects. */
  method AggregateExpenses(expenses: Option<seq<Expense>>) returns (t: ExpenseTotals)
    ensures expenses.None? ==> t == ExpenseTotals(0.0, 0.0, 0.0, 0.0, 0.0, 0.0, 0.0, 0.0)
    ensures expenses.Some? ==>
      var es := expenses.value;
      && t.contasPagas == PaidSum(es, true) && t.contasAPagar == PaidSum(es, false)
      && t.investimentoMarketing == BucketSum(es, Marketing) && t.maoDeObra == BucketSum(es, Labour)
      && t.alimentacao == BucketSum(es, Food) && t.estacionamento == BucketSum(es, Parking)
      && t.ferramentas == BucketSum(es, Tools) && t.outrasDespesas == BucketSum(es, OtherExpenses)
  {
    var contasAPagar, contasPagas := 0.0, 0.0;
    var investimentoMarketing, maoDeObra, alimentacao := 0.0, 0.0, 0.0;
    var estacionamento, ferramentas, outrasDespesas := 0.0, 0.0, 0.0;
    if expenses.Some? {
      var es := expenses.value;
      var i := 0;
      while i < |es|
        invariant 0 <= i <= |es|
        invariant contasPagas == PaidSum(es[..i], true) && contasAPagar == PaidSum(es[..i], false)
        invariant investimentoMarketing == BucketSum(es[..i], Marketing)
        invariant maoDeObra == BucketSum(es[..i], Labour)
        invariant alimentacao == BucketSum(es[..i], Food)
        invariant estacionamento == BucketSum(es[..i], Parking)
        invariant ferramentas == BucketSum(es[..i], Tools)
        invariant outrasDespesas == BucketSum(es[..i], OtherExpenses)
      {
        var expense := es[i];
        var amount := Amount(expense);
        assert es[..i + 1][..i] == es[..i];
        if expense.paid {
          contasPagas := contasPagas + amount;
        } else {
          contasAPagar := contasAPagar + amount;
        }
        match expense.category {
          case "marketing" =>
            investimentoMarketing := investimentoMarketing + amount;
          case "mao-de-obra" =>
            maoDeObra := maoDeObra + amount;
          case "mão de obra" =>
            maoDeObra := maoDeObra + amount;
          case "alimentacao" =>
            alimentacao := alimentacao + amount;
          case "alimentação" =>
            alimentacao := alimentacao + amount;
          case "estacionamento" =>
            estacionamento := estacionamento + amount;
          case "ferramentas" =>
            ferramentas := ferramentas + amount;
          case _ =>
            outrasDespesas := outrasDespesas + amount;
        }
        i := i + 1;
      }
      assert es[..|es|] == es;
    }
    t := ExpenseTotals(contasAPagar, contasPagas, investimentoMarketing, maoDeObra, alimentacao,
                       estacionamento, ferramentas, outrasDespesas);
  }

  datatype Margins = Margins(margemBruta: real, lucroLiquido: real, margemLiquida: real)

  /** The margin formulas (lines 115-118); the cost is what was paid. */
  function MarginsOf(faturamento: real, contasPagas: real, investimentoMarketing: real): (m: Margins)
    ensures m.lucroLiquido == faturamento - contasPagas - investimentoMarketing
    ensures faturamento <= 0.0 ==> m.margemBruta == 0.0 && m.margemLiquida == 0.0
    ensures faturamento > 0.0 ==>
      && m.margemBruta * faturamento == (faturamento - contasPagas) * 100.0
      && m.margemLiquida * faturamento == m.lucroLiquido * 100.0
  {
    var custos := contasPagas;
    var lucroLiquido := faturamento - custos - investimentoMarketing;
    if faturamento > 0.0 then
      DivMul(faturamento - custos, faturamento);
      DivMul(lucroLiquido, faturamento);
      Margins((faturamento - custos) / faturamento * 100.0, lucroLiquido, lucroLiquido / faturamento * 100.0)
    else
      Margins(0.0, lucroLiquido, 0.0)
  }

  /** A paid marketing expense counts both as paid cost and as marketing, so it lowers the net
      profit by twice its amount. */
  lemma PaidMarketingCountedTwice(es: seq<Expense>, e: Expense, faturamento: real)
    requires e.paid && e.category == "marketing"
    ensures var before := MarginsOf(faturamento, PaidSum(es, true), BucketSum(es, Marketing));
            var after := MarginsOf(faturamento, PaidSum(es + [e], true), BucketSum(es + [e], Marketing));
      after.lucroLiquido == before.lucroLiquido - 2.0 * Amount(e)
  {
    assert (es + [e])[..|es + [e]| - 1] == es;
  }

  datatype FinanceStats = FinanceStats(revenue: Revenue, expenses: ExpenseTotals, margins: Margins)

  /** `loadFinanceData`: a failed read of the quotes yields no statistics; otherwise revenue,
      expense totals and margins as above. */
  method LoadFinanceData(quotes: Option<seq<Quote>>, expenses: Option<seq<Expense>>)
    returns (stats: Option<FinanceStats>)
    ensures quotes.None? <==> stats.None?
    ensures stats.Some? ==>
      var s := stats.value;
      && s.revenue == RevenueOf(quotes.value)
      && s.margins == MarginsOf(s.revenue.faturamento, s.expenses.contasPagas, s.expenses.investimentoMarketing)
      && (expenses.Some? ==>
            var es := expenses.value;
            && s.expenses.contasPagas == PaidSum(es, true) && s.expenses.contasAPagar == PaidSum(es, false)
            && s.expenses.investimentoMarketing == BucketSum(es, Marketing)
            && s.expenses.maoDeObra == BucketSum(es, Labour)
            && s.expenses.alimentacao == BucketSum(es, Food)
            && s.expenses.estacionamento == BucketSum(es, Parking)
            && s.expenses.ferramentas == BucketSum(es, Tools)
            && s.expenses.outrasDespesas == BucketSum(es, OtherExpenses))
      && (expenses.Some? ==> s.expenses.contasPagas + s.expenses.contasAPagar == AmountSum(expenses.value))
      && (expenses.Some? ==>
            s.expenses.investimentoMarketing + s.expenses.maoDeObra + s.expenses.alimentacao
            + s.expenses.estacionamento + s.expenses.ferramentas + s.expenses.outrasDespesas
            == s.expenses.contasPagas + s.expenses.contasAPagar)
      && (expenses.None? ==> s.expenses == ExpenseTotals(0.0, 0.0, 0.0, 0.0, 0.0, 0.0, 0.0, 0.0))
  {
    if quotes.None? {
      return None;
    }
    var revenue := RevenueOf(quotes.value);
    var totals := AggregateExpenses(expenses);
    if expenses.Some? {
      ExpensePaidSplit(expenses.value);
      BucketsPartition(expenses.value);
    }
    var margins := MarginsOf(revenue.faturamento, totals.contasPagas, totals.investimentoMarketing);
    stats := Some(FinanceStats(revenue, totals, margins));
  }
}
