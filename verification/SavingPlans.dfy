/** The Savings Plans fee of the organisation, shared out by covered usage under split billing. */
module SavingPlans {
  import opened Money
  import opened Usage
  import opened Lines

  /** A covered account and its covered usage. */
  type Covered = seq<(string, real)>

  /** The recurring fee, with the identification of its first metric. */
  datatype Fee = Fee(total: real, service: string, entity: string, invoiceId: string)

  function CoveredAmount(): Amount {
    (usage: Metrics, m: Metric) => if m.recordType == CoveredUsage then m.amount else 0.0
  }

  /** The covered usage of the first `n` accounts, for those where it is positive. */
  function CoveredTo(accounts: Accounts, n: nat): Covered
    requires n <= |accounts|
  {
    if n == 0 then []
    else
      var (id, usage) := accounts[n - 1];
      var amount := Sum(usage, |usage|, CoveredAmount());
      CoveredTo(accounts, n - 1) + if amount > 0.0 then [(id, amount)] else []
  }

  function CoveredBy(accounts: Accounts): Covered {
    CoveredTo(accounts, |accounts|)
  }

  function FeeTotal(accounts: Accounts, invoice: Invoice): real {
    Total(accounts, OfTypes({SavingPlanFee}, invoice))
  }

  function FirstFeeIn(usage: Metrics, n: nat): Option<Metric>
    requires n <= |usage|
  {
    if n == 0 then None
    else
      var before := FirstFeeIn(usage, n - 1);
      if before.None? && usage[n - 1].recordType == SavingPlanFee then Some(usage[n - 1]) else before
  }

  function FirstFee(accounts: Accounts, n: nat): Option<Metric>
    requires n <= |accounts|
  {
    if n == 0 then None
    else
      var before := FirstFee(accounts, n - 1);
      if before.None? then FirstFeeIn(accounts[n - 1].1, |accounts[n - 1].1|) else before
  }

  /** `_collect_recurring_fee`. */
  function CollectFee(accounts: Accounts, invoice: Invoice): Fee {
    match FirstFee(accounts, |accounts|)
    case None => Fee(0.0, "", "", "")
    case Some(m) => Fee(FeeTotal(accounts, invoice), m.service, m.entity, m.invoiceId)
  }

  /** The share of the fee that `covered` of `total` stands for. */
  function Share(fee: real, covered: real, total: real): real
    requires total != 0.0
  {
    fee * (covered / total)
  }

  function Portion(fee: real, covered: real, total: real): real
    requires total != 0.0
  {
    Round6(Share(fee, covered, total))
  }

  function PortionLine(account: string, amount: real, fee: Fee, details: Details): Line {
    Line(fee.service, account, fee.entity, fee.invoiceId, details.start, details.end, amount, UsageSku,
         Route(details, account, false))
  }

  function PortionLines(account: string, amount: real, fee: Fee, details: Details): seq<Line> {
    if amount == 0.0 then [] else [PortionLine(account, amount, fee, details)]
  }

  /** The lines of the first `n` covered accounts. */
  function LinesFor(covered: Covered, total: real, fee: Fee, details: Details, n: nat): seq<Line>
    requires n <= |covered| && total != 0.0
  {
    if n == 0 then []
    else
      LinesFor(covered, total, fee, details, n - 1)
      + PortionLines(covered[n - 1].0, Portion(fee.total, covered[n - 1].1, total), fee, details)
  }

  function SumCovered(covered: Covered, n: nat): real
    requires n <= |covered|
  {
    if n == 0 then 0.0 else SumCovered(covered, n - 1) + covered[n - 1].1
  }

  function DistributionLines(accounts: Accounts, details: Details, invoice: Invoice): seq<Line> {
    var fee := CollectFee(accounts, invoice);
    var covered := CoveredBy(accounts);
    if !details.split || fee.total == 0.0 || covered == [] then []
    else
      CoveredPositive(accounts, |accounts|);
      SumPositive(covered, |covered|);
      LinesFor(covered, SumCovered(covered, |covered|), fee, details, |covered|)
  }

  /** `_collect_covered_usage`. */
  method CollectCoveredUsage(accounts: Accounts) returns (covered: Covered)
    ensures covered == CoveredBy(accounts)
  {
    covered := [];
    for i := 0 to |accounts|
      invariant covered == CoveredTo(accounts, i)
    {
      var usage := accounts[i].1;
      var amount := 0.0;
      for j := 0 to |usage|
        invariant amount == Sum(usage, j, CoveredAmount())
      {
        if usage[j].recordType == CoveredUsage {
          amount := amount + usage[j].amount;
        }
      }
      if amount > 0.0 {
        covered := covered + [(accounts[i].0, amount)];
      }
    }
  }

  /** `_build_distribution_lines`. */
  method BuildDistributionLines(covered: Covered, total: real, fee: Fee, details: Details)
    returns (lines: seq<Line>)
    requires total != 0.0
    ensures lines == LinesFor(covered, total, fee, details, |covered|)
  {
    lines := [];
    for i := 0 to |covered|
      invariant lines == LinesFor(covered, total, fee, details, i)
    {
      var amount := Portion(fee.total, covered[i].1, total);
      if amount == 0.0 {
        continue;
      }
      lines := lines + [PortionLine(covered[i].0, amount, fee, details)];
    }
  }

  /** `SavingPlansDistributionProcessor.process`. */
  method Distribute(accounts: Accounts, details: Details, invoice: Invoice) returns (lines: seq<Line>)
    ensures lines == DistributionLines(accounts, details, invoice)
  {
    if !details.split {
      return [];
    }
    var fee := CollectFee(accounts, invoice);
    if fee.total == 0.0 {
      return [];
    }
    var covered := CollectCoveredUsage(accounts);
    if covered == [] {
      return [];
    }
    var total := 0.0;
    for i := 0 to |covered|
      invariant total == SumCovered(covered, i)
    {
      total := total + covered[i].1;
    }
    CoveredPositive(accounts, |accounts|);
    SumPositive(covered, |covered|);
    lines := BuildDistributionLines(covered, total, fee, details);
  }

  lemma {:induction false} CoveredPositive(accounts: Accounts, n: nat)
    requires n <= |accounts|
    ensures forall i :: 0 <= i < |CoveredTo(accounts, n)| ==> CoveredTo(accounts, n)[i].1 > 0.0
  {
    if n > 0 {
      CoveredPositive(accounts, n - 1);
    }
  }

  lemma {:induction false} SumPositive(covered: Covered, n: nat)
    requires n <= |covered|
    requires forall i :: 0 <= i < |covered| ==> covered[i].1 > 0.0
    ensures SumCovered(covered, n) >= 0.0
    ensures n > 0 ==> SumCovered(covered, n) > 0.0
  {
    if n > 0 {
      SumPositive(covered, n - 1);
    }
  }

  lemma {:induction false} NoFeeIn(usage: Metrics, n: nat, invoice: Invoice)
    requires n <= |usage|
    requires FirstFeeIn(usage, n).None?
    ensures Sum(usage, n, OfTypes({SavingPlanFee}, invoice)) == 0.0
  {
    if n > 0 {
      NoFeeIn(usage, n - 1, invoice);
    }
  }

  lemma {:induction false} NoFee(accounts: Accounts, n: nat, invoice: Invoice)
    requires n <= |accounts|
    requires FirstFee(accounts, n).None?
    ensures SumAccounts(accounts, n, OfTypes({SavingPlanFee}, invoice)) == 0.0
  {
    if n > 0 {
      NoFee(accounts, n - 1, invoice);
      NoFeeIn(accounts[n - 1].1, |accounts[n - 1].1|, invoice);
    }
  }

  /** The collected total is the converted fee of all accounts, also when there is no fee metric. */
  lemma CollectedFee(accounts: Accounts, invoice: Invoice)
    ensures CollectFee(accounts, invoice).total == FeeTotal(accounts, invoice)
  {
    if FirstFee(accounts, |accounts|).None? {
      NoFee(accounts, |accounts|, invoice);
    }
  }

  /** The rounding that `n` amounts may carry together. */
  function Allowance(n: nat): (r: real)
    ensures n > 0 ==> r >= HALF_UNIT
    ensures n == 0 ==> r == 0.0
  {
    n as real * HALF_UNIT
  }

  /** The exact shares of the first `n` covered accounts. */
  function SumShares(covered: Covered, total: real, fee: real, n: nat): real
    requires n <= |covered| && total != 0.0
  {
    if n == 0 then 0.0 else SumShares(covered, total, fee, n - 1) + Share(fee, covered[n - 1].1, total)
  }

  lemma ShareAdds(fee: real, a: real, b: real, total: real)
    requires total != 0.0
    ensures Share(fee, a + b, total) == Share(fee, a, total) + Share(fee, b, total)
  {
    assert (a + b) / total == a / total + b / total;
  }

  lemma ShareBounds(fee: real, total: real)
    requires total != 0.0
    ensures Share(fee, 0.0, total) == 0.0 && Share(fee, total, total) == fee
  {
    assert 0.0 / total == 0.0 && total / total == 1.0;
  }

  lemma {:induction false} SharesAddUp(covered: Covered, total: real, fee: real, n: nat)
    requires n <= |covered| && total != 0.0
    ensures SumShares(covered, total, fee, n) == Share(fee, SumCovered(covered, n), total)
  {
    if n == 0 {
      ShareBounds(fee, total);
    } else {
      SharesAddUp(covered, total, fee, n - 1);
      ShareAdds(fee, SumCovered(covered, n - 1), covered[n - 1].1, total);
    }
  }

  /** The exact shares of all covered accounts make up the fee. */
  lemma SharesMakeFee(covered: Covered, total: real, fee: real)
    requires total != 0.0 && total == SumCovered(covered, |covered|)
    ensures SumShares(covered, total, fee, |covered|) == fee
  {
    SharesAddUp(covered, total, fee, |covered|);
    ShareBounds(fee, total);
  }

  lemma PortionBilled(account: string, amount: real, fee: Fee, details: Details)
    ensures Bill(PortionLines(account, amount, fee, details)) == amount
  {
    BillOne(PortionLine(account, amount, fee, details));
  }

  /** Within the rounding of `n` amounts. */
  predicate Near(billed: real, exact: real, n: nat) {
    Abs(billed - exact) <= Allowance(n)
  }

  lemma PortionNearShare(fee: real, covered: real, total: real)
    requires total != 0.0
    ensures Near(Portion(fee, covered, total), Share(fee, covered, total), 1)
  {
  }

  lemma OneMoreRounding(billed: real, exact: real, amount: real, share: real, n: nat)
    requires n > 0 && Near(billed, exact, n - 1) && Near(amount, share, 1)
    ensures Near(billed + amount, exact + share, n)
  {
    assert n as real == (n - 1) as real + 1.0;
  }

  /** Each account adds at most half a unit of rounding to the exact shares. */
  lemma {:induction false} RoundingAccumulates(covered: Covered, total: real, fee: Fee, details: Details, n: nat)
    requires n <= |covered| && total != 0.0
    ensures Near(Bill(LinesFor(covered, total, fee, details, n)), SumShares(covered, total, fee.total, n), n)
  {
    if n > 0 {
      RoundingAccumulates(covered, total, fee, details, n - 1);
      RoundingStep(covered, total, fee, details, n);
    }
  }

  lemma RoundingStep(covered: Covered, total: real, fee: Fee, details: Details, n: nat)
    requires 0 < n <= |covered| && total != 0.0
    requires Near(Bill(LinesFor(covered, total, fee, details, n - 1)), SumShares(covered, total, fee.total, n - 1), n - 1)
    ensures Near(Bill(LinesFor(covered, total, fee, details, n)), SumShares(covered, total, fee.total, n), n)
  {
    var part := covered[n - 1].1;
    LinesForBill(covered, total, fee, details, n);
    PortionNearShare(fee.total, part, total);
    OneMoreRounding(Bill(LinesFor(covered, total, fee, details, n - 1)), SumShares(covered, total, fee.total, n - 1),
                    Portion(fee.total, part, total), Share(fee.total, part, total), n);
  }

  lemma LinesForBill(covered: Covered, total: real, fee: Fee, details: Details, n: nat)
    requires 0 < n <= |covered| && total != 0.0
    ensures Bill(LinesFor(covered, total, fee, details, n))
         == Bill(LinesFor(covered, total, fee, details, n - 1)) + Portion(fee.total, covered[n - 1].1, total)
  {
    var (id, part) := covered[n - 1];
    var amount := Portion(fee.total, part, total);
    PortionBilled(id, amount, fee, details);
    BillAppends(LinesFor(covered, total, fee, details, n - 1), PortionLines(id, amount, fee, details));
  }

  /** Whether `billed` stands for the fee: to within the rounding of `n` shares, or not at all without any. */
  predicate StandsFor(billed: real, fee: real, n: nat) {
    if n == 0 then billed == 0.0 else Near(billed, fee, n)
  }

  /** The distribution bills the fee once, to within half a unit per covered account. */
  lemma DistributionBillsFee(accounts: Accounts, details: Details, invoice: Invoice)
    requires details.split
    ensures StandsFor(Bill(DistributionLines(accounts, details, invoice)), FeeTotal(accounts, invoice),
                      |CoveredBy(accounts)|)
  {
    CollectedFee(accounts, invoice);
    if CoveredBy(accounts) == [] {
    } else if CollectFee(accounts, invoice).total == 0.0 {
    } else {
      SharedOut(accounts, details, invoice);
    }
  }

  lemma SharedOut(accounts: Accounts, details: Details, invoice: Invoice)
    requires details.split && CoveredBy(accounts) != [] && CollectFee(accounts, invoice).total != 0.0
    ensures Near(Bill(DistributionLines(accounts, details, invoice)), CollectFee(accounts, invoice).total,
                 |CoveredBy(accounts)|)
  {
    var covered := CoveredBy(accounts);
    var fee := CollectFee(accounts, invoice);
    var total := SumCovered(covered, |covered|);
    CoveredPositive(accounts, |accounts|);
    SumPositive(covered, |covered|);
    RoundingAccumulates(covered, total, fee, details, |covered|);
    SharesMakeFee(covered, total, fee.total);
  }

  /** A line of the distribution: a covered account's rounded share, under the name of a fee metric. */
  ghost predicate DistributedShare(accounts: Accounts, details: Details, invoice: Invoice, line: Line) {
    var covered := CoveredBy(accounts);
    var total := SumCovered(covered, |covered|);
    && line.start == details.start && line.end == details.end && line.sku == UsageSku && line.amount != 0.0
    && line.source == Subscription(if line.account == "" then details.mpaId else line.account)
    && (exists i, j :: 0 <= i < |accounts| && 0 <= j < |accounts[i].1| && NamedAfter(accounts[i].1[j], line))
    && total != 0.0
    && (exists k :: 0 <= k < |covered| && line.account == covered[k].0
                 && line.amount == Portion(FeeTotal(accounts, invoice), covered[k].1, total))
  }

  predicate NamedAfter(m: Metric, line: Line) {
    && m.recordType == SavingPlanFee
    && line.description == m.service && line.entity == m.entity && line.invoiceId == m.invoiceId
  }

  lemma {:induction false} FirstFeeInUsage(usage: Metrics, n: nat)
    requires n <= |usage| && FirstFeeIn(usage, n).Some?
    ensures exists j :: 0 <= j < n && usage[j] == FirstFeeIn(usage, n).value && usage[j].recordType == SavingPlanFee
  {
    if FirstFeeIn(usage, n - 1).Some? {
      FirstFeeInUsage(usage, n - 1);
    }
  }

  lemma {:induction false} FirstFeeOccurs(accounts: Accounts, n: nat)
    requires n <= |accounts| && FirstFee(accounts, n).Some?
    ensures exists i, j :: 0 <= i < n && 0 <= j < |accounts[i].1| && accounts[i].1[j] == FirstFee(accounts, n).value
                        && accounts[i].1[j].recordType == SavingPlanFee
  {
    if FirstFee(accounts, n - 1).Some? {
      FirstFeeOccurs(accounts, n - 1);
    } else {
      FirstFeeInUsage(accounts[n - 1].1, |accounts[n - 1].1|);
    }
  }

  lemma {:induction false} ShareLine(covered: Covered, total: real, fee: Fee, details: Details, n: nat, line: Line)
    requires n <= |covered| && total != 0.0
    requires line in LinesFor(covered, total, fee, details, n)
    ensures exists k :: 0 <= k < n && line.amount != 0.0
                     && line == PortionLine(covered[k].0, Portion(fee.total, covered[k].1, total), fee, details)
  {
    if line in LinesFor(covered, total, fee, details, n - 1) {
      ShareLine(covered, total, fee, details, n - 1, line);
    } else {
      assert line in PortionLines(covered[n - 1].0, Portion(fee.total, covered[n - 1].1, total), fee, details);
    }
  }

  /** Every distribution line is a covered account's share of the whole fee. */
  lemma DistributionLineOrigin(accounts: Accounts, details: Details, invoice: Invoice, line: Line)
    requires line in DistributionLines(accounts, details, invoice)
    ensures DistributedShare(accounts, details, invoice, line)
  {
    var covered := CoveredBy(accounts);
    var fee := CollectFee(accounts, invoice);
    CoveredPositive(accounts, |accounts|);
    SumPositive(covered, |covered|);
    CollectedFee(accounts, invoice);
    ShareLine(covered, SumCovered(covered, |covered|), fee, details, |covered|, line);
    FirstFeeOccurs(accounts, |accounts|);
    var i, j :| 0 <= i < |accounts| && 0 <= j < |accounts[i].1|
             && accounts[i].1[j] == FirstFee(accounts, |accounts|).value && accounts[i].1[j].recordType == SavingPlanFee;
    assert NamedAfter(accounts[i].1[j], line);
  }

  /** The covered accounts are those with positive covered usage, each with its sum. */
  lemma {:induction false} CoveredExactly(accounts: Accounts, n: nat, id: string, amount: real)
    requires n <= |accounts|
    ensures (id, amount) in CoveredTo(accounts, n) <==>
            amount > 0.0 && exists i :: 0 <= i < n && accounts[i].0 == id
                                     && amount == Sum(accounts[i].1, |accounts[i].1|, CoveredAmount())
  {
    if n > 0 {
      CoveredExactly(accounts, n - 1, id, amount);
    }
  }

  /** Only covered usage counts for the shares, and by its own amount. */
  lemma CoveredGrows(usage: Metrics, m: Metric)
    ensures Sum(usage + [m], |usage| + 1, CoveredAmount()) == Sum(usage, |usage|, CoveredAmount())
      + (match m.recordType case CoveredUsage => m.amount case _ => 0.0)
  {
    CoveredPrefix(usage, m, |usage|);
  }

  lemma {:induction false} CoveredPrefix(usage: Metrics, m: Metric, n: nat)
    requires n <= |usage|
    ensures Sum(usage + [m], n, CoveredAmount()) == Sum(usage, n, CoveredAmount())
  {
    if n > 0 {
      CoveredPrefix(usage, m, n - 1);
    }
  }

  /** The reports agree on accounts and covered usage; all other metrics may differ. */
  ghost predicate SameCovered(a: Accounts, b: Accounts) {
    |a| == |b| && forall i :: 0 <= i < |a| ==> a[i].0 == b[i].0 && SameCoveredMetrics(a[i].1, b[i].1)
  }

  ghost predicate SameCoveredMetrics(u: Metrics, v: Metrics) {
    |u| == |v| && forall j :: 0 <= j < |u| ==>
      u[j] == v[j] || (!u[j].recordType.CoveredUsage? && !v[j].recordType.CoveredUsage?)
  }

  lemma {:induction false} SameCoveredSum(u: Metrics, v: Metrics, n: nat)
    requires SameCoveredMetrics(u, v) && n <= |u|
    ensures Sum(u, n, CoveredAmount()) == Sum(v, n, CoveredAmount())
  {
    if n > 0 {
      SameCoveredSum(u, v, n - 1);
    }
  }

  /** Metrics of any other type do not decide on who shares the fee, nor on how much of it. */
  lemma {:induction false} OthersDoNotShare(a: Accounts, b: Accounts, n: nat)
    requires SameCovered(a, b) && n <= |a|
    ensures CoveredTo(a, n) == CoveredTo(b, n)
  {
    if n > 0 {
      OthersDoNotShare(a, b, n - 1);
      SameCoveredSum(a[n - 1].1, b[n - 1].1, |a[n - 1].1|);
    }
  }

  predicate HoldsNoCoverage(usage: Metrics) {
    forall j :: 0 <= j < |usage| && usage[j].recordType.CoveredUsage? ==> usage[j].amount <= 0.0
  }

  lemma {:induction false} NothingCovered(usage: Metrics, n: nat)
    requires n <= |usage|
    requires HoldsNoCoverage(usage)
    ensures Sum(usage, n, CoveredAmount()) <= 0.0
  {
    if n > 0 {
      NothingCovered(usage, n - 1);
    }
  }

  /** An account whose covered usage has no positive amount gets no line of the distribution. */
  lemma UncoveredPaysNothing(accounts: Accounts, details: Details, invoice: Invoice, line: Line)
    requires forall i :: 0 <= i < |accounts| && accounts[i].0 == line.account ==> HoldsNoCoverage(accounts[i].1)
    ensures line !in DistributionLines(accounts, details, invoice)
  {
    if line in DistributionLines(accounts, details, invoice) {
      DistributionLineOrigin(accounts, details, invoice, line);
      var covered := CoveredBy(accounts);
      var k :| 0 <= k < |covered| && line.account == covered[k].0;
      assert covered[k] in covered && covered[k] == (line.account, covered[k].1);
      CoveredExactly(accounts, |accounts|, line.account, covered[k].1);
      var i :| 0 <= i < |accounts| && accounts[i].0 == line.account
            && covered[k].1 == Sum(accounts[i].1, |accounts[i].1|, CoveredAmount());
      NothingCovered(accounts[i].1, |accounts[i].1|);
    }
  }

  /** Every covered account whose share does not round to nothing pays it, on a line of its own. */
  lemma CoveredAccountPays(accounts: Accounts, details: Details, invoice: Invoice, k: nat)
    requires details.split && FeeTotal(accounts, invoice) != 0.0 && k < |CoveredBy(accounts)|
    ensures
      var covered := CoveredBy(accounts);
      var total := SumCovered(covered, |covered|);
      && total > 0.0
      && (Portion(FeeTotal(accounts, invoice), covered[k].1, total) != 0.0 ==>
            exists line :: line in DistributionLines(accounts, details, invoice) && line.account == covered[k].0
                        && line.amount == Portion(FeeTotal(accounts, invoice), covered[k].1, total))
  {
    var covered := CoveredBy(accounts);
    var total := SumCovered(covered, |covered|);
    var fee := CollectFee(accounts, invoice);
    CoveredPositive(accounts, |accounts|);
    SumPositive(covered, |covered|);
    CollectedFee(accounts, invoice);
    var amount := Portion(fee.total, covered[k].1, total);
    if amount != 0.0 {
      LineOfShare(covered, total, fee, details, |covered|, k);
      assert PortionLine(covered[k].0, amount, fee, details) in DistributionLines(accounts, details, invoice);
    }
  }

  lemma {:induction false} LineOfShare(covered: Covered, total: real, fee: Fee, details: Details, n: nat, k: nat)
    requires k < n <= |covered| && total != 0.0 && Portion(fee.total, covered[k].1, total) != 0.0
    ensures PortionLine(covered[k].0, Portion(fee.total, covered[k].1, total), fee, details)
         in LinesFor(covered, total, fee, details, n)
  {
    if k < n - 1 {
      LineOfShare(covered, total, fee, details, n - 1, k);
    }
  }
}
