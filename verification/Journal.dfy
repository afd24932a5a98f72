/** The journal of an agreement: usage lines, extra discounts, PLS charge and Savings Plans shares. */
module Journal {
  import opened Money
  import opened Usage
  import opened Lines
  import opened Extras
  import opened SavingPlans

  /** Everything one agreement's journal is generated from. */
  datatype Input = Input(
    terms: Terms,
    chargePercentage: real,
    accounts: Accounts,
    details: Details,
    invoice: Invoice)

  predicate PlsActive(x: Input) {
    x.terms.support == PartnerLed && HasEnterpriseSupport(x.accounts)
  }

  function PassOf(x: Input): Pass {
    Pass(x.details, x.invoice, PlsActive(x))
  }

  function ExtraLines(x: Input): seq<Line> {
    DiscountLines(ServiceDiscount, x.terms, x.accounts, x.details, x.invoice)
    + DiscountLines(SupportDiscount, x.terms, x.accounts, x.details, x.invoice)
    + DiscountLines(PlsDiscount, x.terms, x.accounts, x.details, x.invoice)
    + PlsChargeLines(x.chargePercentage, x.terms, x.accounts, x.details, x.invoice)
  }

  function JournalLines(x: Input): seq<Line> {
    UsageLines(PassOf(x), x.accounts)
    + ExtraLines(x)
    + DistributionLines(x.accounts, x.details, x.invoice)
  }

  /** `AgreementJournalGenerator._generate_lines_for_accounts`. */
  method GenerateLines(x: Input) returns (lines: seq<Line>)
    ensures lines == JournalLines(x)
  {
    lines := GenerateUsageLines(Pass(x.details, x.invoice, PlsActive(x)), x.accounts);
    var service := ProcessDiscount(ServiceDiscount, x.terms, x.accounts, x.details, x.invoice);
    var support := ProcessDiscount(SupportDiscount, x.terms, x.accounts, x.details, x.invoice);
    var pls := ProcessDiscount(PlsDiscount, x.terms, x.accounts, x.details, x.invoice);
    var charge := ProcessPlsCharge(x.chargePercentage, x.terms, x.accounts, x.details, x.invoice);
    var shares := Distribute(x.accounts, x.details, x.invoice);
    lines := lines + (service + support + pls + charge) + shares;
  }

  /** The same input under the LINKED_ACCOUNT_PERCENTAGE policy, or under MASTER_PAYER. */
  function Under(x: Input, split: bool): Input {
    x.(details := x.details.(split := split))
  }

  function BillUnder(x: Input, split: bool): real {
    Bill(JournalLines(Under(x, split)))
  }

  lemma BillInParts(x: Input)
    ensures Bill(JournalLines(x))
         == Bill(UsageLines(PassOf(x), x.accounts))
          + Bill(ExtraLines(x))
          + Bill(DistributionLines(x.accounts, x.details, x.invoice))
  {
    var usage := UsageLines(PassOf(x), x.accounts);
    BillAppends(usage + ExtraLines(x), DistributionLines(x.accounts, x.details, x.invoice));
    BillAppends(usage, ExtraLines(x));
  }

  lemma ExtrasBill(x: Input)
    ensures Bill(ExtraLines(x))
         == Bill(DiscountLines(ServiceDiscount, x.terms, x.accounts, x.details, x.invoice))
          + Bill(DiscountLines(SupportDiscount, x.terms, x.accounts, x.details, x.invoice))
          + Bill(DiscountLines(PlsDiscount, x.terms, x.accounts, x.details, x.invoice))
          + Bill(PlsChargeLines(x.chargePercentage, x.terms, x.accounts, x.details, x.invoice))
  {
    var a := DiscountLines(ServiceDiscount, x.terms, x.accounts, x.details, x.invoice);
    var b := DiscountLines(SupportDiscount, x.terms, x.accounts, x.details, x.invoice);
    var c := DiscountLines(PlsDiscount, x.terms, x.accounts, x.details, x.invoice);
    BillAppends(a + b + c, PlsChargeLines(x.chargePercentage, x.terms, x.accounts, x.details, x.invoice));
    BillAppends(a + b, c);
    BillAppends(a, b);
  }

  lemma ExtrasSame(x: Input, split: bool)
    ensures Bill(ExtraLines(Under(x, split))) == Bill(ExtraLines(x))
  {
    ExtrasBill(x);
    ExtrasBill(Under(x, split));
    ExtrasIgnoreSplit(ServiceDiscount, x.chargePercentage, x.terms, x.accounts, x.details, x.invoice, split);
    ExtrasIgnoreSplit(SupportDiscount, x.chargePercentage, x.terms, x.accounts, x.details, x.invoice, split);
    ExtrasIgnoreSplit(PlsDiscount, x.chargePercentage, x.terms, x.accounts, x.details, x.invoice, split);
  }

  /** The usage pass bills the recurring fee under MASTER_PAYER and leaves it out under split billing. */
  lemma UsagePassDiffersByFee(x: Input)
    ensures Bill(UsageLines(PassOf(Under(x, false)), x.accounts))
         == Bill(UsageLines(PassOf(Under(x, true)), x.accounts))
          + FeeTotal(x.accounts, x.invoice)
  {
    var whole, split := PassOf(Under(x, false)), PassOf(Under(x, true));
    PassBilled(whole, x.accounts);
    PassBilled(split, x.accounts);
    KeptDiffersByFee(x.accounts, whole, split);
    RecoveriesAgree(x.accounts, whole, split);
  }

  lemma KeptDiffersByFee(accounts: Accounts, whole: Pass, split: Pass)
    requires split == whole.(details := whole.details.(split := true)) && !whole.details.split
    ensures Total(accounts, Kept(whole))
         == Total(accounts, Kept(split)) + Total(accounts, OfTypes({SavingPlanFee}, whole.invoice))
  {
    TotalAdds(accounts, |accounts|, Kept(whole), Kept(split), OfTypes({SavingPlanFee}, whole.invoice));
  }

  lemma RecoveriesAgree(accounts: Accounts, whole: Pass, split: Pass)
    requires split.invoice == whole.invoice
    ensures Total(accounts, Recovery(whole)) == Total(accounts, Recovery(split))
  {
    TotalAgrees(accounts, |accounts|, Recovery(whole), Recovery(split));
  }

  /** The difference between the policies is the fee against its distribution. */
  lemma PoliciesDiffer(x: Input)
    ensures BillUnder(x, true) - BillUnder(x, false)
         == Bill(DistributionLines(x.accounts, Under(x, true).details, x.invoice)) - FeeTotal(x.accounts, x.invoice)
  {
    BillInParts(Under(x, true));
    BillInParts(Under(x, false));
    ExtrasSame(x, true);
    ExtrasSame(x, false);
    UsagePassDiffersByFee(x);
    assert Bill(DistributionLines(x.accounts, Under(x, false).details, x.invoice)) == 0.0;
  }

  /**
   * The policies bill the same, to within half a unit of the sixth decimal per covered account, exactly
   * when some account has positive covered usage or there is no fee to bill.
   */
  lemma SplitPolicyPreservesBill(x: Input)
    ensures
      var n := |CoveredBy(x.accounts)|;
      Abs(BillUnder(x, true) - BillUnder(x, false)) <= Allowance(n)
      <==> n > 0 || FeeTotal(x.accounts, x.invoice) == 0.0
  {
    var shared := SharedFee(x);
    FeeAgainstShares(|CoveredBy(x.accounts)|, FeeTotal(x.accounts, x.invoice), shared);
  }

  /** What split billing bills in place of the fee. */
  lemma SharedFee(x: Input) returns (shared: real)
    ensures BillUnder(x, true) - BillUnder(x, false) == shared - FeeTotal(x.accounts, x.invoice)
    ensures StandsFor(shared, FeeTotal(x.accounts, x.invoice), |CoveredBy(x.accounts)|)
  {
    shared := Bill(DistributionLines(x.accounts, Under(x, true).details, x.invoice));
    PoliciesDiffer(x);
    DistributionBillsFee(x.accounts, Under(x, true).details, x.invoice);
  }

  lemma FeeAgainstShares(n: nat, fee: real, shared: real)
    requires StandsFor(shared, fee, n)
    ensures Abs(shared - fee) <= Allowance(n) <==> n > 0 || fee == 0.0
  {
  }

  /** Without covered usage the split policy does not bill the fee at all. */
  lemma UncoveredFeeIsLost(x: Input)
    requires CoveredBy(x.accounts) == []
    ensures BillUnder(x, false) - BillUnder(x, true) == FeeTotal(x.accounts, x.invoice)
  {
    PoliciesDiffer(x);
    DistributionBillsFee(x.accounts, Under(x, true).details, x.invoice);
  }

  /** A metric of the support that PLS replaces. */
  predicate IsEnterpriseSupport(m: Metric) {
    m.recordType == SupportType && m.service == ENTERPRISE_SUPPORT
  }

  /** The metrics agree except that Enterprise support metrics may differ in all but service and type. */
  ghost predicate SameButSupport(a: Metrics, b: Metrics) {
    |a| == |b| && forall i :: 0 <= i < |a| ==> a[i] == b[i] || (IsEnterpriseSupport(a[i]) && IsEnterpriseSupport(b[i]))
  }

  ghost predicate AccountsSameButSupport(a: Accounts, b: Accounts) {
    |a| == |b| && forall i :: 0 <= i < |a| ==> a[i].0 == b[i].0 && SameButSupport(a[i].1, b[i].1)
  }

  /** A contribution that Enterprise support metrics do not have and the others have independently of them. */
  ghost predicate Deaf(f: Amount) {
    && (forall u, m :: IsEnterpriseSupport(m) ==> f(u, m) == 0.0)
    && (forall u, v, m :: SameButSupport(u, v) ==> f(u, m) == f(v, m))
  }

  lemma {:induction false} DeafSum(a: Metrics, b: Metrics, n: nat, f: Amount)
    requires SameButSupport(a, b) && n <= |a| && Deaf(f)
    ensures Sum(a, n, f) == Sum(b, n, f)
  {
    if n > 0 {
      DeafSum(a, b, n - 1, f);
    }
  }

  lemma {:induction false} DeafTotal(a: Accounts, b: Accounts, n: nat, f: Amount)
    requires AccountsSameButSupport(a, b) && n <= |a| && Deaf(f)
    ensures SumAccounts(a, n, f) == SumAccounts(b, n, f)
  {
    if n > 0 {
      DeafTotal(a, b, n - 1, f);
      DeafSum(a[n - 1].1, b[n - 1].1, |a[n - 1].1|, f);
    }
  }

  lemma DeafServes(u: Metrics, v: Metrics, service: string, types: set<RecordType>)
    requires SameButSupport(u, v) && SupportType !in types
    ensures Serves(u, service, types) == Serves(v, service, types)
  {
    forall i | 0 <= i < |u| && (u[i].recordType in types || v[i].recordType in types) ensures u[i] == v[i] {
    }
  }

  lemma DeafSpp(types: set<RecordType>, invoice: Invoice)
    requires SupportType !in types
    ensures Deaf(SppOf(types, invoice))
  {
    var f := SppOf(types, invoice);
    forall u, v, m | SameButSupport(u, v) ensures f(u, m) == f(v, m) {
      DeafServes(u, v, m.service, types);
    }
  }

  lemma DeafEnterprise(a: Accounts, b: Accounts)
    requires AccountsSameButSupport(a, b)
    ensures HasEnterpriseSupport(a) == HasEnterpriseSupport(b)
  {
    forall i | 0 <= i < |a|
      ensures HasService(a[i].1, ENTERPRISE_SUPPORT) == HasService(b[i].1, ENTERPRISE_SUPPORT)
    {
      var u, v := a[i].1, b[i].1;
      forall k | 0 <= k < |u| ensures u[k].service == v[k].service {
      }
    }
  }

  lemma {:induction false} DeafFindSpp(u: Metrics, v: Metrics, m: Metric, i: nat)
    requires SameButSupport(u, v) && i <= |u|
    ensures FindSpp(u, m, i) == FindSpp(v, m, i)
    decreases |u| - i
  {
    if i < |u| {
      DeafFindSpp(u, v, m, i + 1);
    }
  }

  lemma DeafHasSpp(u: Metrics, v: Metrics, service: string)
    requires SameButSupport(u, v)
    ensures HasSpp(u, service) == HasSpp(v, service)
  {
    forall i | 0 <= i < |u| && (u[i].recordType == SppDiscount || v[i].recordType == SppDiscount)
      ensures u[i] == v[i]
    {
    }
  }

  lemma DeafMetric(pass: Pass, account: string, u: Metrics, v: Metrics, m: Metric)
    requires SameButSupport(u, v)
    ensures MetricLines(pass, account, u, m) == MetricLines(pass, account, v, m)
  {
    DeafHasSpp(u, v, m.service);
    DeafFindSpp(u, v, m, 0);
  }

  lemma {:induction false} DeafAccount(pass: Pass, account: string, u: Metrics, v: Metrics, n: nat)
    requires SameButSupport(u, v) && n <= |u| && pass.isPls
    ensures FlatTo(u, n, MetricSource(pass, account)) == FlatTo(v, n, MetricSource(pass, account))
  {
    if n > 0 {
      DeafAccount(pass, account, u, v, n - 1);
      DeafMetric(pass, account, u, v, u[n - 1]);
      SupportSkipped(pass, account, u, v, n - 1);
    }
  }

  lemma SupportSkipped(pass: Pass, account: string, u: Metrics, v: Metrics, k: nat)
    requires SameButSupport(u, v) && k < |u| && pass.isPls
    ensures u[k] == v[k] || (MetricLines(pass, account, u, u[k]) == [] && MetricLines(pass, account, v, v[k]) == [])
  {
  }

  lemma {:induction false} DeafUsage(pass: Pass, a: Accounts, b: Accounts, n: nat)
    requires AccountsSameButSupport(a, b) && n <= |a| && pass.isPls
    ensures FlatAccounts(a, n, AccountSource(pass)) == FlatAccounts(b, n, AccountSource(pass))
  {
    if n > 0 {
      DeafUsage(pass, a, b, n - 1);
      DeafAccount(pass, a[n - 1].0, a[n - 1].1, b[n - 1].1, |a[n - 1].1|);
    }
  }

  lemma DeafDiscount(d: Discount, terms: Terms, a: Accounts, b: Accounts, details: Details, invoice: Invoice)
    requires AccountsSameButSupport(a, b) && terms.support == PartnerLed
    ensures DiscountLines(d, terms, a, details, invoice) == DiscountLines(d, terms, b, details, invoice)
  {
    match d {
      case ServiceDiscount =>
        DeafTotal(a, b, |a|, OfTypes(SPENDING, invoice));
        DeafSpp(SPENDING, invoice);
        DeafTotal(a, b, |a|, SppOf(SPENDING, invoice));
      case SupportDiscount =>
      case PlsDiscount =>
        DeafTotal(a, b, |a|, OfTypes({UsageType}, invoice));
    }
  }

  lemma {:induction false} DeafCovered(a: Accounts, b: Accounts, n: nat)
    requires AccountsSameButSupport(a, b) && n <= |a|
    ensures CoveredTo(a, n) == CoveredTo(b, n)
  {
    if n > 0 {
      DeafCovered(a, b, n - 1);
      DeafSum(a[n - 1].1, b[n - 1].1, |a[n - 1].1|, CoveredAmount());
    }
  }

  lemma {:induction false} DeafFirstFeeIn(u: Metrics, v: Metrics, n: nat)
    requires SameButSupport(u, v) && n <= |u|
    ensures FirstFeeIn(u, n) == FirstFeeIn(v, n)
  {
    if n > 0 {
      DeafFirstFeeIn(u, v, n - 1);
    }
  }

  lemma {:induction false} DeafFirstFee(a: Accounts, b: Accounts, n: nat)
    requires AccountsSameButSupport(a, b) && n <= |a|
    ensures FirstFee(a, n) == FirstFee(b, n)
  {
    if n > 0 {
      DeafFirstFee(a, b, n - 1);
      DeafFirstFeeIn(a[n - 1].1, b[n - 1].1, |a[n - 1].1|);
    }
  }

  lemma DeafDistribution(a: Accounts, b: Accounts, details: Details, invoice: Invoice)
    requires AccountsSameButSupport(a, b)
    ensures DistributionLines(a, details, invoice) == DistributionLines(b, details, invoice)
  {
    DeafCovered(a, b, |a|);
    DeafFirstFee(a, b, |a|);
    DeafTotal(a, b, |a|, OfTypes({SavingPlanFee}, invoice));
  }

  /**
   * With PLS active, "AWS Support (Enterprise)" support metrics leave no trace in the journal: change
   * their amounts, dates, entities and invoices at will, and every line stays the same.
   */
  lemma EnterpriseSupportIsSilent(x: Input, accounts: Accounts)
    requires PlsActive(x) && AccountsSameButSupport(x.accounts, accounts)
    ensures JournalLines(x) == JournalLines(x.(accounts := accounts))
  {
    var y := x.(accounts := accounts);
    DeafEnterprise(x.accounts, accounts);
    DeafUsage(PassOf(x), x.accounts, accounts, |accounts|);
    DeafDiscount(ServiceDiscount, x.terms, x.accounts, accounts, x.details, x.invoice);
    DeafDiscount(SupportDiscount, x.terms, x.accounts, accounts, x.details, x.invoice);
    DeafDiscount(PlsDiscount, x.terms, x.accounts, accounts, x.details, x.invoice);
    DeafTotal(x.accounts, accounts, |accounts|, OfTypes({UsageType}, x.invoice));
    DeafDistribution(x.accounts, accounts, x.details, x.invoice);
    assert ExtraLines(x) == ExtraLines(y);
  }

  /** A PLS charge excludes lines for Enterprise support metrics: each of them is passed over. */
  lemma PlsChargeReplacesSupport(x: Input, usage: Metrics, m: Metric, account: string)
    requires PlsChargeLines(x.chargePercentage, x.terms, x.accounts, x.details, x.invoice) != []
    requires IsEnterpriseSupport(m)
    ensures MetricLines(PassOf(x), account, usage, m) == []
  {
    assert PlsActive(x);
  }

  /** What the journal of an agreement leaves out, by record type and by the terms of the agreement. */
  predicate LeftOut(x: Input, m: Metric) {
    match m.recordType
    case Tax | SppDiscount | CoveredUsage | Negation => true
    case SupportType =>
      && m.service == "AWS Support (Enterprise)" && x.terms.support == PartnerLed
      && exists i, j :: 0 <= i < |x.accounts| && 0 <= j < |x.accounts[i].1|
                     && x.accounts[i].1[j].service == "AWS Support (Enterprise)"
    case Marketplace => m.service == "Tax"
    case SavingPlanFee => x.details.split
    case _ => false
  }

  lemma LeftOutIsExcluded(x: Input, m: Metric)
    ensures LeftOut(x, m) <==> Excluded(PassOf(x), m)
  {
    EnterpriseOccurs(x.accounts);
  }

  lemma EnterpriseOccurs(accounts: Accounts)
    ensures HasEnterpriseSupport(accounts) <==>
      exists i, j :: 0 <= i < |accounts| && 0 <= j < |accounts[i].1|
                  && accounts[i].1[j].service == "AWS Support (Enterprise)"
  {
    if i, j :| 0 <= i < |accounts| && 0 <= j < |accounts[i].1|
               && accounts[i].1[j].service == "AWS Support (Enterprise)" {
      assert HasService(accounts[i].1, ENTERPRISE_SUPPORT);
    }
  }

  /** A metric that is not zero has no line in the usage pass exactly if it is left out; Enterprise support
      in particular stays on the bill unless PLS replaces it. */
  lemma LeftOutHasNoLine(x: Input, account: string, usage: Metrics, m: Metric)
    requires m.amount != 0.0
    ensures MetricLines(PassOf(x), account, usage, m) == [] <==> LeftOut(x, m)
  {
    LeftOutIsExcluded(x, m);
  }

  function LeftOutAmount(x: Input): Amount {
    (usage: Metrics, m: Metric) => if LeftOut(x, m) then Converted(m, x.invoice) else 0.0
  }

  /** What the journal bills beside the usage: the discounts, the PLS charge and the shared-out fee. */
  function BillBeside(x: Input): real {
    Bill(ExtraLines(x)) + Bill(DistributionLines(x.accounts, x.details, x.invoice))
  }

  /** Conservation over the whole journal: everything converted, minus exactly what is left out by type and
      terms, plus the SPP recoveries, plus what the journal adds beside the usage. */
  lemma JournalConserves(x: Input)
    ensures Bill(JournalLines(x))
         == Total(x.accounts, Everything(x.invoice)) - Total(x.accounts, LeftOutAmount(x))
          + Total(x.accounts, Recovery(PassOf(x))) + BillBeside(x)
  {
    BillInParts(x);
    UsagePassConserves(PassOf(x), x.accounts);
    forall usage, m ensures LeftOutAmount(x)(usage, m) == ExcludedAmount(PassOf(x))(usage, m) {
      LeftOutIsExcluded(x, m);
    }
    TotalAgrees(x.accounts, |x.accounts|, LeftOutAmount(x), ExcludedAmount(PassOf(x)));
  }

  /** What is left out under either policy; the Savings Plans fee is not. */
  function NeverBilled(x: Input): Amount {
    (usage: Metrics, m: Metric) =>
      if m.recordType != SavingPlanFee && LeftOut(x, m) then Converted(m, x.invoice) else 0.0
  }

  /** What an agreement owes under either policy: nothing is left out but what is never billed. */
  function Owed(x: Input): real {
    Total(x.accounts, Everything(x.invoice)) - Total(x.accounts, NeverBilled(x))
    + Total(x.accounts, Recovery(PassOf(x))) + Bill(ExtraLines(x))
  }

  lemma FeeLeftOut(x: Input)
    ensures Total(x.accounts, LeftOutAmount(x))
         == Total(x.accounts, NeverBilled(x)) + (if x.details.split then FeeTotal(x.accounts, x.invoice) else 0.0)
  {
    if x.details.split {
      TotalAdds(x.accounts, |x.accounts|, LeftOutAmount(x), NeverBilled(x), OfTypes({SavingPlanFee}, x.invoice));
    } else {
      TotalAgrees(x.accounts, |x.accounts|, LeftOutAmount(x), NeverBilled(x));
    }
  }

  /** The journal bills what is owed: exactly under MASTER_PAYER, and under split billing to within half a
      unit per covered account, unless the fee has no covered usage to be shared out by. */
  lemma JournalBillsOwed(x: Input)
    ensures !x.details.split ==> Bill(JournalLines(x)) == Owed(x)
    ensures x.details.split ==>
      (Near(Bill(JournalLines(x)), Owed(x), |CoveredBy(x.accounts)|)
       <==> CoveredBy(x.accounts) != [] || FeeTotal(x.accounts, x.invoice) == 0.0)
  {
    JournalConserves(x);
    FeeLeftOut(x);
    if x.details.split {
      DistributionBillsFee(x.accounts, x.details, x.invoice);
      FeeAgainstShares(|CoveredBy(x.accounts)|, FeeTotal(x.accounts, x.invoice),
                       Bill(DistributionLines(x.accounts, x.details, x.invoice)));
    }
  }
}
