/** Usage metrics, invoice data and the conversion of an amount into the payment currency. */
module Usage {
  import opened Money

  datatype Option<+T> = None | Some(value: T)

  datatype RecordType =
    | UsageType
    | SppDiscount
    | SupportType
    | Refund
    | SavingPlanFee
    | Recurring
    | Credit
    | BundledDiscount
    | FlatRate
    | Tax
    | CoveredUsage
    | Negation
    | Marketplace
    | OtherType(name: string)

  /** A cost metric; a missing invoice entity or id reads as "". */
  datatype Metric = Metric(
    service: string,
    recordType: RecordType,
    start: string,
    end: string,
    amount: real,
    entity: string,
    invoiceId: string)

  datatype Entity = Entity(invoiceId: string, base: string, payment: string, rate: real, primary: bool)

  /** The entities by name, `order` being the order in which they were entered. */
  datatype Invoice = Invoice(entities: map<string, Entity>, order: seq<string>, principal: Option<real>)

  type Metrics = seq<Metric>

  /** The usage per account, in the order of the report. */
  type Accounts = seq<(string, Metrics)>

  /** No account has two entries: the report is a dictionary. */
  ghost predicate Distinct(accounts: Accounts) {
    forall i, j :: 0 <= i < j < |accounts| ==> accounts[i].0 != accounts[j].0
  }

  const ENTERPRISE_SUPPORT := "AWS Support (Enterprise)"

  predicate HasService(usage: Metrics, service: string) {
    exists i :: 0 <= i < |usage| && usage[i].service == service
  }

  predicate HasEnterpriseSupport(accounts: Accounts) {
    exists i :: 0 <= i < |accounts| && HasService(accounts[i].1, ENTERPRISE_SUPPORT)
  }

  /** `resolve_service_amount` for the entity of that name, if the invoice has it. */
  function Resolve(amount: real, invoice: Invoice, entity: string): real {
    if entity !in invoice.entities then amount
    else
      var e := invoice.entities[entity];
      if e.payment == e.base || e.rate <= 0.0 then amount else Round6(AtRate(amount, e.rate))
  }

  function Converted(m: Metric, invoice: Invoice): real {
    Resolve(m.amount, invoice, m.entity)
  }

  lemma ZeroConverts(m: Metric, invoice: Invoice)
    ensures m.amount == 0.0 ==> Converted(m, invoice) == 0.0
  {
    Round6Zero();
    if m.amount == 0.0 && m.entity in invoice.entities {
      assert AtRate(0.0, invoice.entities[m.entity].rate) == 0.0;
    }
  }

  /** What a metric contributes to a total, given all metrics of its account. */
  type Amount = (Metrics, Metric) -> real

  /** The sum of `f` over the first `n` metrics of an account. */
  function Sum(usage: Metrics, n: nat, f: Amount): real
    requires n <= |usage|
  {
    if n == 0 then 0.0 else Sum(usage, n - 1, f) + f(usage, usage[n - 1])
  }

  /** The sum of `f` over all metrics of the first `n` accounts. */
  function SumAccounts(accounts: Accounts, n: nat, f: Amount): real
    requires n <= |accounts|
  {
    if n == 0 then 0.0
    else SumAccounts(accounts, n - 1, f) + Sum(accounts[n - 1].1, |accounts[n - 1].1|, f)
  }

  /** The sum of `f` over the whole report. */
  function Total(accounts: Accounts, f: Amount): real {
    SumAccounts(accounts, |accounts|, f)
  }

  /** The converted amounts of the metrics of the given types. */
  function OfTypes(types: set<RecordType>, invoice: Invoice): Amount {
    (usage: Metrics, m: Metric) => if m.recordType in types then Converted(m, invoice) else 0.0
  }

  lemma {:induction false} SumAdds(usage: Metrics, n: nat, f: Amount, g: Amount, h: Amount)
    requires n <= |usage|
    requires forall u, m :: f(u, m) == g(u, m) + h(u, m)
    ensures Sum(usage, n, f) == Sum(usage, n, g) + Sum(usage, n, h)
  {
    if n > 0 {
      SumAdds(usage, n - 1, f, g, h);
    }
  }

  /** Totals are additive in the contribution of the metrics. */
  lemma {:induction false} TotalAdds(accounts: Accounts, n: nat, f: Amount, g: Amount, h: Amount)
    requires n <= |accounts|
    requires forall u, m :: f(u, m) == g(u, m) + h(u, m)
    ensures SumAccounts(accounts, n, f) == SumAccounts(accounts, n, g) + SumAccounts(accounts, n, h)
  {
    if n > 0 {
      TotalAdds(accounts, n - 1, f, g, h);
      SumAdds(accounts[n - 1].1, |accounts[n - 1].1|, f, g, h);
    }
  }

  lemma {:induction false} SumAgrees(usage: Metrics, n: nat, f: Amount, g: Amount)
    requires n <= |usage|
    requires forall u, m :: f(u, m) == g(u, m)
    ensures Sum(usage, n, f) == Sum(usage, n, g)
  {
    if n > 0 {
      SumAgrees(usage, n - 1, f, g);
    }
  }

  lemma {:induction false} TotalAgrees(accounts: Accounts, n: nat, f: Amount, g: Amount)
    requires n <= |accounts|
    requires forall u, m :: f(u, m) == g(u, m)
    ensures SumAccounts(accounts, n, f) == SumAccounts(accounts, n, g)
  {
    if n > 0 {
      TotalAgrees(accounts, n - 1, f, g);
      SumAgrees(accounts[n - 1].1, |accounts[n - 1].1|, f, g);
    }
  }

  lemma {:induction false} SumBounds(usage: Metrics, n: nat, f: Amount, g: Amount)
    requires n <= |usage|
    requires forall u, m :: Abs(f(u, m)) <= g(u, m)
    ensures Abs(Sum(usage, n, f)) <= Sum(usage, n, g)
  {
    if n > 0 {
      SumBounds(usage, n - 1, f, g);
      assert Abs(f(usage, usage[n - 1])) <= g(usage, usage[n - 1]);
    }
  }

  /** The absolute value of a total is bounded by the total of the bounds. */
  lemma {:induction false} TotalBounds(accounts: Accounts, n: nat, f: Amount, g: Amount)
    requires n <= |accounts|
    requires forall u, m :: Abs(f(u, m)) <= g(u, m)
    ensures Abs(SumAccounts(accounts, n, f)) <= SumAccounts(accounts, n, g)
  {
    if n > 0 {
      TotalBounds(accounts, n - 1, f, g);
      SumBounds(accounts[n - 1].1, |accounts[n - 1].1|, f, g);
    }
  }

  /** What the first `n` metrics of an account yield, one after the other. */
  function FlatTo<T>(usage: Metrics, n: nat, source: (Metrics, Metric) -> seq<T>): seq<T>
    requires n <= |usage|
  {
    if n == 0 then [] else FlatTo(usage, n - 1, source) + source(usage, usage[n - 1])
  }

  /** What the first `n` accounts yield, one after the other. */
  function FlatAccounts<T>(accounts: Accounts, n: nat, source: ((string, Metrics)) -> seq<T>): seq<T>
    requires n <= |accounts|
  {
    if n == 0 then [] else FlatAccounts(accounts, n - 1, source) + source(accounts[n - 1])
  }

  lemma {:induction false} InFlat<T>(usage: Metrics, n: nat, source: (Metrics, Metric) -> seq<T>, x: T)
    requires n <= |usage|
    ensures x in FlatTo(usage, n, source) <==> exists j :: 0 <= j < n && x in source(usage, usage[j])
  {
    if n > 0 {
      InFlat(usage, n - 1, source, x);
    }
  }

  lemma {:induction false} InFlatAccounts<T>(accounts: Accounts, n: nat, source: ((string, Metrics)) -> seq<T>, x: T)
    requires n <= |accounts|
    ensures x in FlatAccounts(accounts, n, source) <==> exists i :: 0 <= i < n && x in source(accounts[i])
  {
    if n > 0 {
      InFlatAccounts(accounts, n - 1, source, x);
    }
  }

  /** A value of each account, such as the bill of its lines, summed over the first `n` accounts. */
  function SumOver(accounts: Accounts, n: nat, h: ((string, Metrics)) -> real): real
    requires n <= |accounts|
  {
    if n == 0 then 0.0 else SumOver(accounts, n - 1, h) + h(accounts[n - 1])
  }

  lemma {:induction false} SumOverMetrics(accounts: Accounts, n: nat, h: ((string, Metrics)) -> real, f: Amount)
    requires n <= |accounts|
    requires forall a :: h(a) == Sum(a.1, |a.1|, f)
    ensures SumOver(accounts, n, h) == SumAccounts(accounts, n, f)
  {
    if n > 0 {
      SumOverMetrics(accounts, n - 1, h, f);
    }
  }

  /** `calculate_total_by_record_types`: the nested loops add up the converted amounts. */
  method CalculateTotalByRecordTypes(accounts: Accounts, invoice: Invoice, types: set<RecordType>)
    returns (total: real)
    ensures total == Total(accounts, OfTypes(types, invoice))
  {
    total := 0.0;
    for i := 0 to |accounts|
      invariant total == SumAccounts(accounts, i, OfTypes(types, invoice))
    {
      var metrics := accounts[i].1;
      for j := 0 to |metrics|
        invariant total ==
          SumAccounts(accounts, i, OfTypes(types, invoice)) + Sum(metrics, j, OfTypes(types, invoice))
      {
        if metrics[j].recordType in types {
          total := total + Converted(metrics[j], invoice);
        }
      }
    }
  }
}
