/** The journal against the billing report: how far rounded lines may drift from unrounded rows. */
module Drift {
  import opened Money
  import opened Usage
  import opened Lines
  import opened Report

  /** What the metrics of a key add to the bill. */
  function GroupBill(pass: Pass, key: Key): Amount {
    (usage: Metrics, m: Metric) => if KeyOf(m) == key then Bill(MetricLines(pass, "", usage, m)) else 0.0
  }

  function GroupRecovery(pass: Pass, key: Key): Amount {
    (usage: Metrics, m: Metric) => if KeyOf(m) == key then Recovery(pass)(usage, m) else 0.0
  }

  function GroupReported(key: Key, rate: real): Amount {
    (usage: Metrics, m: Metric) => AtRate(NonSpp(key)(usage, m), rate)
  }

  /** What the report shows for metrics that the usage pass leaves out. */
  function GroupLeftOut(pass: Pass, key: Key, rate: real): Amount {
    (usage: Metrics, m: Metric) => if Excluded(pass, m) then AtRate(NonSpp(key)(usage, m), rate) else 0.0
  }

  function GroupDrift(pass: Pass, key: Key, rate: real): Amount {
    (usage: Metrics, m: Metric) =>
      GroupBill(pass, key)(usage, m) - GroupRecovery(pass, key)(usage, m)
      - GroupReported(key, rate)(usage, m) + GroupLeftOut(pass, key, rate)(usage, m)
  }

  /** Counts the metrics of the key that the usage pass bills. */
  function GroupBilled(pass: Pass, key: Key): Amount {
    (usage: Metrics, m: Metric) => if KeyOf(m) == key && !Excluded(pass, m) then 1.0 else 0.0
  }

  function HalfUnits(f: Amount): Amount {
    (usage: Metrics, m: Metric) => AtRate(f(usage, m), HALF_UNIT)
  }

  predicate Converts(invoice: Invoice, entity: string) {
    && entity in invoice.entities
    && invoice.entities[entity].payment != invoice.entities[entity].base
    && invoice.entities[entity].rate > 0.0
  }

  lemma {:induction false} SumCombines(usage: Metrics, n: nat, f: Amount, a: Amount, b: Amount, c: Amount, d: Amount)
    requires n <= |usage|
    requires forall u, m :: f(u, m) == a(u, m) - b(u, m) - c(u, m) + d(u, m)
    ensures Sum(usage, n, f) == Sum(usage, n, a) - Sum(usage, n, b) - Sum(usage, n, c) + Sum(usage, n, d)
  {
    if n > 0 {
      SumCombines(usage, n - 1, f, a, b, c, d);
    }
  }

  lemma {:induction false} TotalCombines(accounts: Accounts, n: nat, f: Amount, a: Amount, b: Amount, c: Amount, d: Amount)
    requires n <= |accounts|
    requires forall u, m :: f(u, m) == a(u, m) - b(u, m) - c(u, m) + d(u, m)
    ensures SumAccounts(accounts, n, f)
         == SumAccounts(accounts, n, a) - SumAccounts(accounts, n, b) - SumAccounts(accounts, n, c)
          + SumAccounts(accounts, n, d)
  {
    if n > 0 {
      TotalCombines(accounts, n - 1, f, a, b, c, d);
      SumCombines(accounts[n - 1].1, |accounts[n - 1].1|, f, a, b, c, d);
    }
  }

  lemma {:induction false} SumScales(usage: Metrics, n: nat, f: Amount, g: Amount, rate: real)
    requires n <= |usage|
    requires forall u, m :: f(u, m) == AtRate(g(u, m), rate)
    ensures Sum(usage, n, f) == AtRate(Sum(usage, n, g), rate)
  {
    if n > 0 {
      SumScales(usage, n - 1, f, g, rate);
      Distribute(Sum(usage, n - 1, g), g(usage, usage[n - 1]), rate);
    }
  }

  lemma {:induction false} TotalScales(accounts: Accounts, n: nat, f: Amount, g: Amount, rate: real)
    requires n <= |accounts|
    requires forall u, m :: f(u, m) == AtRate(g(u, m), rate)
    ensures SumAccounts(accounts, n, f) == AtRate(SumAccounts(accounts, n, g), rate)
  {
    if n > 0 {
      var usage := accounts[n - 1].1;
      TotalScales(accounts, n - 1, f, g, rate);
      SumScales(usage, |usage|, f, g, rate);
      Distribute(SumAccounts(accounts, n - 1, g), Sum(usage, |usage|, g), rate);
    }
  }

  /** One metric drifts by its own rounding, and only if it is billed. */
  lemma MetricDrift(pass: Pass, key: Key, usage: Metrics, m: Metric)
    requires Converts(pass.invoice, key.entity)
    ensures Abs(GroupDrift(pass, key, pass.invoice.entities[key.entity].rate)(usage, m))
         <= AtRate(GroupBilled(pass, key)(usage, m), HALF_UNIT)
  {
    var rate := pass.invoice.entities[key.entity].rate;
    MetricBilled(pass, "", usage, m);
    NoneAtRate(rate);
    NoneAtRate(HALF_UNIT);
    var reported := GroupReported(key, rate)(usage, m);
    assert reported == AtRate(NonSpp(key)(usage, m), rate);
    if KeyOf(m) != key {
      assert GroupDrift(pass, key, rate)(usage, m) == 0.0;
    } else if Excluded(pass, m) {
      assert GroupBill(pass, key)(usage, m) == Recovery(pass)(usage, m);
      assert GroupRecovery(pass, key)(usage, m) == Recovery(pass)(usage, m);
      assert GroupLeftOut(pass, key, rate)(usage, m) == reported;
      assert GroupDrift(pass, key, rate)(usage, m) == 0.0;
    } else {
      assert m.entity == key.entity;
      assert Converted(m, pass.invoice) == Round6(AtRate(m.amount, rate));
      assert GroupBill(pass, key)(usage, m) == Converted(m, pass.invoice) + Recovery(pass)(usage, m);
      assert GroupRecovery(pass, key)(usage, m) == Recovery(pass)(usage, m);
      assert GroupDrift(pass, key, rate)(usage, m) == Converted(m, pass.invoice) - AtRate(m.amount, rate);
      assert AtRate(1.0, HALF_UNIT) == HALF_UNIT;
    }
  }

  lemma NoneAtRate(rate: real)
    ensures AtRate(0.0, rate) == 0.0
  {
  }

  lemma DriftBounded(pass: Pass, key: Key, accounts: Accounts)
    requires Converts(pass.invoice, key.entity)
    ensures Abs(Total(accounts, GroupDrift(pass, key, pass.invoice.entities[key.entity].rate)))
         <= AtRate(Total(accounts, GroupBilled(pass, key)), HALF_UNIT)
  {
    var drift := GroupDrift(pass, key, pass.invoice.entities[key.entity].rate);
    var bound := HalfUnits(GroupBilled(pass, key));
    forall usage, m ensures Abs(drift(usage, m)) <= bound(usage, m) {
      MetricDrift(pass, key, usage, m);
    }
    TotalBounds(accounts, |accounts|, drift, bound);
    TotalScales(accounts, |accounts|, bound, GroupBilled(pass, key), HALF_UNIT);
  }

  /**
   * Over a converting entity, the rounded bill of a key is within half a unit per billed metric of the
   * report's sp, once metrics that are left out and SPP recoveries are accounted for.
   */
  lemma JournalFollowsReport(pass: Pass, key: Key, accounts: Accounts)
    requires key.entity != "" && Converts(pass.invoice, key.entity)
    ensures
      var rate := pass.invoice.entities[key.entity].rate;
      var expected := GroupRow(accounts, key, pass.invoice).sp - Total(accounts, GroupLeftOut(pass, key, rate))
                    + Total(accounts, GroupRecovery(pass, key));
      Abs(Total(accounts, GroupBill(pass, key)) - expected)
      <= AtRate(Total(accounts, GroupBilled(pass, key)), HALF_UNIT)
  {
    var rate := pass.invoice.entities[key.entity].rate;
    var reported := GroupReported(key, rate);
    DriftBounded(pass, key, accounts);
    TotalCombines(accounts, |accounts|, GroupDrift(pass, key, rate), GroupBill(pass, key), GroupRecovery(pass, key),
                  reported, GroupLeftOut(pass, key, rate));
    TotalScales(accounts, |accounts|, reported, NonSpp(key), rate);
  }

  /** A group of metrics billed by their full amount; SPP metrics are allowed beside them. */
  ghost predicate DefaultBilled(pass: Pass, key: Key, accounts: Accounts) {
    forall i, j :: 0 <= i < |accounts| && 0 <= j < |accounts[i].1| && KeyOf(accounts[i].1[j]) == key ==>
      DefaultMetric(pass, accounts[i].1, accounts[i].1[j])
  }

  predicate DefaultMetric(pass: Pass, usage: Metrics, m: Metric) {
    m.recordType == SppDiscount || (!Excluded(pass, m) && !Recovers(pass, usage, m))
  }

  /** Whether two contributions agree on the metrics of the report. */
  ghost predicate AgreeOn(accounts: Accounts, f: Amount, g: Amount) {
    forall i, j :: 0 <= i < |accounts| && 0 <= j < |accounts[i].1| ==>
      f(accounts[i].1, accounts[i].1[j]) == g(accounts[i].1, accounts[i].1[j])
  }

  lemma {:induction false} SumAgreesOn(usage: Metrics, n: nat, f: Amount, g: Amount)
    requires n <= |usage|
    requires forall j :: 0 <= j < |usage| ==> f(usage, usage[j]) == g(usage, usage[j])
    ensures Sum(usage, n, f) == Sum(usage, n, g)
  {
    if n > 0 {
      SumAgreesOn(usage, n - 1, f, g);
    }
  }

  lemma {:induction false} TotalAgreesOn(accounts: Accounts, n: nat, f: Amount, g: Amount)
    requires n <= |accounts| && AgreeOn(accounts, f, g)
    ensures SumAccounts(accounts, n, f) == SumAccounts(accounts, n, g)
  {
    if n > 0 {
      TotalAgreesOn(accounts, n - 1, f, g);
      SumAgreesOn(accounts[n - 1].1, |accounts[n - 1].1|, f, g);
    }
  }

  function Zero(): Amount {
    (usage: Metrics, m: Metric) => 0.0
  }

  lemma {:induction false} SumZero(usage: Metrics, n: nat)
    requires n <= |usage|
    ensures Sum(usage, n, Zero()) == 0.0
  {
    if n > 0 {
      SumZero(usage, n - 1);
    }
  }

  lemma {:induction false} TotalZero(accounts: Accounts, n: nat)
    requires n <= |accounts|
    ensures SumAccounts(accounts, n, Zero()) == 0.0
  {
    if n > 0 {
      TotalZero(accounts, n - 1);
      SumZero(accounts[n - 1].1, |accounts[n - 1].1|);
    }
  }

  lemma NothingBesidesMetric(pass: Pass, key: Key, usage: Metrics, m: Metric, rate: real)
    requires KeyOf(m) == key ==> DefaultMetric(pass, usage, m)
    ensures GroupLeftOut(pass, key, rate)(usage, m) == 0.0
    ensures GroupRecovery(pass, key)(usage, m) == 0.0
  {
    NoneAtRate(rate);
    if KeyOf(m) == key {
      assert !Recovers(pass, usage, m);
      assert Recovery(pass)(usage, m) == 0.0;
    }
    assert Excluded(pass, m) ==> NonSpp(key)(usage, m) == 0.0;
  }

  lemma NothingBesides(pass: Pass, key: Key, accounts: Accounts, rate: real)
    requires DefaultBilled(pass, key, accounts)
    ensures Total(accounts, GroupLeftOut(pass, key, rate)) == 0.0
    ensures Total(accounts, GroupRecovery(pass, key)) == 0.0
  {
    forall i, j | 0 <= i < |accounts| && 0 <= j < |accounts[i].1|
      ensures GroupLeftOut(pass, key, rate)(accounts[i].1, accounts[i].1[j]) == 0.0
      ensures GroupRecovery(pass, key)(accounts[i].1, accounts[i].1[j]) == 0.0
    {
      NothingBesidesMetric(pass, key, accounts[i].1, accounts[i].1[j], rate);
    }
    TotalZero(accounts, |accounts|);
    TotalAgreesOn(accounts, |accounts|, GroupLeftOut(pass, key, rate), Zero());
    TotalAgreesOn(accounts, |accounts|, GroupRecovery(pass, key), Zero());
  }

  /** For default-billed metrics the journal is within half a unit per metric of the report's sp. */
  lemma DefaultBilledDrift(pass: Pass, key: Key, accounts: Accounts)
    requires key.entity != "" && Converts(pass.invoice, key.entity)
    requires DefaultBilled(pass, key, accounts)
    ensures Abs(Total(accounts, GroupBill(pass, key)) - GroupRow(accounts, key, pass.invoice).sp)
         <= AtRate(Total(accounts, GroupBilled(pass, key)), HALF_UNIT)
  {
    JournalFollowsReport(pass, key, accounts);
    NothingBesides(pass, key, accounts, pass.invoice.entities[key.entity].rate);
  }

  lemma BilledAtFace(pass: Pass, key: Key, accounts: Accounts)
    requires !Converts(pass.invoice, key.entity) && DefaultBilled(pass, key, accounts)
    ensures Total(accounts, GroupBill(pass, key)) == GroupAmounts(accounts, |accounts|, key).amount
  {
    forall i, j | 0 <= i < |accounts| && 0 <= j < |accounts[i].1|
      ensures GroupBill(pass, key)(accounts[i].1, accounts[i].1[j]) == NonSpp(key)(accounts[i].1, accounts[i].1[j])
    {
      FaceValue(pass, key, accounts[i].1, accounts[i].1[j]);
    }
    TotalAgreesOn(accounts, |accounts|, GroupBill(pass, key), NonSpp(key));
  }

  lemma FaceValue(pass: Pass, key: Key, usage: Metrics, m: Metric)
    requires !Converts(pass.invoice, key.entity)
    requires KeyOf(m) == key ==> DefaultMetric(pass, usage, m)
    ensures GroupBill(pass, key)(usage, m) == NonSpp(key)(usage, m)
  {
    MetricBilled(pass, "", usage, m);
  }

  /**
   * Where nothing is converted the journal and the report agree if and only if the report's rate is 1
   * or the group adds up to nothing: the report also applies a rate between equal currencies.
   */
  lemma UnconvertedAgreement(pass: Pass, key: Key, accounts: Accounts)
    requires !Converts(pass.invoice, key.entity) && DefaultBilled(pass, key, accounts)
    ensures Total(accounts, GroupBill(pass, key)) == GroupRow(accounts, key, pass.invoice).sp
       <==> RateOf(key.entity, pass.invoice) == 1.0 || GroupAmounts(accounts, |accounts|, key).amount == 0.0
  {
    BilledAtFace(pass, key, accounts);
    FixedPoint(GroupAmounts(accounts, |accounts|, key).amount, RateOf(key.entity, pass.invoice));
  }

  lemma FixedPoint(amount: real, rate: real)
    ensures amount == AtRate(amount, rate) <==> rate == 1.0 || amount == 0.0
  {
    assert AtRate(amount, rate) - amount == amount * (rate - 1.0);
  }
}
