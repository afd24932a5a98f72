/** The journal lines of the usage report: one processor per record type, applied metric by metric. */
module Lines {
  import opened Usage

  datatype Sku = UsageSku | AdditionalCharges

  /** The charge goes to the agreement or to the subscription of an account. */
  datatype Source = Agreement(id: string) | Subscription(vendor: string)

  datatype Line = Line(
    description: string,
    account: string,
    entity: string,
    invoiceId: string,
    start: string,
    end: string,
    amount: real,
    sku: Sku,
    source: Source)

  datatype Details = Details(agreementId: string, mpaId: string, start: string, end: string, split: bool)

  /** What all metrics of a usage pass share. */
  datatype Pass = Pass(details: Details, invoice: Invoice, isPls: bool)

  const TAX_SERVICE := "Tax"
  const BUNDLED_PREFIX := "Bundled_Discount_"
  const CREDIT_PREFIX := "CREDIT - "
  const SPP_PREFIX := "SPP - "
  const SPP_SUFFIX :=
    " - Invoice amount is 0 with credits applied. The SPP value will not be charged to the customer."
  const DEFAULT_INVOICE_ID := "invoice_id"

  const IGNORED: set<RecordType> := {Tax, SppDiscount, CoveredUsage, Negation}

  /** `JournalLine.build`: only organisation charges under split billing go to the agreement. */
  function Route(details: Details, account: string, organisation: bool): Source {
    if organisation && details.split then Agreement(details.agreementId)
    else Subscription(if account == "" then details.mpaId else account)
  }

  predicate HasSpp(usage: Metrics, service: string) {
    exists i :: 0 <= i < |usage| && usage[i].service == service
             && usage[i].recordType == SppDiscount && usage[i].amount != 0.0
  }

  /** The default processor asks for an SPP discount of the service; the others do not. */
  function ResolveSku(usage: Metrics, m: Metric): Sku {
    match m.recordType
    case SupportType | Credit | Marketplace => AdditionalCharges
    case _ => if HasSpp(usage, m.service) then UsageSku else AdditionalCharges
  }

  function BuildLine(pass: Pass, account: string, m: Metric, description: string, sku: Sku): Line {
    Line(description, account, m.entity, if m.invoiceId == "" then DEFAULT_INVOICE_ID else m.invoiceId,
         m.start, m.end, Converted(m, pass.invoice), sku, Route(pass.details, account, false))
  }

  /** The position of the first SPP metric of the same service and dates, from `i` on. */
  function FindSpp(usage: Metrics, m: Metric, i: nat): Option<Metric>
    requires i <= |usage|
    decreases |usage| - i
  {
    if i == |usage| then None
    else if usage[i].service == m.service && usage[i].recordType == SppDiscount
         && usage[i].start == m.start && usage[i].end == m.end then Some(usage[i])
    else FindSpp(usage, m, i + 1)
  }

  /** The line that returns the SPP benefit when credits have brought the invoice to zero. */
  function RecoveryLines(pass: Pass, account: string, usage: Metrics, m: Metric): seq<Line> {
    if pass.invoice.principal != Some(0.0) then []
    else
      match FindSpp(usage, m, 0)
      case None => []
      case Some(spp) =>
        if spp.amount == 0.0 then []
        else [BuildLine(pass, account, spp, SPP_PREFIX + spp.service + SPP_SUFFIX, AdditionalCharges)]
  }

  /** Whether the processor of its record type passes over the metric. */
  predicate Skips(pass: Pass, m: Metric) {
    match m.recordType
    case SupportType => pass.isPls && m.service == ENTERPRISE_SUPPORT
    case Marketplace => m.service == TAX_SERVICE
    case SavingPlanFee => pass.details.split
    case _ => false
  }

  function Prefix(t: RecordType): string {
    match t
    case Credit => CREDIT_PREFIX
    case BundledDiscount => BUNDLED_PREFIX
    case _ => ""
  }

  /** The `process` of the registered processor. */
  function Process(pass: Pass, account: string, usage: Metrics, m: Metric): seq<Line> {
    if Skips(pass, m) || m.amount == 0.0 then []
    else
      [BuildLine(pass, account, m, Prefix(m.recordType) + m.service, ResolveSku(usage, m))]
      + (if m.recordType == Credit then RecoveryLines(pass, account, usage, m) else [])
  }

  function MetricLines(pass: Pass, account: string, usage: Metrics, m: Metric): seq<Line> {
    if m.recordType in IGNORED then [] else Process(pass, account, usage, m)
  }

  /** The lines of an account's metrics, for an account of that id. */
  function MetricSource(pass: Pass, account: string): (Metrics, Metric) -> seq<Line> {
    (usage: Metrics, m: Metric) => MetricLines(pass, account, usage, m)
  }

  function AccountLines(pass: Pass, a: (string, Metrics)): seq<Line> {
    FlatTo(a.1, |a.1|, MetricSource(pass, a.0))
  }

  function AccountSource(pass: Pass): ((string, Metrics)) -> seq<Line> {
    (a: (string, Metrics)) => AccountLines(pass, a)
  }

  /** The lines of the usage pass, account by account and metric by metric. */
  function UsageLines(pass: Pass, accounts: Accounts): seq<Line> {
    FlatAccounts(accounts, |accounts|, AccountSource(pass))
  }

  /** `JournalLineGenerator.generate`. */
  method Generate(pass: Pass, account: string, usage: Metrics) returns (lines: seq<Line>)
    ensures lines == AccountLines(pass, (account, usage))
  {
    lines := [];
    for i := 0 to |usage|
      invariant lines == FlatTo(usage, i, MetricSource(pass, account))
    {
      if usage[i].recordType in IGNORED {
        continue;
      }
      lines := lines + Process(pass, account, usage, usage[i]);
    }
  }

  /** `AgreementJournalGenerator._generate_usage_lines`. */
  method GenerateUsageLines(pass: Pass, accounts: Accounts) returns (lines: seq<Line>)
    ensures lines == UsageLines(pass, accounts)
  {
    lines := [];
    for i := 0 to |accounts|
      invariant lines == FlatAccounts(accounts, i, AccountSource(pass))
    {
      var more := Generate(pass, accounts[i].0, accounts[i].1);
      lines := lines + more;
    }
  }

  /** The bill: the sum of the prices of the lines. */
  function Bill(lines: seq<Line>): real {
    if lines == [] then 0.0 else Bill(lines[..|lines| - 1]) + lines[|lines| - 1].amount
  }

  lemma {:induction false} BillAppends(a: seq<Line>, b: seq<Line>)
    ensures Bill(a + b) == Bill(a) + Bill(b)
  {
    if b == [] {
      assert a + b == a;
    } else {
      BillAppends(a, b[..|b| - 1]);
      assert (a + b)[..|a + b| - 1] == a + b[..|b| - 1];
    }
  }

  /** The full converted amount of every metric. */
  function Everything(invoice: Invoice): Amount {
    (usage: Metrics, m: Metric) => Converted(m, invoice)
  }

  /** A metric that is never billed in this pass. */
  predicate Excluded(pass: Pass, m: Metric) {
    m.recordType in IGNORED || Skips(pass, m)
  }

  function ExcludedAmount(pass: Pass): Amount {
    (usage: Metrics, m: Metric) => if Excluded(pass, m) then Converted(m, pass.invoice) else 0.0
  }

  /** One SPP recovery for a non-zero credit with an SPP metric of its service and dates. */
  predicate Recovers(pass: Pass, usage: Metrics, m: Metric) {
    && m.recordType == Credit
    && m.amount != 0.0
    && pass.invoice.principal == Some(0.0)
    && FindSpp(usage, m, 0).Some?
  }

  function Recovery(pass: Pass): Amount {
    (usage: Metrics, m: Metric) =>
      if Recovers(pass, usage, m) then Converted(FindSpp(usage, m, 0).value, pass.invoice) else 0.0
  }

  /** What is left of everything when the exclusions are taken out. */
  function Kept(pass: Pass): Amount {
    (usage: Metrics, m: Metric) => if Excluded(pass, m) then 0.0 else Converted(m, pass.invoice)
  }

  lemma BillOne(line: Line)
    ensures Bill([line]) == line.amount
  {
    assert [line][..0] == [];
  }

  lemma RecoveryBilled(pass: Pass, account: string, usage: Metrics, m: Metric)
    requires m.recordType == Credit && m.amount != 0.0
    ensures Bill(RecoveryLines(pass, account, usage, m)) == Recovery(pass)(usage, m)
  {
    if pass.invoice.principal == Some(0.0) {
      var found := FindSpp(usage, m, 0);
      if found.Some? {
        ZeroConverts(found.value, pass.invoice);
        if found.value.amount != 0.0 {
          BillOne(BuildLine(pass, account, found.value, SPP_PREFIX + found.value.service + SPP_SUFFIX, AdditionalCharges));
        }
      }
    }
  }

  /** One metric adds its converted amount unless it is excluded, and the recovery if there is one. */
  lemma MetricBilled(pass: Pass, account: string, usage: Metrics, m: Metric)
    ensures Bill(MetricLines(pass, account, usage, m)) == Kept(pass)(usage, m) + Recovery(pass)(usage, m)
  {
    ZeroConverts(m, pass.invoice);
    if !Excluded(pass, m) && m.amount != 0.0 {
      var line := BuildLine(pass, account, m, Prefix(m.recordType) + m.service, ResolveSku(usage, m));
      BillOne(line);
      if m.recordType == Credit {
        BillAppends([line], RecoveryLines(pass, account, usage, m));
        RecoveryBilled(pass, account, usage, m);
      } else {
        assert [line] + [] == [line];
      }
    }
  }

  function BillOf(source: (Metrics, Metric) -> seq<Line>): Amount {
    (usage: Metrics, m: Metric) => Bill(source(usage, m))
  }

  function BillOfAccount(source: ((string, Metrics)) -> seq<Line>): ((string, Metrics)) -> real {
    (a: (string, Metrics)) => Bill(source(a))
  }

  /** The bill of an account is the sum over its metrics, whatever lines they yield. */
  lemma {:induction false} FlatBill(usage: Metrics, n: nat, source: (Metrics, Metric) -> seq<Line>)
    requires n <= |usage|
    ensures Bill(FlatTo(usage, n, source)) == Sum(usage, n, BillOf(source))
  {
    if n > 0 {
      FlatBill(usage, n - 1, source);
      BillAppends(FlatTo(usage, n - 1, source), source(usage, usage[n - 1]));
    }
  }

  lemma {:induction false} FlatAccountsBill(accounts: Accounts, n: nat, source: ((string, Metrics)) -> seq<Line>)
    requires n <= |accounts|
    ensures Bill(FlatAccounts(accounts, n, source)) == SumOver(accounts, n, BillOfAccount(source))
  {
    if n > 0 {
      FlatAccountsBill(accounts, n - 1, source);
      BillAppends(FlatAccounts(accounts, n - 1, source), source(accounts[n - 1]));
    }
  }

  /** What is kept of a metric and what is recovered for it, together. */
  function KeptAndRecovery(pass: Pass): Amount {
    (usage: Metrics, m: Metric) => Kept(pass)(usage, m) + Recovery(pass)(usage, m)
  }

  lemma AccountBilled(pass: Pass, a: (string, Metrics))
    ensures BillOfAccount(AccountSource(pass))(a) == Sum(a.1, |a.1|, KeptAndRecovery(pass))
  {
    var bill := BillOf(MetricSource(pass, a.0));
    FlatBill(a.1, |a.1|, MetricSource(pass, a.0));
    forall usage, m ensures bill(usage, m) == KeptAndRecovery(pass)(usage, m) {
      MetricBilled(pass, a.0, usage, m);
    }
    SumAgrees(a.1, |a.1|, bill, KeptAndRecovery(pass));
  }

  /** The bill of the usage pass: what is kept of every metric, and the recoveries. */
  lemma PassBilled(pass: Pass, accounts: Accounts)
    ensures Bill(UsageLines(pass, accounts)) == Total(accounts, Kept(pass)) + Total(accounts, Recovery(pass))
  {
    var bill := BillOfAccount(AccountSource(pass));
    FlatAccountsBill(accounts, |accounts|, AccountSource(pass));
    forall a ensures bill(a) == Sum(a.1, |a.1|, KeptAndRecovery(pass)) {
      AccountBilled(pass, a);
    }
    SumOverMetrics(accounts, |accounts|, bill, KeptAndRecovery(pass));
    TotalAdds(accounts, |accounts|, KeptAndRecovery(pass), Kept(pass), Recovery(pass));
  }

  /** Conservation: the bill is everything, minus exactly the exclusions, plus the SPP recoveries. */
  lemma UsagePassConserves(pass: Pass, accounts: Accounts)
    ensures Bill(UsageLines(pass, accounts))
         == Total(accounts, Everything(pass.invoice)) - Total(accounts, ExcludedAmount(pass))
          + Total(accounts, Recovery(pass))
  {
    PassBilled(pass, accounts);
    TotalAdds(accounts, |accounts|, Everything(pass.invoice), Kept(pass), ExcludedAmount(pass));
  }

  predicate Matches(spp: Metric, m: Metric) {
    spp.service == m.service && spp.recordType == SppDiscount && spp.start == m.start && spp.end == m.end
  }

  /** The search finds a matching SPP metric if and only if there is one. */
  lemma {:induction false} FindSppSucceeds(usage: Metrics, m: Metric, i: nat)
    requires i <= |usage|
    ensures FindSpp(usage, m, i).None? <==> forall k :: i <= k < |usage| ==> !Matches(usage[k], m)
    decreases |usage| - i
  {
    if i < |usage| {
      FindSppSucceeds(usage, m, i + 1);
    }
  }

  /** What it finds is the first match. */
  lemma {:induction false} FindSppFirst(usage: Metrics, m: Metric, i: nat) returns (k: nat)
    requires i <= |usage| && FindSpp(usage, m, i).Some?
    ensures i <= k < |usage| && usage[k] == FindSpp(usage, m, i).value && Matches(usage[k], m)
    ensures forall j :: i <= j < k ==> !Matches(usage[j], m)
    decreases |usage| - i
  {
    if Matches(usage[i], m) {
      k := i;
    } else {
      k := FindSppFirst(usage, m, i + 1);
    }
  }

  /** A line carries the dates, entity, invoice and converted amount of a metric of the account. */
  predicate Carries(pass: Pass, account: string, m: Metric, line: Line) {
    && line.account == account
    && (line.source == Subscription(account) || (account == "" && line.source == Subscription(pass.details.mpaId)))
    && line.start == m.start && line.end == m.end && line.entity == m.entity
    && line.invoiceId == (if m.invoiceId == "" then DEFAULT_INVOICE_ID else m.invoiceId)
    && line.amount == Converted(m, pass.invoice)
  }

  /** The line of a billed metric: usage goes to the usage item when its service has an SPP discount. */
  predicate OwnLine(pass: Pass, account: string, usage: Metrics, m: Metric, line: Line) {
    && !Excluded(pass, m) && m.amount != 0.0 && Carries(pass, account, m, line)
    && line.description == (match m.recordType
                            case Credit => "CREDIT - "
                            case BundledDiscount => "Bundled_Discount_"
                            case _ => "") + m.service
    && (line.sku == UsageSku <==>
          && m.recordType !in {SupportType, Credit, Marketplace}
          && exists k :: 0 <= k < |usage| && usage[k].service == m.service && usage[k].recordType == SppDiscount
                      && usage[k].amount != 0.0)
  }

  function RecoveryText(service: string): string {
    "SPP - " + service
    + " - Invoice amount is 0 with credits applied. The SPP value will not be charged to the customer."
  }

  /** The line that gives back the SPP benefit of a credited service at a zero principal amount. */
  predicate RecoveryLine(pass: Pass, account: string, usage: Metrics, credit: Metric, line: Line) {
    && credit.recordType == Credit && credit.amount != 0.0 && pass.invoice.principal == Some(0.0)
    && exists k :: 0 <= k < |usage| && Matches(usage[k], credit) && Carries(pass, account, usage[k], line)
                && line.sku == AdditionalCharges && line.description == RecoveryText(usage[k].service)
  }

  function LineOf(pass: Pass, account: string, usage: Metrics, m: Metric): Line {
    BuildLine(pass, account, m, Prefix(m.recordType) + m.service, ResolveSku(usage, m))
  }

  lemma OwnLineOf(pass: Pass, account: string, usage: Metrics, m: Metric)
    requires !Excluded(pass, m) && m.amount != 0.0
    ensures LineOf(pass, account, usage, m) in MetricLines(pass, account, usage, m)
    ensures OwnLine(pass, account, usage, m, LineOf(pass, account, usage, m))
  {
    assert "" + m.service == m.service;
  }

  lemma MetricLineOrigin(pass: Pass, account: string, usage: Metrics, m: Metric, line: Line)
    requires line in MetricLines(pass, account, usage, m)
    ensures OwnLine(pass, account, usage, m, line) || RecoveryLine(pass, account, usage, m, line)
  {
    if m.recordType == Credit && line in RecoveryLines(pass, account, usage, m) {
      var k := FindSppFirst(usage, m, 0);
      assert Carries(pass, account, usage[k], line);
    } else {
      OwnLineOf(pass, account, usage, m);
    }
  }

  /** A credit has its own line, and behind it the recovery exactly when the principal amount is zero and the
      first SPP metric of its service and dates is not. */
  lemma CreditLines(pass: Pass, account: string, usage: Metrics, m: Metric)
    requires m.recordType == Credit && m.amount != 0.0
    ensures
      var lines := MetricLines(pass, account, usage, m);
      && 1 <= |lines| <= 2 && OwnLine(pass, account, usage, m, lines[0])
      && (|lines| == 2 ==> RecoveryLine(pass, account, usage, m, lines[1]))
      && (|lines| == 2 <==>
            && pass.invoice.principal == Some(0.0)
            && exists k :: 0 <= k < |usage| && Matches(usage[k], m) && usage[k].amount != 0.0
                        && forall j :: 0 <= j < k ==> !Matches(usage[j], m))
  {
    var lines := MetricLines(pass, account, usage, m);
    OwnLineOf(pass, account, usage, m);
    assert lines[0] == LineOf(pass, account, usage, m);
    FindSppSucceeds(usage, m, 0);
    if FindSpp(usage, m, 0).Some? {
      var k := FindSppFirst(usage, m, 0);
      assert forall i :: 0 <= i < |usage| && Matches(usage[i], m) && (forall j :: 0 <= j < i ==> !Matches(usage[j], m)) ==> i == k;
      if |lines| == 2 {
        assert Carries(pass, account, usage[k], lines[1]);
      }
    }
  }

  /** What a line stands for: every usage line is a billed metric's own line, or a credit's recovery. */
  lemma UsageLineOrigin(pass: Pass, accounts: Accounts, line: Line)
    requires line in UsageLines(pass, accounts)
    ensures exists i, j :: 0 <= i < |accounts| && 0 <= j < |accounts[i].1|
                        && (OwnLine(pass, accounts[i].0, accounts[i].1, accounts[i].1[j], line)
                            || RecoveryLine(pass, accounts[i].0, accounts[i].1, accounts[i].1[j], line))
  {
    InFlatAccounts(accounts, |accounts|, AccountSource(pass), line);
    var i :| 0 <= i < |accounts| && line in AccountSource(pass)(accounts[i]);
    var (id, usage) := accounts[i];
    InFlat(usage, |usage|, MetricSource(pass, id), line);
    var j :| 0 <= j < |usage| && line in MetricSource(pass, id)(usage, usage[j]);
    MetricLineOrigin(pass, id, usage, usage[j], line);
  }

  /** Every metric that is not excluded and not zero has its line. */
  lemma UsageMetricHasLine(pass: Pass, accounts: Accounts, i: nat, j: nat)
    requires i < |accounts| && j < |accounts[i].1|
    requires !Excluded(pass, accounts[i].1[j]) && accounts[i].1[j].amount != 0.0
    ensures exists line :: line in UsageLines(pass, accounts)
                        && OwnLine(pass, accounts[i].0, accounts[i].1, accounts[i].1[j], line)
  {
    var (id, usage) := accounts[i];
    var line := LineOf(pass, id, usage, usage[j]);
    OwnLineOf(pass, id, usage, usage[j]);
    assert line in MetricSource(pass, id)(usage, usage[j]);
    InFlat(usage, |usage|, MetricSource(pass, id), line);
    assert line in AccountSource(pass)(accounts[i]);
    InFlatAccounts(accounts, |accounts|, AccountSource(pass), line);
  }

  /** A line together with the type of the metric that it was made for. */
  type Tagged = seq<(RecordType, Line)>

  function Tag(t: RecordType, lines: seq<Line>): (r: Tagged)
    ensures |r| == |lines| && forall k :: 0 <= k < |lines| ==> r[k] == (t, lines[k])
  {
    seq(|lines|, k requires 0 <= k < |lines| => (t, lines[k]))
  }

  function TaggedSource(pass: Pass, account: string): (Metrics, Metric) -> Tagged {
    (usage: Metrics, m: Metric) => Tag(m.recordType, MetricLines(pass, account, usage, m))
  }

  function TaggedAccountSource(pass: Pass): ((string, Metrics)) -> Tagged {
    (a: (string, Metrics)) => FlatTo(a.1, |a.1|, TaggedSource(pass, a.0))
  }

  /** The lines of the usage pass, each with the type of its metric. */
  function TaggedLines(pass: Pass, accounts: Accounts): Tagged {
    FlatAccounts(accounts, |accounts|, TaggedAccountSource(pass))
  }

  function Untag(tagged: Tagged): (lines: seq<Line>)
    ensures |lines| == |tagged| && forall k :: 0 <= k < |tagged| ==> lines[k] == tagged[k].1
  {
    seq(|tagged|, k requires 0 <= k < |tagged| => tagged[k].1)
  }

  /** The lines with one tag. */
  function OfTag(tagged: Tagged, t: RecordType): seq<Line> {
    if tagged == [] then []
    else OfTag(tagged[..|tagged| - 1], t) + if tagged[|tagged| - 1].0 == t then [tagged[|tagged| - 1].1] else []
  }

  /** The lines of the usage pass that were made for metrics of one type. */
  function UsageLinesOfType(pass: Pass, accounts: Accounts, t: RecordType): seq<Line> {
    OfTag(TaggedLines(pass, accounts), t)
  }

  lemma {:induction false} FlatUntag(usage: Metrics, n: nat, tagged: (Metrics, Metric) -> Tagged,
                                     plain: (Metrics, Metric) -> seq<Line>)
    requires n <= |usage| && forall u, m :: Untag(tagged(u, m)) == plain(u, m)
    ensures Untag(FlatTo(usage, n, tagged)) == FlatTo(usage, n, plain)
  {
    if n > 0 {
      FlatUntag(usage, n - 1, tagged, plain);
      UntagConcat(FlatTo(usage, n - 1, tagged), tagged(usage, usage[n - 1]));
    }
  }

  lemma {:induction false} FlatAccountsUntag(accounts: Accounts, n: nat, tagged: ((string, Metrics)) -> Tagged,
                                             plain: ((string, Metrics)) -> seq<Line>)
    requires n <= |accounts| && forall a :: Untag(tagged(a)) == plain(a)
    ensures Untag(FlatAccounts(accounts, n, tagged)) == FlatAccounts(accounts, n, plain)
  {
    if n > 0 {
      FlatAccountsUntag(accounts, n - 1, tagged, plain);
      UntagConcat(FlatAccounts(accounts, n - 1, tagged), tagged(accounts[n - 1]));
    }
  }

  lemma UntagConcat(a: Tagged, b: Tagged)
    ensures Untag(a + b) == Untag(a) + Untag(b)
  {
  }

  /** The tagged lines are the lines of the usage pass, one tag each. */
  lemma TaggedAreUsageLines(pass: Pass, accounts: Accounts)
    ensures Untag(TaggedLines(pass, accounts)) == UsageLines(pass, accounts)
  {
    var tagged, plain := TaggedAccountSource(pass), AccountSource(pass);
    forall a ensures Untag(tagged(a)) == plain(a) {
      AccountUntag(pass, a);
    }
    FlatAccountsUntag(accounts, |accounts|, tagged, plain);
  }

  lemma AccountUntag(pass: Pass, a: (string, Metrics))
    ensures Untag(TaggedAccountSource(pass)(a)) == AccountSource(pass)(a)
  {
    var tagged, plain := TaggedSource(pass, a.0), MetricSource(pass, a.0);
    forall u, m ensures Untag(tagged(u, m)) == plain(u, m) {
    }
    FlatUntag(a.1, |a.1|, tagged, plain);
  }

  lemma {:induction false} OfTagConcat(a: Tagged, b: Tagged, t: RecordType)
    ensures OfTag(a + b, t) == OfTag(a, t) + OfTag(b, t)
  {
    if b == [] {
      assert a + b == a;
    } else {
      OfTagConcat(a, b[..|b| - 1], t);
      assert (a + b)[..|a + b| - 1] == a + b[..|b| - 1];
    }
  }

  lemma {:induction false} OfTagTagged(tag: RecordType, lines: seq<Line>, t: RecordType)
    ensures OfTag(Tag(tag, lines), t) == if tag == t then lines else []
  {
    if lines != [] {
      OfTagTagged(tag, lines[..|lines| - 1], t);
      assert Tag(tag, lines)[..|lines| - 1] == Tag(tag, lines[..|lines| - 1]);
      assert lines == lines[..|lines| - 1] + [lines[|lines| - 1]];
    }
  }

  /** What the lines with one tag among those of a metric, or of an account, bill. */
  function BillOfTag(source: (Metrics, Metric) -> Tagged, t: RecordType): Amount {
    (usage: Metrics, m: Metric) => Bill(OfTag(source(usage, m), t))
  }

  function BillOfAccountTag(source: ((string, Metrics)) -> Tagged, t: RecordType): ((string, Metrics)) -> real {
    (a: (string, Metrics)) => Bill(OfTag(source(a), t))
  }

  lemma {:induction false} FlatTagBill(usage: Metrics, n: nat, source: (Metrics, Metric) -> Tagged, t: RecordType)
    requires n <= |usage|
    ensures Bill(OfTag(FlatTo(usage, n, source), t)) == Sum(usage, n, BillOfTag(source, t))
  {
    if n > 0 {
      var before, last := FlatTo(usage, n - 1, source), source(usage, usage[n - 1]);
      FlatTagBill(usage, n - 1, source, t);
      OfTagConcat(before, last, t);
      BillAppends(OfTag(before, t), OfTag(last, t));
    }
  }

  lemma {:induction false} FlatAccountsTagBill(accounts: Accounts, n: nat, source: ((string, Metrics)) -> Tagged,
                                               t: RecordType)
    requires n <= |accounts|
    ensures Bill(OfTag(FlatAccounts(accounts, n, source), t)) == SumOver(accounts, n, BillOfAccountTag(source, t))
  {
    if n > 0 {
      var before, last := FlatAccounts(accounts, n - 1, source), source(accounts[n - 1]);
      FlatAccountsTagBill(accounts, n - 1, source, t);
      OfTagConcat(before, last, t);
      BillAppends(OfTag(before, t), OfTag(last, t));
    }
  }

  /** Whether every metric of the type adds `f` of it to the bill, and the others have none of it. */
  ghost predicate TypeBilledAs(pass: Pass, t: RecordType, f: Amount) {
    forall account, usage, m ::
      f(usage, m) == if m.recordType == t then Bill(MetricLines(pass, account, usage, m)) else 0.0
  }

  lemma MetricTypeBilled(pass: Pass, account: string, usage: Metrics, m: Metric, t: RecordType, f: Amount)
    requires TypeBilledAs(pass, t, f)
    ensures BillOfTag(TaggedSource(pass, account), t)(usage, m) == f(usage, m)
  {
    var lines := MetricLines(pass, account, usage, m);
    var source := TaggedSource(pass, account);
    assert f(usage, m) == if m.recordType == t then Bill(lines) else 0.0;
    assert source(usage, m) == Tag(m.recordType, lines);
    assert BillOfTag(source, t)(usage, m) == Bill(OfTag(source(usage, m), t));
    OfTagTagged(m.recordType, lines, t);
    assert Bill([]) == 0.0;
  }

  ghost predicate SameAmounts(f: Amount, g: Amount) {
    forall usage, m :: f(usage, m) == g(usage, m)
  }

  lemma TypesBilled(pass: Pass, account: string, t: RecordType, f: Amount)
    requires TypeBilledAs(pass, t, f)
    ensures SameAmounts(BillOfTag(TaggedSource(pass, account), t), f)
  {
    forall usage, m ensures BillOfTag(TaggedSource(pass, account), t)(usage, m) == f(usage, m) {
      MetricTypeBilled(pass, account, usage, m, t, f);
    }
  }

  lemma AccountTypeBilled(pass: Pass, a: (string, Metrics), t: RecordType, f: Amount)
    requires SameAmounts(BillOfTag(TaggedSource(pass, a.0), t), f)
    ensures BillOfAccountTag(TaggedAccountSource(pass), t)(a) == Sum(a.1, |a.1|, f)
  {
    FlatTagBill(a.1, |a.1|, TaggedSource(pass, a.0), t);
    SumAgrees(a.1, |a.1|, BillOfTag(TaggedSource(pass, a.0), t), f);
  }

  /** The bill of the lines of one type is what the metrics of that type add. */
  lemma TypeBilled(pass: Pass, accounts: Accounts, t: RecordType, f: Amount)
    requires TypeBilledAs(pass, t, f)
    ensures Bill(UsageLinesOfType(pass, accounts, t)) == Total(accounts, f)
  {
    var bill := BillOfAccountTag(TaggedAccountSource(pass), t);
    FlatAccountsTagBill(accounts, |accounts|, TaggedAccountSource(pass), t);
    forall a ensures bill(a) == Sum(a.1, |a.1|, f) {
      TypesBilled(pass, a.0, t, f);
      AccountTypeBilled(pass, a, t, f);
    }
    SumOverMetrics(accounts, |accounts|, bill, f);
  }
}
