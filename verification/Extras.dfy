/** The lines added after the usage pass: the three extra discounts and the PLS support charge. */
module Extras {
  import opened Money
  import opened Usage
  import opened Lines

  datatype Support = PartnerLed | Resold | OtherSupport

  /** The agreement's parameters; an unset discount is `None`. */
  datatype Terms = Terms(
    handshakeApproved: bool,
    support: Support,
    serviceDiscount: Option<real>,
    supportDiscount: Option<real>,
    plsDiscount: Option<real>,
    serviceByUsage: bool)

  datatype Discount = ServiceDiscount | SupportDiscount | PlsDiscount

  const PLS_CHARGE := "SWO Enterprise support for AWS"

  const SPENDING: set<RecordType> := {UsageType, Recurring, SavingPlanFee}

  function Name(d: Discount): string {
    match d
    case ServiceDiscount => "SWO additional Usage discount"
    case SupportDiscount => "SWO additional Support discount"
    case PlsDiscount => "SWO additional PLS Support discount"
  }

  predicate Applies(d: Discount, terms: Terms) {
    terms.handshakeApproved
    && match d
       case ServiceDiscount => true
       case SupportDiscount => terms.support == Resold
       case PlsDiscount => terms.support == PartnerLed
  }

  /** The percentage that the agreement sets for the discount. */
  function Agreed(d: Discount, terms: Terms): Option<real> {
    match d
    case ServiceDiscount => terms.serviceDiscount
    case SupportDiscount => terms.supportDiscount
    case PlsDiscount => terms.plsDiscount
  }

  function Percentage(d: Discount, terms: Terms): real {
    match Agreed(d, terms) case None => 0.0 case Some(v) => v
  }

  function Share(base: real, percentage: real): real {
    Round6(AtRate(base, percentage / 100.0))
  }

  /** Whether the account has a metric of one of the types for the service. */
  predicate Serves(usage: Metrics, service: string, types: set<RecordType>) {
    exists i :: 0 <= i < |usage| && usage[i].service == service && usage[i].recordType in types
  }

  /** The SPP discounts of the services for which the account has a metric of the types. */
  function SppOf(types: set<RecordType>, invoice: Invoice): Amount {
    (usage: Metrics, m: Metric) =>
      if m.recordType == SppDiscount && Serves(usage, m.service, types) then Converted(m, invoice) else 0.0
  }

  function Base(d: Discount, terms: Terms, accounts: Accounts, invoice: Invoice): real {
    match d
    case ServiceDiscount =>
      if terms.serviceByUsage then Total(accounts, OfTypes(SPENDING, invoice))
      else Total(accounts, SppOf(SPENDING, invoice))
    case SupportDiscount => Total(accounts, SppOf({SupportType}, invoice))
    case PlsDiscount => Total(accounts, OfTypes({UsageType}, invoice))
  }

  function Primary(invoice: Invoice, i: nat): Option<string>
    requires i <= |invoice.order|
    decreases |invoice.order| - i
  {
    if i == |invoice.order| then None
    else
      var name := invoice.order[i];
      if name in invoice.entities && invoice.entities[name].primary then Some(name) else Primary(invoice, i + 1)
  }

  /** A charge of the whole organisation, booked on the primary invoice. */
  function OrganisationLine(description: string, amount: real, details: Details, invoice: Invoice): Line {
    var primary := Primary(invoice, 0);
    var (entity, id) :=
      if primary.Some? && primary.value in invoice.entities
      then (primary.value, invoice.entities[primary.value].invoiceId)
      else ("", DEFAULT_INVOICE_ID);
    Line(description, details.mpaId, entity, id, details.start, details.end, amount, AdditionalCharges,
         Route(details, details.mpaId, true))
  }

  function DiscountLines(d: Discount, terms: Terms, accounts: Accounts, details: Details, invoice: Invoice)
    : seq<Line>
  {
    var base := Base(d, terms, accounts, invoice);
    if invoice.principal == Some(0.0) || !Applies(d, terms) || Percentage(d, terms) <= 0.0 || base == 0.0 then []
    else [OrganisationLine(Name(d), -Abs(Share(base, Percentage(d, terms))), details, invoice)]
  }

  function PlsChargeLines(percentage: real, terms: Terms, accounts: Accounts, details: Details, invoice: Invoice)
    : seq<Line>
  {
    var base := Total(accounts, OfTypes({UsageType}, invoice));
    if terms.support != PartnerLed || !HasEnterpriseSupport(accounts) || invoice.principal == Some(0.0)
       || percentage <= 0.0 || base <= 0.0 then []
    else [OrganisationLine(PLS_CHARGE, Share(base, percentage), details, invoice)]
  }

  /** The loops that add up the SPP discounts account by account. */
  method CalculateSppBase(accounts: Accounts, invoice: Invoice, types: set<RecordType>) returns (total: real)
    ensures total == Total(accounts, SppOf(types, invoice))
  {
    total := 0.0;
    for i := 0 to |accounts|
      invariant total == SumAccounts(accounts, i, SppOf(types, invoice))
    {
      var usage := accounts[i].1;
      var services := set k | 0 <= k < |usage| && usage[k].recordType in types :: usage[k].service;
      var subtotal := 0.0;
      for j := 0 to |usage|
        invariant subtotal == Sum(usage, j, SppOf(types, invoice))
      {
        assert usage[j].service in services <==> Serves(usage, usage[j].service, types);
        if usage[j].recordType == SppDiscount && usage[j].service in services {
          subtotal := subtotal + Converted(usage[j], invoice);
        }
      }
      total := total + subtotal;
    }
  }

  method CalculateBase(d: Discount, terms: Terms, accounts: Accounts, invoice: Invoice) returns (base: real)
    ensures base == Base(d, terms, accounts, invoice)
  {
    match d {
      case ServiceDiscount =>
        if terms.serviceByUsage {
          base := CalculateTotalByRecordTypes(accounts, invoice, SPENDING);
        } else {
          base := CalculateSppBase(accounts, invoice, SPENDING);
        }
      case SupportDiscount =>
        base := CalculateSppBase(accounts, invoice, {SupportType});
      case PlsDiscount =>
        base := CalculateTotalByRecordTypes(accounts, invoice, {UsageType});
    }
  }

  /** `BaseExtraDiscountProcessor.process`. */
  method ProcessDiscount(d: Discount, terms: Terms, accounts: Accounts, details: Details, invoice: Invoice)
    returns (lines: seq<Line>)
    ensures lines == DiscountLines(d, terms, accounts, details, invoice)
  {
    if invoice.principal == Some(0.0) {
      return [];
    }
    if !Applies(d, terms) {
      return [];
    }
    if Percentage(d, terms) <= 0.0 {
      return [];
    }
    var base := CalculateBase(d, terms, accounts, invoice);
    if base == 0.0 {
      return [];
    }
    var refund := Share(base, Percentage(d, terms));
    return [OrganisationLine(Name(d), -Abs(refund), details, invoice)];
  }

  /** `PlSChargeProcessor.process`. */
  method ProcessPlsCharge(percentage: real, terms: Terms, accounts: Accounts, details: Details, invoice: Invoice)
    returns (lines: seq<Line>)
    ensures lines == PlsChargeLines(percentage, terms, accounts, details, invoice)
  {
    if terms.support != PartnerLed || !HasEnterpriseSupport(accounts) {
      return [];
    }
    if invoice.principal == Some(0.0) {
      return [];
    }
    if percentage <= 0.0 {
      return [];
    }
    var base := CalculateTotalByRecordTypes(accounts, invoice, {UsageType});
    if base <= 0.0 {
      return [];
    }
    return [OrganisationLine(PLS_CHARGE, Share(base, percentage), details, invoice)];
  }

  /** The base of the PLS charge is exactly what the journal's Usage lines bill, over all accounts. */
  lemma PlsBaseIsBilledUsage(pass: Pass, accounts: Accounts)
    ensures Bill(UsageLinesOfType(pass, accounts, UsageType)) == Total(accounts, OfTypes({UsageType}, pass.invoice))
  {
    var f := OfTypes({UsageType}, pass.invoice);
    forall account, usage, m
      ensures f(usage, m) == if m.recordType == UsageType then Bill(MetricLines(pass, account, usage, m)) else 0.0
    {
      MetricBilled(pass, account, usage, m);
    }
    TypeBilled(pass, accounts, UsageType, f);
  }

  /** `lines` charge the percentage of `base`, exactly under the conditions of a PLS charge. */
  predicate ChargesOn(base: real, lines: seq<Line>, percentage: real, terms: Terms, accounts: Accounts,
                      details: Details, invoice: Invoice) {
    && |lines| <= 1
    && (|lines| == 1 <==>
        && terms.support == PartnerLed && HasEnterpriseSupport(accounts)
        && invoice.principal != Some(0.0) && percentage > 0.0 && base > 0.0)
    && (|lines| == 1 ==>
        && OrganisationCharge(details, invoice, lines[0])
        && lines[0].description == "SWO Enterprise support for AWS"
        && Abs(lines[0].amount - AtRate(base, percentage / 100.0)) <= HALF_UNIT)
  }

  /** When a PLS charge is made, and how it follows from the Usage lines of the journal. */
  lemma PlsChargeFollowsUsageLines(pass: Pass, percentage: real, terms: Terms, accounts: Accounts)
    ensures ChargesOn(Bill(UsageLinesOfType(pass, accounts, UsageType)),
      PlsChargeLines(percentage, terms, accounts, pass.details, pass.invoice),
      percentage, terms, accounts, pass.details, pass.invoice)
  {
    PlsBaseIsBilledUsage(pass, accounts);
    PlsChargeFollowsBase(percentage, terms, accounts, pass.details, pass.invoice);
  }

  lemma PlsChargeFollowsBase(percentage: real, terms: Terms, accounts: Accounts, details: Details, invoice: Invoice)
    ensures ChargesOn(Total(accounts, OfTypes({UsageType}, invoice)),
      PlsChargeLines(percentage, terms, accounts, details, invoice), percentage, terms, accounts, details, invoice)
  {
    var base := Total(accounts, OfTypes({UsageType}, invoice));
    ChargeOfOrganisation(PLS_CHARGE, Share(base, percentage), details, invoice);
  }

  /** The split policy changes where an organisation charge is booked, never what it costs. */
  lemma ExtrasIgnoreSplit(d: Discount, percentage: real, terms: Terms, accounts: Accounts, details: Details,
                          invoice: Invoice, split: bool)
    ensures Bill(DiscountLines(d, terms, accounts, details.(split := split), invoice))
         == Bill(DiscountLines(d, terms, accounts, details, invoice))
    ensures Bill(PlsChargeLines(percentage, terms, accounts, details.(split := split), invoice))
         == Bill(PlsChargeLines(percentage, terms, accounts, details, invoice))
  {
    var there := details.(split := split);
    var x := -Abs(Share(Base(d, terms, accounts, invoice), Percentage(d, terms)));
    var y := Share(Total(accounts, OfTypes({UsageType}, invoice)), percentage);
    BillOne(OrganisationLine(Name(d), x, there, invoice));
    BillOne(OrganisationLine(Name(d), x, details, invoice));
    BillOne(OrganisationLine(PLS_CHARGE, y, there, invoice));
    BillOne(OrganisationLine(PLS_CHARGE, y, details, invoice));
  }

  /** The primary invoice entity is the first entered one that is marked as primary. */
  lemma {:induction false} PrimaryIsFirst(invoice: Invoice, i: nat)
    requires i <= |invoice.order|
    ensures Primary(invoice, i).Some? ==>
              exists k :: i <= k < |invoice.order| && invoice.order[k] == Primary(invoice, i).value
                       && MarkedPrimary(invoice, invoice.order[k])
                       && forall j :: i <= j < k ==> !MarkedPrimary(invoice, invoice.order[j])
    ensures Primary(invoice, i).None? ==>
              forall k :: i <= k < |invoice.order| ==> !MarkedPrimary(invoice, invoice.order[k])
    decreases |invoice.order| - i
  {
    if i < |invoice.order| && !MarkedPrimary(invoice, invoice.order[i]) {
      PrimaryIsFirst(invoice, i + 1);
    }
  }

  predicate MarkedPrimary(invoice: Invoice, name: string) {
    name in invoice.entities && invoice.entities[name].primary
  }

  /** A charge of the organisation: on the agreement under split billing, else on the master payer. */
  predicate OrganisationCharge(details: Details, invoice: Invoice, line: Line) {
    && line.account == details.mpaId && line.start == details.start && line.end == details.end
    && line.source == (if details.split then Agreement(details.agreementId) else Subscription(details.mpaId))
    && line.sku == AdditionalCharges
    && ((exists k :: 0 <= k < |invoice.order| && line.entity == invoice.order[k]
                  && MarkedPrimary(invoice, invoice.order[k])
                  && (forall j :: 0 <= j < k ==> !MarkedPrimary(invoice, invoice.order[j]))
                  && line.invoiceId == invoice.entities[invoice.order[k]].invoiceId)
        || ((forall k :: 0 <= k < |invoice.order| ==> !MarkedPrimary(invoice, invoice.order[k]))
            && line.entity == "" && line.invoiceId == "invoice_id"))
  }

  /** `lines` grant the percentage of `base` under that description, exactly if it is allowed. */
  predicate Grants(lines: seq<Line>, allowed: bool, percentage: Option<real>, base: real, description: string,
                   details: Details, invoice: Invoice) {
    && |lines| <= 1
    && (|lines| == 1 <==>
          invoice.principal != Some(0.0) && allowed && percentage.Some? && percentage.value > 0.0 && base != 0.0)
    && (|lines| == 1 ==>
          && OrganisationCharge(details, invoice, lines[0]) && lines[0].description == description
          && lines[0].amount <= 0.0
          && Abs(-lines[0].amount - Abs(AtRate(base, percentage.value / 100.0))) <= HALF_UNIT)
  }

  /** When a discount is granted, that it is never a charge, and how much it is. */
  lemma DiscountFollowsBase(d: Discount, terms: Terms, accounts: Accounts, details: Details, invoice: Invoice)
    ensures Grants(DiscountLines(d, terms, accounts, details, invoice), Applies(d, terms), Agreed(d, terms),
      Base(d, terms, accounts, invoice), Name(d), details, invoice)
  {
    ChargeOfOrganisation(Name(d), -Abs(Share(Base(d, terms, accounts, invoice), Percentage(d, terms))), details, invoice);
  }

  lemma ChargeOfOrganisation(description: string, amount: real, details: Details, invoice: Invoice)
    ensures OrganisationCharge(details, invoice, OrganisationLine(description, amount, details, invoice))
  {
    PrimaryIsFirst(invoice, 0);
  }

  /** Spending: plain usage, recurring charges and the Savings Plans fee. */
  predicate IsSpending(t: RecordType) {
    match t
    case UsageType | Recurring | SavingPlanFee => true
    case _ => false
  }

  function Spending(invoice: Invoice): Amount {
    (usage: Metrics, m: Metric) => if IsSpending(m.recordType) then Converted(m, invoice) else 0.0
  }

  /** The SPP discounts of services that the account spends on, or has support for. */
  function SppOfSpending(invoice: Invoice): Amount {
    (usage: Metrics, m: Metric) =>
      if m.recordType == SppDiscount
         && exists i :: 0 <= i < |usage| && usage[i].service == m.service && IsSpending(usage[i].recordType)
      then Converted(m, invoice) else 0.0
  }

  function SppOfSupport(invoice: Invoice): Amount {
    (usage: Metrics, m: Metric) =>
      if m.recordType == SppDiscount
         && exists i :: 0 <= i < |usage| && usage[i].service == m.service && usage[i].recordType == SupportType
      then Converted(m, invoice) else 0.0
  }

  lemma ServiceBase(terms: Terms, accounts: Accounts, invoice: Invoice)
    ensures Base(ServiceDiscount, terms, accounts, invoice) ==
      Total(accounts, if terms.serviceByUsage then Spending(invoice) else SppOfSpending(invoice))
  {
    if terms.serviceByUsage {
      TotalAgrees(accounts, |accounts|, OfTypes(SPENDING, invoice), Spending(invoice));
    } else {
      forall usage: Metrics, m: Metric ensures SppOf(SPENDING, invoice)(usage, m) == SppOfSpending(invoice)(usage, m) {
        assert forall i :: 0 <= i < |usage| ==> (usage[i].recordType in SPENDING <==> IsSpending(usage[i].recordType));
      }
      TotalAgrees(accounts, |accounts|, SppOf(SPENDING, invoice), SppOfSpending(invoice));
    }
  }

  /** The service discount is for orders with an approved handshake, on the spending or on its SPP discounts. */
  lemma ServiceDiscountGranted(terms: Terms, accounts: Accounts, details: Details, invoice: Invoice)
    ensures Grants(DiscountLines(ServiceDiscount, terms, accounts, details, invoice), terms.handshakeApproved,
      terms.serviceDiscount, Total(accounts, if terms.serviceByUsage then Spending(invoice) else SppOfSpending(invoice)),
      "SWO additional Usage discount", details, invoice)
  {
    ServiceBase(terms, accounts, invoice);
    DiscountFollowsBase(ServiceDiscount, terms, accounts, details, invoice);
  }

  /** The support discount is for resold support, on the SPP discounts of the supported services. */
  lemma SupportDiscountGranted(terms: Terms, accounts: Accounts, details: Details, invoice: Invoice)
    ensures Grants(DiscountLines(SupportDiscount, terms, accounts, details, invoice),
      terms.handshakeApproved && terms.support == Resold, terms.supportDiscount,
      Total(accounts, SppOfSupport(invoice)), "SWO additional Support discount", details, invoice)
  {
    TotalAgrees(accounts, |accounts|, SppOf({SupportType}, invoice), SppOfSupport(invoice));
    DiscountFollowsBase(SupportDiscount, terms, accounts, details, invoice);
  }

  /** The PLS discount is for Partner-Led Support, on plain usage: what the journal's Usage lines bill. */
  lemma PlsDiscountGranted(pass: Pass, terms: Terms, accounts: Accounts)
    ensures Grants(DiscountLines(PlsDiscount, terms, accounts, pass.details, pass.invoice),
      terms.handshakeApproved && terms.support == PartnerLed, terms.plsDiscount,
      Bill(UsageLinesOfType(pass, accounts, UsageType)), "SWO additional PLS Support discount",
      pass.details, pass.invoice)
  {
    PlsBaseIsBilledUsage(pass, accounts);
    DiscountFollowsBase(PlsDiscount, terms, accounts, pass.details, pass.invoice);
  }
}
