/** How often the order-failed ticket is opened when the CRM answers without an id. */
module FailTicket {
  import opened Orders
  import opened StepSpec
  import opened Ladder
  import opened Progress
  import opened PlsSafety
  import opened PlsExactness

  /** Every outside call answers, but tickets come back without an id. */
  const NAMELESS := UNDEPLOYED.(ticket := (step: Step) => Good(""))

  /** A Partner-Led order whose role check has timed out, in processing, without an order-failed ticket. */
  ghost predicate Refused(s: Server) {
    && HasAll(s.saved.bag) && s.pls && s.status == Processing
    && IsAt(s.saved.bag, CreateSubscription)
    && Get(s.saved.bag, RolesDeployed) == No
    && !Get(s.saved.bag, OrderFailedTicket).Truthy()
  }

  /** A run of such an order between two steps. */
  ghost predicate RefusedRun(r: Run) {
    Refused(r.server) && r.order.bag == r.server.saved.bag
  }

  predicate BeforeTicket(step: Step) {
    step == ValidateOrder || step == TicketNewAccount || step == CreateNewAWSEnvironment
    || step == CreateBillingTransferInvitation || step == CheckBillingTransferInvitation
    || step == ConfigureAPNProgram || step == CreateChannelHandshake
    || step == CheckChannelHandshakeStatus || step == CheckCustomerRoles
  }

  /** One more ticket, and everything else that matters as before. */
  ghost predicate OneMore(s: Server, t: Server) {
    Refused(t) && FailTickets(t) == FailTickets(s) + 1 && t.hist.failedSaves == s.hist.failedSaves
    && t.newAccount == s.newAccount
  }

  /** Steps of other phases pass the order on as it is. */
  lemma PassedOn(step: Step, r: Run, catalogue: Catalogue)
    requires RefusedRun(r)
    requires BeforeTicket(step) || step == OnboardServicesStep || step == CheckOnboardStatus
    ensures Call(step, r, NAMELESS, catalogue) == (r, Continue)
  {
    assert !IsAt(r.order.bag, HomePhase(step).value);
  }

  lemma TicketOpened(r: Run, catalogue: Catalogue)
    requires RefusedRun(r)
    ensures var (r1, out) := Call(TicketOrderFail, r, NAMELESS, catalogue);
      out.Continue? && RefusedRun(r1) && OneMore(r.server, r1.server)
  {
    assert PreStep(TicketOrderFail, r, NAMELESS) == (r, Proceed);
  }

  /** After the ticket the run stops at the subscription, which wants the order failed by hand. */
  lemma StopsAtSubscription(steps: seq<Step>, r: Run, catalogue: Catalogue)
    requires RefusedRun(r)
    requires |steps| >= 3
    requires steps[0] == OnboardServicesStep && steps[1] == CheckOnboardStatus && steps[2] == CreateSubscriptionStep
    ensures RunSteps(steps, r, NAMELESS, catalogue) == (r, Halt)
  {
    PassedOn(steps[0], r, catalogue);
    PassedOn(steps[1], r, catalogue);
    assert Call(steps[2], r, NAMELESS, catalogue) == (r, Halt);
    assert steps[1..][0] == steps[1] && steps[1..][1..] == steps[2..] && steps[2..][0] == steps[2];
    assert RunSteps(steps[2..], r, NAMELESS, catalogue) == (r, Halt);
    assert RunSteps(steps[1..], r, NAMELESS, catalogue) == (r, Halt);
  }

  lemma TicketThenStop(steps: seq<Step>, r: Run, catalogue: Catalogue)
    requires |steps| >= 4 && steps[0] == TicketOrderFail
    requires steps[1] == OnboardServicesStep && steps[2] == CheckOnboardStatus && steps[3] == CreateSubscriptionStep
    requires RefusedRun(r)
    ensures OneMore(r.server, RunSteps(steps, r, NAMELESS, catalogue).0.server)
  {
    TicketOpened(r, catalogue);
    var r1 := Call(steps[0], r, NAMELESS, catalogue).0;
    StopsAtSubscription(steps[1..], r1, catalogue);
    OneStep(steps, r, NAMELESS, catalogue);
  }

  lemma OneStep(steps: seq<Step>, r: Run, w: World, catalogue: Catalogue)
    requires steps != []
    ensures var (r1, out) := Call(steps[0], r, w, catalogue);
      out.Continue? ==> RunSteps(steps, r, w, catalogue) == RunSteps(steps[1..], r1, w, catalogue)
  {
  }

  /** What the step list holds behind the order-failed ticket. */
  lemma AfterTicket(steps: seq<Step>, newAccount: bool)
    requires Chain(steps, newAccount) && steps[0] == TicketOrderFail
    ensures |steps| >= 4
    ensures steps[1] == OnboardServicesStep && steps[2] == CheckOnboardStatus && steps[3] == CreateSubscriptionStep
  {
    assert Successor(steps[0], newAccount) == Some(steps[1]);
    assert Successor(steps[1], newAccount) == Some(steps[2]);
    assert Successor(steps[2], newAccount) == Some(steps[3]);
  }

  lemma {:induction false} RunOpensTicket(steps: seq<Step>, r: Run, catalogue: Catalogue)
    requires Chain(steps, r.server.newAccount) && (BeforeTicket(steps[0]) || steps[0] == TicketOrderFail)
    requires RefusedRun(r)
    ensures OneMore(r.server, RunSteps(steps, r, NAMELESS, catalogue).0.server)
    decreases |steps|
  {
    if BeforeTicket(steps[0]) {
      PassedOn(steps[0], r, catalogue);
      RunOpensTicket(steps[1..], r, catalogue);
    } else {
      AfterTicket(steps, r.server.newAccount);
      TicketThenStop(steps, r, catalogue);
    }
  }

  /** A run of a refused order opens a ticket, and a ticket without an id leaves it as open to the next run. */
  lemma NamelessTicketRepeats(s: Server, catalogue: Catalogue)
    requires Refused(s)
    ensures OneMore(s, Apply(s, PipelineRun(NAMELESS), catalogue))
  {
    var steps := Pipeline(s.newAccount);
    PipelineIsChain(s.newAccount);
    var (r1, out) := Call(SetupContext, Begin(s), NAMELESS, catalogue);
    assert out.Continue? && RefusedRun(r1) && r1.server == s;
    assert Successor(steps[0], s.newAccount) == Some(steps[1]);
    RunOpensTicket(steps[1..], r1, catalogue);
  }

  /** `n` runs of the same kind. */
  function NamelessRuns(n: nat): (events: seq<Event>)
    ensures |events| == n
  {
    if n == 0 then [] else NamelessRuns(n - 1) + [PipelineRun(NAMELESS)]
  }

  /** However many writes succeed, `n` runs open `n` tickets: only an id on the order stops them. */
  lemma {:induction false} NamelessTicketsPileUp(s: Server, n: nat, catalogue: Catalogue)
    requires Refused(s)
    ensures var t := ApplyAll(s, NamelessRuns(n), catalogue);
      Refused(t) && FailTickets(t) == FailTickets(s) + n && t.hist.failedSaves == s.hist.failedSaves
  {
    if n > 0 {
      NamelessTicketsPileUp(s, n - 1, catalogue);
      NamelessTicketRepeats(ApplyAll(s, NamelessRuns(n - 1), catalogue), catalogue);
      assert NamelessRuns(n)[..n - 1] == NamelessRuns(n - 1);
    }
  }
}
