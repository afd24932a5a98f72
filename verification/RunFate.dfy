/** Where a pipeline run leaves an order, and why, told by phases instead of steps: the run passes the
    gates of the phases in turn, and ends at the first gate that the order or the outside does not pass. */
module RunFate {
  import opened Orders
  import opened StepSpec
  import opened Ladder
  import opened Progress

  /** What a gate does to a run: let it pass, or end it with a status of the order. */
  datatype Gate = Passes | Ends(status: Status, out: Outcome)

  /** What a run starts from, the setup being done. */
  datatype Start = Start(
    bag: Bag,
    mpa: AccountId,
    pls: bool,
    first: Phase,
    subscriptions: seq<AccountId>,
    mailed: bool)

  function FirstPhase(s: Server): Phase {
    match Get(s.saved.bag, PhaseParam)
    case AtPhase(p) => p
    case _ => if s.newAccount then CreateAccount else CreateInvitation
  }

  function StartOf(s: Server, catalogue: Catalogue): Start {
    Start(if Rank(s.saved.bag) > 0 then s.saved.bag else ApplyDefaults(s.saved.bag, catalogue),
          Strip(s.saved.mpa), s.pls, FirstPhase(s), s.hist.subscriptions, s.mailed)
  }

  const STOPS := Ends(Processing, Halt)
  const BREAKS := Ends(Processing, Crashed)
  const ASKS := Ends(Querying, Halt)
  const FAILS := Ends(Failed, Halt)

  /** The end of a run whose service answered with its own error, or with any other. */
  function Unanswered<T>(a: Answer<T>): Gate {
    if a.ServiceError? then STOPS else BREAKS
  }

  /** A ticket that is not on the order is asked for, and the run ends if there is no answer. */
  function Ticket(x: Start, p: Param, a: Answer<string>): Gate {
    if Get(x.bag, p).Truthy() || a.Good? then Passes else Unanswered(a)
  }

  /** A failed deployment is mailed once per order; Partner-Led orders then stop. */
  function Mailed(x: Start, w: World): Gate {
    if Get(x.bag, ErrorNotified) != Yes && !x.mailed && !w.mail.Good? then BREAKS
    else if x.pls then STOPS
    else Passes
  }

  predicate Refused(x: Start) {
    x.pls && PhaseRank(x.first) > 7 && Get(x.bag, RolesDeployed) == No
  }

  predicate HasId(x: Start, p: Param, made: Phase) {
    Get(x.bag, p).Truthy() || PhaseRank(x.first) <= PhaseRank(made)
  }

  /** The gate before the setup's phase: the parameters and the clients of the run. */
  function SetupGate(s: Server, w: World): Gate {
    if !w.pmAccount then STOPS
    else if Rank(s.saved.bag) == 0 && !w.catalogueRead then BREAKS
    else if !w.aws.Good? then Unanswered(w.aws)
    else if !w.apn.Good? then Unanswered(w.apn)
    else Passes
  }

  function InvitationGate(x: Start, w: World): Gate {
    if x.first == CreateInvitation && w.duplicate.Good? && w.duplicate.value then FAILS
    else if x.first == CreateInvitation && !w.duplicate.Good? then BREAKS
    else if Get(x.bag, TransferId).Truthy() then Passes
    else if x.mpa == NoAccount || w.invitation.ServiceError? then ASKS
    else if w.invitation.Raises? then BREAKS
    else Passes
  }

  function TransferGate(x: Start, w: World): Gate {
    if !HasId(x, TransferId, CreateInvitation) then STOPS
    else
      match w.transfer
      case Good(Accepted) => if w.billingGroup.Good? then Passes else BREAKS
      case Good(Declined) | Good(Canceled) | Good(Expired) => FAILS
      case Good(Requested) | Good(Withdrawn) => ASKS
      case _ => BREAKS
  }

  function ApnGate(x: Start, w: World): Gate {
    if Get(x.bag, RelationshipId).Truthy() then Passes
    else if w.pmIdentifier != Good(true) then BREAKS
    else if w.relationship.Good? then Passes
    else Unanswered(w.relationship)
  }

  function HandshakeGate(x: Start, w: World): Gate {
    if Get(x.bag, HandshakeId).Truthy() then Passes
    else if !w.pmIdentifier.Good? then BREAKS
    else if w.handshake.Good? then Passes
    else Unanswered(w.handshake)
  }

  function ApprovalGate(x: Start, w: World): Gate {
    if !HasId(x, HandshakeId, CreateHandshake) then STOPS
    else
      match w.handshakeStatus
      case Good(None) => STOPS
      case Good(Some(Pending)) => ASKS
      case Good(Some(_)) => Passes
      case _ => BREAKS
  }

  function RolesGate(w: World): Gate {
    match w.roles
    case Good(deployed) => if deployed then Passes else ASKS
    case _ => Unanswered(w.roles)
  }

  function OnboardGate(x: Start, w: World): Gate {
    if w.onboard.Raises? then BREAKS
    else if w.onboard.Good? && w.onboard.value != "" then Passes
    else Mailed(x, w)
  }

  /** While the deployment runs, the run goes on to its end but for the Partner-Led ticket. */
  function DeploymentGate(x: Start, w: World): Gate {
    var arn := Get(x.bag, ExecutionArn).Truthy()
      || (PhaseRank(x.first) <= 8 && w.onboard.Good? && w.onboard.value != "");
    if !arn then Mailed(x, w)
    else
      match w.deployment
      case Good(Succeeded) => Passes
      case Good(Running) | Good(UnknownDeployment) =>
        if x.pls && Ticket(x, PlsTicket, w.ticket(TicketPLS)).Ends? then Ticket(x, PlsTicket, w.ticket(TicketPLS))
        else Ends(Processing, Continue)
      case Raises => BREAKS
      case _ => Mailed(x, w)
  }

  function SubscriptionGate(x: Start, w: World): Gate {
    if Refused(x) then STOPS
    else if !w.subscriptionLookup then BREAKS
    else if x.mpa in x.subscriptions || w.subscriptionCreate then Passes
    else BREAKS
  }

  function ProjectGate(x: Start, w: World): Gate {
    var found := w.contract.Good? && w.contract.value.Some? && w.contract.value.value != "";
    if !Get(x.bag, ContractNumber).Truthy() && w.contract.Raises? then BREAKS
    else if Get(x.bag, ErpProjectNo).Truthy() then Passes
    else if (Get(x.bag, ContractNumber).Truthy() || found) && w.job.Raises? then BREAKS
    else Passes
  }

  function CompletionGate(x: Start, w: World): Gate {
    if x.pls && Ticket(x, PlsTicket, w.ticket(TicketPLS)).Ends? then Ticket(x, PlsTicket, w.ticket(TicketPLS))
    else if Ticket(x, OnboardTicket, w.ticket(TicketOnboardServices)).Ends? then
      Ticket(x, OnboardTicket, w.ticket(TicketOnboardServices))
    else if w.agreement then Ends(Done, Continue)
    else BREAKS
  }

  /** The gate of a phase. An order that starts beyond the role check with refused roles first needs
      its order-failed ticket. */
  function GateOf(p: Phase, x: Start, w: World): Gate {
    var refusal := Ticket(x, OrderFailedTicket, w.ticket(TicketOrderFail));
    if p == x.first && Refused(x) && refusal.Ends? then refusal
    else
      match p
      case CreateAccount =>
        var ticket := Ticket(x, NewAccountTicket, w.ticket(TicketNewAccount));
        if ticket.Ends? then ticket else if x.mpa == NoAccount then ASKS else Passes
      case CreateInvitation => InvitationGate(x, w)
      case CheckInvitation => TransferGate(x, w)
      case ConfigureApn => ApnGate(x, w)
      case CreateHandshake => HandshakeGate(x, w)
      case CheckHandshake => ApprovalGate(x, w)
      case CheckRoles => RolesGate(w)
      case OnboardServices => OnboardGate(x, w)
      case CheckOnboard => DeploymentGate(x, w)
      case CreateSubscription => SubscriptionGate(x, w)
      case ProjectCreation => ProjectGate(x, w)
      case Completed => CompletionGate(x, w)
  }

  /** The place of a step in the pipeline of a new account. */
  function Position(step: Step): nat {
    match step
    case SetupContext => 0
    case ValidateOrder => 1
    case TicketNewAccount => 2
    case CreateNewAWSEnvironment => 3
    case CreateBillingTransferInvitation => 4
    case CheckBillingTransferInvitation => 5
    case ConfigureAPNProgram => 6
    case CreateChannelHandshake => 7
    case CheckChannelHandshakeStatus => 8
    case CheckCustomerRoles => 9
    case TicketOrderFail => 10
    case OnboardServicesStep => 11
    case CheckOnboardStatus => 12
    case CreateSubscriptionStep => 13
    case ContractCard => 14
    case SWOJob => 15
    case TicketPLS => 16
    case TicketOnboardServices => 17
    case CompleteOrder => 18
  }

  /** The last step that a run reaches with the parameter as it was at the start. */
  function Until(p: Param): nat {
    match p
    case NewAccountTicket => 2
    case TransferId => 4
    case RelationshipId => 6
    case HandshakeId => 7
    case RolesDeployed => 9
    case OrderFailedTicket => 10
    case ExecutionArn => 11
    case ContractNumber => 14
    case ErpProjectNo => 15
    case PlsTicket => 16
    case OnboardTicket => 17
    case _ => 0
  }

  predicate Unchanged(x: Start, bag: Bag, p: Param) {
    Get(bag, p) == Get(x.bag, p)
  }

  predicate NewArn(x: Start, w: World) {
    PhaseRank(x.first) <= 8 && w.onboard.Good? && w.onboard.value != ""
  }

  predicate NewContract(w: World) {
    w.contract.Good? && w.contract.value.Some? && w.contract.value.value != ""
  }

  /** Nothing has touched the parameters of the steps from position `i` on. */
  ghost predicate KeptFrom(i: nat, x: Start, bag: Bag) {
    forall p {:trigger Unchanged(x, bag, p)} :: i <= Until(p) ==> Unchanged(x, bag, p)
  }

  /** What the phases behind the run have left on the order. */
  predicate Gained(x: Start, bag: Bag, w: World) {
    var first, k := PhaseRank(x.first), Rank(bag);
    && (if first >= 3 then Unchanged(x, bag, TransferId) else k >= 3 ==> Get(bag, TransferId).Truthy())
    && (if first >= 6 then Unchanged(x, bag, HandshakeId) else k >= 6 ==> Get(bag, HandshakeId).Truthy())
    && (if first >= 8 then Unchanged(x, bag, RolesDeployed) else k >= 8 ==> Get(bag, RolesDeployed) == Yes)
    && (k >= 9 ==> (Get(bag, ExecutionArn).Truthy() <==> Get(x.bag, ExecutionArn).Truthy() || NewArn(x, w)))
  }

  /** What the contract step has left for the job step. */
  predicate ContractSought(i: nat, x: Start, bag: Bag, w: World) {
    Rank(bag) == 11 && i == 15 ==>
      (Get(bag, ContractNumber).Truthy() <==> Get(x.bag, ContractNumber).Truthy() || NewContract(w))
  }

  /** What the order holds on arrival at position `i`, in terms of the start. */
  ghost predicate Holdings(i: nat, x: Start, bag: Bag, w: World) {
    KeptFrom(i, x, bag) && Gained(x, bag, w) && ContractSought(i, x, bag, w)
  }

  predicate NotifiedAtStart(x: Start) {
    Get(x.bag, ErrorNotified) == Yes || x.mailed
  }

  predicate Notified(r: Run) {
    Get(r.order.bag, ErrorNotified) == Yes || r.server.mailed
  }

  /** The parts of the current gate that lie behind position `i`. */
  ghost predicate Cleared(i: nat, x: Start, k: nat, still: bool, w: World) {
    && (i > 1 && k == 2 && x.first == CreateInvitation ==> w.duplicate == Good(false))
    && (i > 2 && k == 1 ==> Ticket(x, NewAccountTicket, w.ticket(TicketNewAccount)).Passes?)
    && (i > 10 && k == PhaseRank(x.first) && Refused(x) ==>
          Ticket(x, OrderFailedTicket, w.ticket(TicketOrderFail)).Passes?)
    && (i > 14 && k == 11 ==> Get(x.bag, ContractNumber).Truthy() || !w.contract.Raises?)
    && (i > 16 && (k == 12 || still) && x.pls ==> Ticket(x, PlsTicket, w.ticket(TicketPLS)).Passes?)
    && (i > 17 && k == 12 ==> Ticket(x, OnboardTicket, w.ticket(TicketOnboardServices)).Passes?)
  }

  ghost predicate PassedTo(x: Start, w: World, k: nat) {
    forall q: Phase :: PhaseRank(x.first) <= PhaseRank(q) < k ==> GateOf(q, x, w) == Passes
  }

  /** What no step before position `i` has changed in the run, and what is known of the error mail. */
  predicate Carried(i: nat, x: Start, r: Run, w: World) {
    && (i <= 9 ==> r.roles.None?)
    && (i <= 13 ==> r.Hist().subscriptions == x.subscriptions)
    && (i <= 12 ==> !r.stillRunning)
    && (NotifiedAtStart(x) ==> Notified(r)) && (Notified(r) && !NotifiedAtStart(x) ==> w.mail.Good?)
  }

  /** Early steps do not move the phase, and none before the onboarding moves a late one. */
  predicate Unmoved(i: nat, x: Start, k: nat) {
    i <= 2 || (i <= 11 && PhaseRank(x.first) >= 8) ==> k == PhaseRank(x.first)
  }

  /** What a run on arrival at position `i` has behind it: all gates so far, and `failures` failed writes. */
  ghost predicate Walked(i: nat, x: Start, failures: nat, r: Run, w: World) {
    var k := Rank(r.order.bag);
    && r.server.status == Processing && r.server.pls == x.pls
    && r.order.bag == r.server.saved.bag && r.order.mpa == x.mpa
    && r.Hist().failedSaves == failures
    && PhaseRank(x.first) <= k && PassedTo(x, w, k) && Unmoved(i, x, k)
    && Holdings(i, x, r.order.bag, w)
    && Cleared(i, x, k, r.stillRunning, w)
    && Carried(i, x, r, w)
    && (r.stillRunning ==> k == 9 && Get(r.order.bag, ExecutionArn).Truthy())
  }

  /** A run on arrival at a step. */
  ghost predicate Walking(step: Step, x: Start, failures: nat, r: Run, w: World) {
    Arrives(step, r, w) && Walked(Position(step), x, failures, r, w)
  }

  /** A run that ended in the phase in which it arrived: at its gate, or by a write that failed. */
  ghost predicate EndedIn(x: Start, failures: nat, r: Run, w: World, c: (Run, Outcome)) {
    var v := Get(r.order.bag, PhaseParam);
    && Get(c.0.server.saved.bag, PhaseParam) == v
    && if c.0.Hist().failedSaves == failures
       then v.AtPhase? && GateOf(v.phase, x, w) == Ends(c.0.server.status, c.1)
       else c.0.server.status == Processing && c.1 == Crashed
  }

  ghost predicate Told(step: Step, x: Start, failures: nat, r: Run, w: World, c: (Run, Outcome)) {
    if c.1.Continue? then Successor(step, r.server.newAccount).Some? ==>
      Walking(Successor(step, r.server.newAccount).value, x, failures, c.0, w)
    else EndedIn(x, failures, r, w, c)
  }

  lemma KeptLater(i: nat, j: nat, x: Start, bag: Bag)
    requires KeptFrom(i, x, bag) && i <= j
    ensures KeptFrom(j, x, bag)
  {
    forall p | j <= Until(p) ensures Unchanged(x, bag, p) {
      assert i <= Until(p);
    }
  }

  lemma Still(i: nat, p: Param, x: Start, bag: Bag)
    requires KeptFrom(i, x, bag) && i <= Until(p)
    ensures Get(bag, p) == Get(x.bag, p)
  {
    assert Unchanged(x, bag, p);
  }

  /** Why a step is skipped: its phase is not the order's, or what it is there for is done or not needed. */
  predicate Idle(step: Step, bag: Bag, pls: bool) {
    || (HomePhase(step).Some? && !IsAt(bag, HomePhase(step).value))
    || (step == TicketNewAccount && Get(bag, NewAccountTicket).Truthy())
    || (step == TicketOrderFail && (!pls || Get(bag, RolesDeployed) != No || Get(bag, OrderFailedTicket).Truthy()))
    || (step == ContractCard && Get(bag, ContractNumber).Truthy())
    || (step == TicketPLS && (!pls || Get(bag, PlsTicket).Truthy()))
    || (step == TicketOnboardServices && Get(bag, OnboardTicket).Truthy())
  }

  lemma SkipMeansIdle(step: Step, r: Run, w: World)
    requires PreStep(step, r, w).1.Skip?
    ensures Idle(step, r.order.bag, r.server.pls) && step != SetupContext
  {
  }

  lemma SkipTold(step: Step, x: Start, failures: nat, r: Run, w: World, catalogue: Catalogue)
    requires step != SetupContext && Successor(step, r.server.newAccount).Some?
    requires Walking(step, x, failures, r, w) && PreStep(step, r, w).1.Skip?
    ensures Told(step, x, failures, r, w, Call(step, r, w, catalogue))
  {
    SkipChangesNothing(step, r, w);
    SkipMeansIdle(step, r, w);
    StepAdvances(step, Successor(step, r.server.newAccount).value, r, w, catalogue);
    Follows(step, r.server.newAccount);
    IdleWalks(step, Position(step), Position(Successor(step, r.server.newAccount).value), x, failures, r, w);
  }

  /** Going on unchanged to a later position. */
  lemma WalksOn(i: nat, j: nat, x: Start, failures: nat, r: Run, w: World)
    requires Walked(i, x, failures, r, w) && i <= j
    requires Holdings(j, x, r.order.bag, w) && Cleared(j, x, Rank(r.order.bag), r.stillRunning, w)
    ensures Walked(j, x, failures, r, w)
  {
  }

  lemma IdleWalks(step: Step, i: nat, j: nat, x: Start, failures: nat, r: Run, w: World)
    requires i == Position(step) && PositionAfter(step, r.server.newAccount, j)
    requires Walked(i, x, failures, r, w) && Idle(step, r.order.bag, r.server.pls)
    requires Reached(step, Rank(r.order.bag), r.stillRunning) && (r.server.newAccount || Rank(r.order.bag) != 1)
    ensures Walked(j, x, failures, r, w)
  {
    IdleHolds(step, i, j, x, r.order.bag, x.pls, w);
    IdleClears(step, i, j, r.server.newAccount, x, r.order.bag, r.stillRunning, w);
    WalksOn(i, j, x, failures, r, w);
  }

  /** The next position, or the next after the steps of a new account. */
  predicate PositionAfter(step: Step, newAccount: bool, j: nat) {
    j == if step == ValidateOrder && !newAccount then 4 else Position(step) + 1
  }

  lemma Follows(step: Step, newAccount: bool)
    requires step != SetupContext && Successor(step, newAccount).Some?
    ensures PositionAfter(step, newAccount, Position(Successor(step, newAccount).value))
  {
  }

  lemma IdleHolds(step: Step, i: nat, j: nat, x: Start, bag: Bag, pls: bool, w: World)
    requires i == Position(step) && i < j && (step != ContractCard ==> j != 15) && Idle(step, bag, pls)
    requires Holdings(i, x, bag, w)
    ensures Holdings(j, x, bag, w)
  {
    KeptLater(i, j, x, bag);
    if step == ContractCard {
      PhaseOfRank(bag, ProjectCreation);
      Still(14, ContractNumber, x, bag);
    }
  }

  lemma IdleClears(step: Step, i: nat, j: nat, newAccount: bool, x: Start, bag: Bag, still: bool, w: World)
    requires i == Position(step) && PositionAfter(step, newAccount, j) && Idle(step, bag, x.pls)
    requires Reached(step, Rank(bag), still) && (newAccount || Rank(bag) != 1)
    requires KeptFrom(i, x, bag) && Gained(x, bag, w) && Cleared(i, x, Rank(bag), still, w)
    ensures Cleared(j, x, Rank(bag), still, w)
  {
    if HomePhase(step).Some? {
      PhaseOfRank(bag, HomePhase(step).value);
    }
    match step
    case TicketNewAccount => Still(2, NewAccountTicket, x, bag);
    case TicketOrderFail => Still(10, OrderFailedTicket, x, bag);
    case ContractCard => Still(14, ContractNumber, x, bag);
    case TicketPLS => Still(16, PlsTicket, x, bag);
    case TicketOnboardServices => Still(17, OnboardTicket, x, bag);
    case _ =>
  }

  /** What the signal of a step's work makes of the run, if the write that goes with it succeeds. */
  function EndOf(sig: Signal): Gate {
    match sig
    case Proceed => Passes
    case UnexpectedStop => STOPS
    case QueryOrder => ASKS
    case FailOrder => FAILS
    case _ => BREAKS
  }

  /** Work that leaves status and phase alone, and crashes if a write fails. */
  ghost predicate Intact(r: Run, r1: Run, sig: Signal) {
    && r1.server.status == r.server.status
    && (r1.Hist().failedSaves == r.Hist().failedSaves || sig == Crash)
    && r1.order.mpa == r.order.mpa && SameKind(r, r1) && HasAll(r1.order.bag)
    && Get(r1.order.bag, PhaseParam) == Get(r.order.bag, PhaseParam)
    && Get(r1.server.saved.bag, PhaseParam) == Get(r.server.saved.bag, PhaseParam)
  }

  lemma SaveTold(r: Run, ok: bool)
    ensures var (r', sig) := Save(r, ok);
      && r'.order == r.order && r'.stillRunning == r.stillRunning && r'.roles == r.roles
      && r'.server.saved == (if ok then r.order else r.server.saved)
      && r'.server.status == r.server.status && r'.server.mailed == r.server.mailed && SameKind(r, r')
      && r'.Hist().failedSaves == r.Hist().failedSaves + (if ok then 0 else 1)
      && r'.Hist().subscriptions == r.Hist().subscriptions
      && sig == (if ok then Proceed else Crash)
  {
  }

  /** A step whose work does not proceed ends the run at the gate. */
  lemma EndTold(step: Step, x: Start, failures: nat, r: Run, r1: Run, sig: Signal, w: World)
    requires Walking(step, x, failures, r, w) && Intact(r, r1, sig) && Get(r.order.bag, PhaseParam).AtPhase?
    requires !sig.Proceed?
    requires r1.Hist().failedSaves == failures ==> GateOf(Get(r.order.bag, PhaseParam).phase, x, w) == EndOf(sig)
    ensures EndedIn(x, failures, r, w, AfterWork(step, r1, sig, w)) && !AfterWork(step, r1, sig, w).1.Continue?
  {
    if sig.QueryOrder? || sig.FailOrder? {
      SaveTold(r1, w.save(step, Switch));
    }
  }

  /** What the work of a step must leave behind so that the run walks on in the next phase. */
  ghost predicate LeavesReady(step: Step, x: Start, r1: Run, w: World)
    requires NextPhase(step).Some? && Successor(step, r1.server.newAccount).Some?
  {
    var i := Position(Successor(step, r1.server.newAccount).value);
    Holdings(i, x, r1.At(NextPhase(step).value).order.bag, w) && Carried(i, x, r1, w)
  }

  /** The step is at home, has a next phase, and does not wait for a running deployment. */
  predicate Moves(step: Step, r: Run, r1: Run) {
    && HomePhase(step).Some? && IsAt(r.order.bag, HomePhase(step).value)
    && NextPhase(step).Some? && Successor(step, r.server.newAccount).Some?
    && !r1.stillRunning && step != SetupContext
  }

  /** A gate that was passed leads on to the next phase. */
  lemma MoveTold(step: Step, x: Start, failures: nat, r: Run, r1: Run, w: World, catalogue: Catalogue)
    requires Walking(step, x, failures, r, w) && Intact(r, r1, Proceed) && Moves(step, r, r1)
    requires Call(step, r, w, catalogue) == AfterWork(step, r1, Proceed, w)
    requires GateOf(HomePhase(step).value, x, w) == Passes && LeavesReady(step, x, r1, w)
    ensures Told(step, x, failures, r, w, Call(step, r, w, catalogue))
  {
    var r2 := r1.At(NextPhase(step).value);
    var c := Call(step, r, w, catalogue);
    SaveTold(r2, w.save(step, AfterStep));
    assert c == (Save(r2, w.save(step, AfterStep)).0, Leave(Save(r2, w.save(step, AfterStep)).1, Continue));
    StepAdvances(step, Successor(step, r.server.newAccount).value, r, w, catalogue);
    if c.1.Continue? {
      NextGate(step, x, r, w);
    }
  }

  /** The position at which a run arrives in a phase that it did not start in, by rank. */
  const ENTRY: seq<nat> := [0, 0, 4, 5, 6, 7, 8, 9, 10, 12, 13, 14, 16]

  /** A moving step leads to the phase after its own, and to a position behind everything of that phase. */
  lemma NextRank(step: Step, newAccount: bool)
    requires HomePhase(step).Some? && NextPhase(step).Some? && Successor(step, newAccount).Some?
    ensures PhaseRank(NextPhase(step).value) == PhaseRank(HomePhase(step).value) + 1
    ensures Position(Successor(step, newAccount).value) == ENTRY[PhaseRank(NextPhase(step).value)]
  {
  }

  lemma NextGate(step: Step, x: Start, r: Run, w: World)
    requires HomePhase(step).Some? && IsAt(r.order.bag, HomePhase(step).value) && NextPhase(step).Some?
    requires Successor(step, r.server.newAccount).Some? && step != SetupContext
    requires PassedTo(x, w, Rank(r.order.bag)) && GateOf(HomePhase(step).value, x, w) == Passes
    requires PhaseRank(x.first) <= Rank(r.order.bag)
    ensures PassedTo(x, w, PhaseRank(NextPhase(step).value))
    ensures PhaseRank(x.first) < PhaseRank(NextPhase(step).value)
    ensures Unmoved(Position(Successor(step, r.server.newAccount).value), x, PhaseRank(NextPhase(step).value))
    ensures Cleared(Position(Successor(step, r.server.newAccount).value), x, PhaseRank(NextPhase(step).value), false, w)
  {
    NextRank(step, r.server.newAccount);
    ClearedAhead(x, PhaseRank(NextPhase(step).value), w);
    OneGateMore(x, w, HomePhase(step).value);
  }

  lemma OneGateMore(x: Start, w: World, p: Phase)
    requires PassedTo(x, w, PhaseRank(p)) && GateOf(p, x, w) == Passes
    ensures PassedTo(x, w, PhaseRank(p) + 1)
  {
    forall q: Phase | PhaseRank(x.first) <= PhaseRank(q) < PhaseRank(p) + 1 ensures GateOf(q, x, w) == Passes {
      RankOfPhase(q, p);
    }
  }

  /** On arrival in a new phase nothing of its gate is behind the run. */
  lemma ClearedAhead(x: Start, k: nat, w: World)
    requires 2 <= k <= 12 && PhaseRank(x.first) < k
    ensures Cleared(ENTRY[k], x, k, false, w)
    ensures Unmoved(ENTRY[k], x, k)
  {
  }

  lemma CallWorks(step: Step, r: Run, w: World, catalogue: Catalogue)
    requires PreStep(step, r, w) == (r, Proceed)
    ensures var (r1, sig) := Process(step, r, w, catalogue);
      Call(step, r, w, catalogue) == AfterWork(step, r1, sig, w)
  {
  }

  /** The part of a walking run that the work of a step at position `i` depends on. */
  ghost predicate Standing(i: nat, x: Start, failures: nat, r: Run, w: World) {
    && HasAll(r.order.bag) && r.server.pls == x.pls && r.order.mpa == x.mpa
    && Get(r.server.saved.bag, PhaseParam) == Get(r.order.bag, PhaseParam)
    && r.Hist().failedSaves == failures
    && Holdings(i, x, r.order.bag, w) && Carried(i, x, r, w)
    && PhaseRank(x.first) <= Rank(r.order.bag)
  }

  /** The work of a step at home decides as the gate of its phase, and leaves the run ready to move on. */
  ghost predicate Decides(step: Step, x: Start, failures: nat, r: Run, r1: Run, sig: Signal, w: World) {
    && Intact(r, r1, sig) && HomePhase(step).Some?
    && (r1.Hist().failedSaves == failures ==> GateOf(HomePhase(step).value, x, w) == EndOf(sig))
    && (sig.Proceed? ==> Moves(step, r, r1) && LeavesReady(step, x, r1, w))
  }

  /** A step at work decides at the gate of its phase. */
  lemma GateTold(step: Step, x: Start, failures: nat, r: Run, r1: Run, sig: Signal, w: World, catalogue: Catalogue)
    requires Walking(step, x, failures, r, w) && PreStep(step, r, w) == (r, Proceed)
    requires HomePhase(step).Some? && IsAt(r.order.bag, HomePhase(step).value)
    requires (r1, sig) == Process(step, r, w, catalogue) && Decides(step, x, failures, r, r1, sig, w)
    ensures Told(step, x, failures, r, w, Call(step, r, w, catalogue))
  {
    CallWorks(step, r, w, catalogue);
    if sig.Proceed? {
      MoveTold(step, x, failures, r, r1, w, catalogue);
    } else {
      EndTold(step, x, failures, r, r1, sig, w);
    }
  }

  lemma KeptWith(i: nat, j: nat, x: Start, bag: Bag, p: Param, v: Value, phase: Phase)
    requires KeptFrom(i, x, bag) && i <= j && 0 < j && Until(p) < j
    ensures KeptFrom(j, x, Set(Set(bag, p, v), PhaseParam, AtPhase(phase)))
  {
    forall q | j <= Until(q) ensures Unchanged(x, Set(Set(bag, p, v), PhaseParam, AtPhase(phase)), q) {
      Still(i, q, x, bag);
    }
  }

  /** A step that sets one parameter of its own and moves on. */
  lemma SetLeaves(step: Step, x: Start, r: Run, r1: Run, p: Param, v: Value, w: World)
    requires NextPhase(step).Some? && Successor(step, r.server.newAccount).Some? && SameKind(r, r1)
    requires KeptFrom(Position(step), x, r.order.bag) && Until(p) <= Position(step)
    requires p in r.order.bag && r1.order.bag == Set(r.order.bag, p, v)
    requires var i := Position(Successor(step, r.server.newAccount).value);
      && Position(step) < i && Carried(i, x, r1, w) && i != 15
      && Gained(x, Set(Set(r.order.bag, p, v), PhaseParam, AtPhase(NextPhase(step).value)), w)
    ensures LeavesReady(step, x, r1, w)
  {
    KeptWith(Position(step), Position(Successor(step, r.server.newAccount).value), x, r.order.bag, p, v,
             NextPhase(step).value);
  }

  lemma TransferDecides(x: Start, failures: nat, r: Run, w: World)
    requires Standing(5, x, failures, r, w) && IsAt(r.order.bag, CheckInvitation)
    requires Get(r.order.bag, TransferId).Truthy()
    ensures Decides(CheckBillingTransferInvitation, x, failures, r, CheckTransfer(r, w).0, CheckTransfer(r, w).1, w)
  {
    var (r1, sig) := CheckTransfer(r, w);
    TransferWork(x, r, w);
    if sig.Proceed? {
      SetLeaves(CheckBillingTransferInvitation, x, r, r1, BillingGroupArn, Text(w.billingGroup.value), w);
    }
  }

  lemma TransferTold(x: Start, failures: nat, r: Run, w: World, catalogue: Catalogue)
    requires Walking(CheckBillingTransferInvitation, x, failures, r, w) && IsAt(r.order.bag, CheckInvitation)
    requires Get(r.order.bag, TransferId).Truthy()
    ensures Told(CheckBillingTransferInvitation, x, failures, r, w, Call(CheckBillingTransferInvitation, r, w, catalogue))
  {
    TransferDecides(x, failures, r, w);
    GateTold(CheckBillingTransferInvitation, x, failures, r, CheckTransfer(r, w).0, CheckTransfer(r, w).1, w, catalogue);
  }

  lemma TransferWork(x: Start, r: Run, w: World)
    requires HasId(x, TransferId, CreateInvitation) && HasAll(r.order.bag)
    ensures var (r1, sig) := CheckTransfer(r, w);
      && Intact(r, r1, sig) && EndOf(sig) == TransferGate(x, w)
      && (sig.Proceed? ==> Carries(r, r1, BillingGroupArn, w.billingGroup))
  {
  }

  /** The work set the parameter to the answer, and changed nothing else but the history. */
  predicate Carries(r: Run, r1: Run, p: Param, a: Answer<Ident>) {
    && a.Good? && r1.order == r.order.With(p, Text(a.value)) && r1.roles == r.roles && r1.stillRunning == r.stillRunning
    && r1.Hist().subscriptions == r.Hist().subscriptions && r1.server.mailed == r.server.mailed
    && r1.Hist().failedSaves == r.Hist().failedSaves
  }

  /** A step whose id is on the order already only moves on. */
  lemma DoneTold(step: Step, p: Param, x: Start, failures: nat, r: Run, w: World, catalogue: Catalogue)
    requires Walking(step, x, failures, r, w) && Moves(step, r, r) && Until(p) == Position(step)
    requires PreStep(step, r, w) == (r.At(NextPhase(step).value), AlreadyProcessed)
    requires GateOf(HomePhase(step).value, x, w) == Passes
    requires LeavesReady(step, x, r, w)
    ensures Told(step, x, failures, r, w, Call(step, r, w, catalogue))
  {
    var r2 := r.At(NextPhase(step).value);
    SaveTold(r2, w.save(step, OnSkip));
    StepAdvances(step, Successor(step, r.server.newAccount).value, r, w, catalogue);
    if Call(step, r, w, catalogue).1.Continue? {
      NextGate(step, x, r, w);
    }
  }

  /** The moving step leaves its own parameters as they are. */
  lemma SameLeaves(step: Step, x: Start, r: Run, w: World)
    requires NextPhase(step).Some? && Successor(step, r.server.newAccount).Some?
    requires KeptFrom(Position(step), x, r.order.bag)
    requires var i := Position(Successor(step, r.server.newAccount).value);
      && 0 < Position(step) < i && Carried(i, x, r, w) && i != 15
      && Gained(x, Set(r.order.bag, PhaseParam, AtPhase(NextPhase(step).value)), w)
    ensures LeavesReady(step, x, r, w)
  {
    var i := Position(Successor(step, r.server.newAccount).value);
    forall q | i <= Until(q) ensures Unchanged(x, r.At(NextPhase(step).value).order.bag, q) {
      Still(Position(step), q, x, r.order.bag);
    }
  }

  lemma InviteWork(x: Start, r: Run, w: World)
    requires HasAll(r.order.bag) && IsAt(r.order.bag, CreateInvitation) && !Get(x.bag, TransferId).Truthy() && r.order.mpa == x.mpa
    requires x.first == CreateInvitation ==> w.duplicate == Good(false)
    ensures var (r1, sig) := Invite(r, w);
      && Intact(r, r1, sig) && EndOf(sig) == InvitationGate(x, w)
      && (sig.Proceed? ==> Carries(r, r1, TransferId, w.invitation))
  {
  }

  lemma InviteTold(x: Start, failures: nat, r: Run, w: World, catalogue: Catalogue)
    requires Walking(CreateBillingTransferInvitation, x, failures, r, w) && IsAt(r.order.bag, CreateInvitation)
    ensures Told(CreateBillingTransferInvitation, x, failures, r, w, Call(CreateBillingTransferInvitation, r, w, catalogue))
  {
    Still(4, TransferId, x, r.order.bag);
    if Get(r.order.bag, TransferId).Truthy() {
      SameLeaves(CreateBillingTransferInvitation, x, r, w);
      DoneTold(CreateBillingTransferInvitation, TransferId, x, failures, r, w, catalogue);
    } else {
      NewInviteTold(x, failures, r, w, catalogue);
    }
  }

  lemma NewInviteDecides(x: Start, failures: nat, r: Run, w: World)
    requires Standing(4, x, failures, r, w) && IsAt(r.order.bag, CreateInvitation)
    requires !Get(x.bag, TransferId).Truthy() && (x.first == CreateInvitation ==> w.duplicate == Good(false))
    ensures Decides(CreateBillingTransferInvitation, x, failures, r, Invite(r, w).0, Invite(r, w).1, w)
  {
    var (r1, sig) := Invite(r, w);
    InviteWork(x, r, w);
    if sig.Proceed? {
      SetLeaves(CreateBillingTransferInvitation, x, r, r1, TransferId, Text(w.invitation.value), w);
    }
  }

  lemma NewInviteTold(x: Start, failures: nat, r: Run, w: World, catalogue: Catalogue)
    requires Walking(CreateBillingTransferInvitation, x, failures, r, w) && IsAt(r.order.bag, CreateInvitation)
    requires PreStep(CreateBillingTransferInvitation, r, w) == (r, Proceed) && !Get(x.bag, TransferId).Truthy()
    ensures Told(CreateBillingTransferInvitation, x, failures, r, w, Call(CreateBillingTransferInvitation, r, w, catalogue))
  {
    NewInviteDecides(x, failures, r, w);
    GateTold(CreateBillingTransferInvitation, x, failures, r, Invite(r, w).0, Invite(r, w).1, w, catalogue);
  }

  lemma RelateWork(x: Start, r: Run, w: World)
    requires HasAll(r.order.bag) && IsAt(r.order.bag, ConfigureApn) && !Get(x.bag, RelationshipId).Truthy() && r.order.mpa == x.mpa
    ensures var (r1, sig) := Relate(r, w);
      && Intact(r, r1, sig) && EndOf(sig) == ApnGate(x, w)
      && (sig.Proceed? ==> Carries(r, r1, RelationshipId, w.relationship))
  {
  }

  lemma RelateTold(x: Start, failures: nat, r: Run, w: World, catalogue: Catalogue)
    requires Walking(ConfigureAPNProgram, x, failures, r, w) && IsAt(r.order.bag, ConfigureApn)
    ensures Told(ConfigureAPNProgram, x, failures, r, w, Call(ConfigureAPNProgram, r, w, catalogue))
  {
    Still(6, RelationshipId, x, r.order.bag);
    if Get(r.order.bag, RelationshipId).Truthy() {
      SameLeaves(ConfigureAPNProgram, x, r, w);
      DoneTold(ConfigureAPNProgram, RelationshipId, x, failures, r, w, catalogue);
    } else {
      NewRelateTold(x, failures, r, w, catalogue);
    }
  }

  lemma NewRelateDecides(x: Start, failures: nat, r: Run, w: World)
    requires Standing(6, x, failures, r, w) && IsAt(r.order.bag, ConfigureApn)
    requires !Get(x.bag, RelationshipId).Truthy()
    ensures Decides(ConfigureAPNProgram, x, failures, r, Relate(r, w).0, Relate(r, w).1, w)
  {
    var (r1, sig) := Relate(r, w);
    RelateWork(x, r, w);
    if sig.Proceed? {
      SetLeaves(ConfigureAPNProgram, x, r, r1, RelationshipId, Text(w.relationship.value), w);
    }
  }

  lemma NewRelateTold(x: Start, failures: nat, r: Run, w: World, catalogue: Catalogue)
    requires Walking(ConfigureAPNProgram, x, failures, r, w) && IsAt(r.order.bag, ConfigureApn)
    requires PreStep(ConfigureAPNProgram, r, w) == (r, Proceed) && !Get(x.bag, RelationshipId).Truthy()
    ensures Told(ConfigureAPNProgram, x, failures, r, w, Call(ConfigureAPNProgram, r, w, catalogue))
  {
    NewRelateDecides(x, failures, r, w);
    GateTold(ConfigureAPNProgram, x, failures, r, Relate(r, w).0, Relate(r, w).1, w, catalogue);
  }

  lemma ShakeWork(x: Start, r: Run, w: World)
    requires HasAll(r.order.bag) && IsAt(r.order.bag, CreateHandshake) && !Get(x.bag, HandshakeId).Truthy() && r.order.mpa == x.mpa
    ensures var (r1, sig) := Shake(r, w);
      && Intact(r, r1, sig) && EndOf(sig) == HandshakeGate(x, w)
      && (sig.Proceed? ==> Carries(r, r1, HandshakeId, w.handshake))
  {
  }

  lemma ShakeTold(x: Start, failures: nat, r: Run, w: World, catalogue: Catalogue)
    requires Walking(CreateChannelHandshake, x, failures, r, w) && IsAt(r.order.bag, CreateHandshake)
    ensures Told(CreateChannelHandshake, x, failures, r, w, Call(CreateChannelHandshake, r, w, catalogue))
  {
    Still(7, HandshakeId, x, r.order.bag);
    if Get(r.order.bag, HandshakeId).Truthy() {
      SameLeaves(CreateChannelHandshake, x, r, w);
      DoneTold(CreateChannelHandshake, HandshakeId, x, failures, r, w, catalogue);
    } else {
      NewShakeTold(x, failures, r, w, catalogue);
    }
  }

  lemma NewShakeDecides(x: Start, failures: nat, r: Run, w: World)
    requires Standing(7, x, failures, r, w) && IsAt(r.order.bag, CreateHandshake)
    requires !Get(x.bag, HandshakeId).Truthy()
    ensures Decides(CreateChannelHandshake, x, failures, r, Shake(r, w).0, Shake(r, w).1, w)
  {
    var (r1, sig) := Shake(r, w);
    ShakeWork(x, r, w);
    if sig.Proceed? {
      SetLeaves(CreateChannelHandshake, x, r, r1, HandshakeId, Text(w.handshake.value), w);
    }
  }

  lemma NewShakeTold(x: Start, failures: nat, r: Run, w: World, catalogue: Catalogue)
    requires Walking(CreateChannelHandshake, x, failures, r, w) && IsAt(r.order.bag, CreateHandshake)
    requires PreStep(CreateChannelHandshake, r, w) == (r, Proceed) && !Get(x.bag, HandshakeId).Truthy()
    ensures Told(CreateChannelHandshake, x, failures, r, w, Call(CreateChannelHandshake, r, w, catalogue))
  {
    NewShakeDecides(x, failures, r, w);
    GateTold(CreateChannelHandshake, x, failures, r, Shake(r, w).0, Shake(r, w).1, w, catalogue);
  }

  lemma EnvironmentTold(x: Start, failures: nat, r: Run, w: World, catalogue: Catalogue)
    requires Walking(CreateNewAWSEnvironment, x, failures, r, w) && IsAt(r.order.bag, CreateAccount)
    ensures Told(CreateNewAWSEnvironment, x, failures, r, w, Call(CreateNewAWSEnvironment, r, w, catalogue))
  {
    var sig := if r.order.mpa == NoAccount then QueryOrder else Proceed;
    if sig.Proceed? {
      SameLeaves(CreateNewAWSEnvironment, x, r, w);
    }
    GateTold(CreateNewAWSEnvironment, x, failures, r, r, sig, w, catalogue);
  }

  lemma ApprovalWork(x: Start, r: Run, w: World)
    requires HasId(x, HandshakeId, CreateHandshake) && HasAll(r.order.bag)
    ensures var (r1, sig) := CheckShake(r, w);
      && Intact(r, r1, sig) && EndOf(sig) == ApprovalGate(x, w)
      && (sig.Proceed? ==>
            var v := Get(r1.order.bag, HandshakeApproved);
            r1 == r.(order := r1.order) && r1.order.bag == Set(r.order.bag, HandshakeApproved, v))
  {
  }

  lemma ApprovalDecides(x: Start, failures: nat, r: Run, w: World)
    requires Standing(8, x, failures, r, w) && IsAt(r.order.bag, CheckHandshake)
    requires Get(r.order.bag, HandshakeId).Truthy()
    ensures Decides(CheckChannelHandshakeStatus, x, failures, r, CheckShake(r, w).0, CheckShake(r, w).1, w)
  {
    var (r1, sig) := CheckShake(r, w);
    ApprovalWork(x, r, w);
    if sig.Proceed? {
      SetLeaves(CheckChannelHandshakeStatus, x, r, r1, HandshakeApproved, Get(r1.order.bag, HandshakeApproved), w);
    }
  }

  lemma ApprovalTold(x: Start, failures: nat, r: Run, w: World, catalogue: Catalogue)
    requires Walking(CheckChannelHandshakeStatus, x, failures, r, w) && IsAt(r.order.bag, CheckHandshake) && Get(r.order.bag, HandshakeId).Truthy()
    ensures Told(CheckChannelHandshakeStatus, x, failures, r, w, Call(CheckChannelHandshakeStatus, r, w, catalogue))
  {
    ApprovalDecides(x, failures, r, w);
    GateTold(CheckChannelHandshakeStatus, x, failures, r, CheckShake(r, w).0, CheckShake(r, w).1, w, catalogue);
  }

  lemma RolesWork(r: Run, w: World)
    requires r.roles.None? && HasAll(r.order.bag)
    ensures var (r1, sig) := CheckDeployedRoles(r, w);
      && Intact(r, r1, sig) && EndOf(sig) == RolesGate(w)
      && (sig.Proceed? ==> r1 == r.(roles := r1.roles, order := r.order.With(RolesDeployed, Yes)))
  {
  }

  lemma RolesDecides(x: Start, failures: nat, r: Run, w: World)
    requires Standing(9, x, failures, r, w) && IsAt(r.order.bag, CheckRoles)
    ensures Decides(CheckCustomerRoles, x, failures, r, CheckDeployedRoles(r, w).0, CheckDeployedRoles(r, w).1, w)
  {
    var (r1, sig) := CheckDeployedRoles(r, w);
    RolesWork(r, w);
    if sig.Proceed? {
      SetLeaves(CheckCustomerRoles, x, r, r1, RolesDeployed, Yes, w);
    }
  }

  lemma RolesTold(x: Start, failures: nat, r: Run, w: World, catalogue: Catalogue)
    requires Walking(CheckCustomerRoles, x, failures, r, w) && IsAt(r.order.bag, CheckRoles)
    ensures Told(CheckCustomerRoles, x, failures, r, w, Call(CheckCustomerRoles, r, w, catalogue))
  {
    RolesDecides(x, failures, r, w);
    GateTold(CheckCustomerRoles, x, failures, r, CheckDeployedRoles(r, w).0, CheckDeployedRoles(r, w).1, w, catalogue);
  }

  lemma SubscribeWork(x: Start, r: Run, w: World)
    requires HasAll(r.order.bag) && !Refused(x) && r.order.mpa == x.mpa && r.Hist().subscriptions == x.subscriptions
    ensures var (r1, sig) := Subscribe(r, w);
      && Intact(r, r1, sig) && EndOf(sig) == SubscriptionGate(x, w)
      && r1.order == r.order && r1.stillRunning == r.stillRunning && r1.server.mailed == r.server.mailed
      && r1.Hist().failedSaves == r.Hist().failedSaves
  {
  }

  lemma SubscriptionTold(x: Start, failures: nat, r: Run, w: World, catalogue: Catalogue)
    requires Walking(CreateSubscriptionStep, x, failures, r, w) && IsAt(r.order.bag, CreateSubscription) && !r.stillRunning
    ensures Told(CreateSubscriptionStep, x, failures, r, w, Call(CreateSubscriptionStep, r, w, catalogue))
  {
    assert RolesRefused(r) <==> Refused(x);
    if Refused(x) {
      assert Call(CreateSubscriptionStep, r, w, catalogue) == (r, Halt);
    } else {
      NewSubscriptionTold(x, failures, r, w, catalogue);
    }
  }

  lemma NewSubscriptionDecides(x: Start, failures: nat, r: Run, w: World)
    requires Standing(13, x, failures, r, w) && IsAt(r.order.bag, CreateSubscription)
    requires !Refused(x) && !r.stillRunning
    ensures Decides(CreateSubscriptionStep, x, failures, r, Subscribe(r, w).0, Subscribe(r, w).1, w)
  {
    var (r1, sig) := Subscribe(r, w);
    SubscribeWork(x, r, w);
    if sig.Proceed? {
      SameLeaves(CreateSubscriptionStep, x, r1, w);
    }
  }

  lemma NewSubscriptionTold(x: Start, failures: nat, r: Run, w: World, catalogue: Catalogue)
    requires Walking(CreateSubscriptionStep, x, failures, r, w) && IsAt(r.order.bag, CreateSubscription)
    requires PreStep(CreateSubscriptionStep, r, w) == (r, Proceed) && !Refused(x) && !r.stillRunning
    ensures Told(CreateSubscriptionStep, x, failures, r, w, Call(CreateSubscriptionStep, r, w, catalogue))
  {
    NewSubscriptionDecides(x, failures, r, w);
    GateTold(CreateSubscriptionStep, x, failures, r, Subscribe(r, w).0, Subscribe(r, w).1, w, catalogue);
  }

  /** The work changed one parameter of the order and the history of creations. */
  ghost predicate Only(p: Param, r: Run, r1: Run) {
    && Intact(r, r1, Proceed)
    && r1.roles == r.roles && r1.stillRunning == r.stillRunning && r1.server.mailed == r.server.mailed
    && r1.Hist().subscriptions == r.Hist().subscriptions
    && (forall q {:trigger Get(r1.order.bag, q)} :: q != p ==> Get(r1.order.bag, q) == Get(r.order.bag, q))
  }

  predicate OpensTicket(step: Step, p: Param) {
    || (step == TicketNewAccount && p == NewAccountTicket)
    || (step == TicketOrderFail && p == OrderFailedTicket)
    || (step == TicketPLS && p == PlsTicket)
    || (step == TicketOnboardServices && p == OnboardTicket)
  }

  predicate OwnParam(step: Step, p: Param) {
    OpensTicket(step, p) || (step == ContractCard && p == ContractNumber)
  }

  lemma StayPosition(step: Step, p: Param, newAccount: bool)
    requires OwnParam(step, p)
    ensures Successor(step, newAccount).Some? && NextPhase(step).None?
    ensures Position(Successor(step, newAccount).value) == Position(step) + 1
    ensures Position(step) in {2, 10, 14, 16, 17} && p !in {PhaseParam, ExecutionArn, ErrorNotified}
  {
  }

  lemma OnlyCarries(i: nat, p: Param, x: Start, r: Run, r1: Run, w: World)
    requires i in {2, 10, 14, 16, 17} && p !in {PhaseParam, ExecutionArn, ErrorNotified} && Only(p, r, r1)
    requires Carried(i, x, r, w) && Unmoved(i, x, Rank(r.order.bag))
    ensures Rank(r1.order.bag) == Rank(r.order.bag)
    ensures Get(r1.order.bag, ExecutionArn) == Get(r.order.bag, ExecutionArn)
    ensures Unmoved(i + 1, x, Rank(r1.order.bag)) && Carried(i + 1, x, r1, w)
  {
  }

  /** A step that goes on in the phase in which it arrived. */
  lemma StayTold(step: Step, p: Param, x: Start, failures: nat, r: Run, r1: Run, w: World, catalogue: Catalogue)
    requires Walking(step, x, failures, r, w) && OwnParam(step, p) && Only(p, r, r1)
    requires r1.Hist().failedSaves == r.Hist().failedSaves
    requires Call(step, r, w, catalogue) == AfterWork(step, r1, Proceed, w)
    requires Holdings(Position(step) + 1, x, r1.order.bag, w)
    requires Cleared(Position(step) + 1, x, Rank(r.order.bag), r.stillRunning, w)
    ensures Told(step, x, failures, r, w, Call(step, r, w, catalogue))
  {
    var c := Call(step, r, w, catalogue);
    StayPosition(step, p, r.server.newAccount);
    StaySaves(step, p, r1, w);
    SaveTold(r1, w.save(step, AfterStep));
    StepAdvances(step, Successor(step, r.server.newAccount).value, r, w, catalogue);
    OnlyCarries(Position(step), p, x, r, r1, w);
    if c.1.Continue? {
      assert Carried(Position(step) + 1, x, c.0, w);
    }
  }

  lemma StaySaves(step: Step, p: Param, r: Run, w: World)
    requires OwnParam(step, p)
    ensures AfterWork(step, r, Proceed, w) ==
      (Save(r, w.save(step, AfterStep)).0, Leave(Save(r, w.save(step, AfterStep)).1, Continue))
  {
    match step
    case TicketNewAccount =>
    case TicketOrderFail =>
    case ContractCard =>
    case TicketPLS =>
    case TicketOnboardServices =>
  }

  lemma ValidationTold(x: Start, failures: nat, r: Run, w: World, catalogue: Catalogue)
    requires Walking(ValidateOrder, x, failures, r, w) && IsAt(r.order.bag, CreateInvitation)
    ensures Told(ValidateOrder, x, failures, r, w, Call(ValidateOrder, r, w, catalogue))
  {
    RankOfPhase(x.first, CreateInvitation);
    CallWorks(ValidateOrder, r, w, catalogue);
    if w.duplicate == Good(false) {
      StepAdvances(ValidateOrder, Successor(ValidateOrder, r.server.newAccount).value, r, w, catalogue);
      KeptLater(1, Position(Successor(ValidateOrder, r.server.newAccount).value), x, r.order.bag);
      assert Call(ValidateOrder, r, w, catalogue) == (r, Continue);
    } else {
      EndTold(ValidateOrder, x, failures, r, r, if w.duplicate.Good? then FailOrder else Crash, w);
    }
  }

  /** What a ticket step does: it records the id if there is one, or ends at the ticket. */
  lemma TicketWork(x: Start, r: Run, p: Param, a: Answer<string>)
    requires HasAll(r.order.bag) && p != PhaseParam && Unchanged(x, r.order.bag, p) && !Get(r.order.bag, p).Truthy()
    ensures var (r1, sig) := OpenTicket(r, p, a);
      && Intact(r, r1, sig) && EndOf(sig) == Ticket(x, p, a)
      && r1.Hist().failedSaves == r.Hist().failedSaves && (sig.Proceed? ==> Only(p, r, r1))
  {
    if a.Good? && a.value != "" {
      assert r.Made(p).order == r.order && r.Made(p).With(p, Text(a.value)).order == r.order.With(p, Text(a.value));
    }
  }

  /** A parameter that is not behind the run and not one of the phases' own may change. */
  lemma OtherHolds(i: nat, j: nat, x: Start, bag: Bag, bag': Bag, p: Param, w: World)
    requires KeptFrom(i, x, bag) && Gained(x, bag, w) && i <= j && j != 15 && Until(p) < j
    requires p !in {PhaseParam, TransferId, HandshakeId, RolesDeployed, ExecutionArn}
    requires forall q :: q != p ==> Get(bag', q) == Get(bag, q)
    ensures Holdings(j, x, bag', w) && Rank(bag') == Rank(bag)
  {
    forall q | j <= Until(q) ensures Unchanged(x, bag', q) {
      Still(i, q, x, bag);
    }
  }

  /** The current gate is the one of the ticket. */
  predicate AtTicket(step: Step, x: Start, k: nat, still: bool) {
    match step
    case TicketNewAccount => k == 1
    case TicketOrderFail => k == PhaseRank(x.first) && Refused(x)
    case TicketPLS => x.pls && (k == 12 || still)
    case _ => k == 12
  }

  lemma TicketGate(step: Step, p: Param, x: Start, failures: nat, r: Run, w: World)
    requires OpensTicket(step, p) && Walking(step, x, failures, r, w) && PreStep(step, r, w).1.Proceed?
    ensures AtTicket(step, x, Rank(r.order.bag), r.stillRunning) && Get(r.order.bag, PhaseParam).AtPhase?
    ensures Ticket(x, p, w.ticket(step)).Ends? ==>
      GateOf(Get(r.order.bag, PhaseParam).phase, x, w) == Ticket(x, p, w.ticket(step))
  {
    var q := Get(r.order.bag, PhaseParam).phase;
    RankOfPhase(q, x.first);
    Still(Position(step), p, x, r.order.bag);
    match step
    case TicketNewAccount =>
    case TicketOrderFail =>
    case TicketPLS =>
      PhaseOfRank(r.order.bag, Completed);
      PhaseOfRank(r.order.bag, CheckOnboard);
    case TicketOnboardServices =>
  }

  lemma TicketClears(step: Step, p: Param, x: Start, k: nat, still: bool, newAccount: bool, w: World)
    requires OpensTicket(step, p) && Cleared(Position(step), x, k, still, w)
    requires Ticket(x, p, w.ticket(step)).Passes?
    ensures Cleared(Position(Successor(step, newAccount).value), x, k, still, w)
  {
  }

  lemma TicketTold(step: Step, p: Param, x: Start, failures: nat, r: Run, w: World, catalogue: Catalogue)
    requires OpensTicket(step, p) && Walking(step, x, failures, r, w) && PreStep(step, r, w).1.Proceed?
    requires !Get(r.order.bag, p).Truthy() && Process(step, r, w, catalogue) == OpenTicket(r, p, w.ticket(step))
    ensures Told(step, x, failures, r, w, Call(step, r, w, catalogue))
  {
    var (r1, sig) := OpenTicket(r, p, w.ticket(step));
    PreProceeds(step, r, w);
    CallWorks(step, r, w, catalogue);
    Still(Position(step), p, x, r.order.bag);
    TicketWork(x, r, p, w.ticket(step));
    if sig.Proceed? {
      TicketStays(step, p, x, failures, r, r1, w, catalogue);
    } else {
      TicketGate(step, p, x, failures, r, w);
      EndTold(step, x, failures, r, r1, sig, w);
    }
  }

  lemma TicketStays(step: Step, p: Param, x: Start, failures: nat, r: Run, r1: Run, w: World, catalogue: Catalogue)
    requires OpensTicket(step, p) && Walking(step, x, failures, r, w) && Only(p, r, r1)
    requires r1.Hist().failedSaves == r.Hist().failedSaves
    requires Call(step, r, w, catalogue) == AfterWork(step, r1, Proceed, w)
    requires Ticket(x, p, w.ticket(step)).Passes?
    ensures Told(step, x, failures, r, w, Call(step, r, w, catalogue))
  {
    var i := Position(step);
    StayPosition(step, p, r.server.newAccount);
    OtherHolds(i, i + 1, x, r.order.bag, r1.order.bag, p, w);
    TicketClears(step, p, x, Rank(r.order.bag), r.stillRunning, r.server.newAccount, w);
    StayTold(step, p, x, failures, r, r1, w, catalogue);
  }

  lemma ContractWork(x: Start, r: Run, w: World)
    requires HasAll(r.order.bag) && Unchanged(x, r.order.bag, ContractNumber) && !Get(r.order.bag, ContractNumber).Truthy()
    ensures var (r1, sig) := FindContract(r, w);
      && Intact(r, r1, sig) && (sig == Proceed || sig == Crash) && (sig == Crash <==> w.contract.Raises?)
      && r1.Hist().failedSaves == r.Hist().failedSaves && (sig.Proceed? ==> Only(ContractNumber, r, r1))
      && (sig.Proceed? ==> (Get(r1.order.bag, ContractNumber).Truthy() <==> NewContract(w)))
  {
  }

  /** Behind the order-failed ticket a late gate is that of its phase alone. */
  lemma LateGate(i: nat, x: Start, p: Phase, still: bool, w: World)
    requires i > 10 && Cleared(i, x, PhaseRank(p), still, w)
    ensures p == CheckOnboard ==> GateOf(p, x, w) == DeploymentGate(x, w)
    ensures p == OnboardServices ==> GateOf(p, x, w) == OnboardGate(x, w)
    ensures p == CreateSubscription ==> GateOf(p, x, w) == SubscriptionGate(x, w)
    ensures p == ProjectCreation ==> GateOf(p, x, w) == ProjectGate(x, w)
    ensures p == Completed ==> GateOf(p, x, w) == CompletionGate(x, w)
  {
  }

  lemma ContractTold(x: Start, failures: nat, r: Run, w: World, catalogue: Catalogue)
    requires Walking(ContractCard, x, failures, r, w) && IsAt(r.order.bag, ProjectCreation)
    requires PreStep(ContractCard, r, w) == (r, Proceed)
    ensures Told(ContractCard, x, failures, r, w, Call(ContractCard, r, w, catalogue))
  {
    var (r1, sig) := FindContract(r, w);
    CallWorks(ContractCard, r, w, catalogue);
    Still(14, ContractNumber, x, r.order.bag);
    ContractWork(x, r, w);
    if sig.Proceed? {
      ContractFound(x, failures, r, r1, w, catalogue);
    } else {
      LateGate(14, x, ProjectCreation, r.stillRunning, w);
      EndTold(ContractCard, x, failures, r, r1, sig, w);
    }
  }

  lemma ContractFound(x: Start, failures: nat, r: Run, r1: Run, w: World, catalogue: Catalogue)
    requires Walking(ContractCard, x, failures, r, w) && IsAt(r.order.bag, ProjectCreation)
    requires !Get(x.bag, ContractNumber).Truthy() && !w.contract.Raises? && Only(ContractNumber, r, r1)
    requires Get(r1.order.bag, ContractNumber).Truthy() <==> NewContract(w)
    requires r1.Hist().failedSaves == r.Hist().failedSaves
    requires Call(ContractCard, r, w, catalogue) == AfterWork(ContractCard, r1, Proceed, w)
    ensures Told(ContractCard, x, failures, r, w, Call(ContractCard, r, w, catalogue))
  {
    ContractHolds(x, r.order.bag, r1.order.bag, w);
    ContractClears(x, r.stillRunning, w);
    StayTold(ContractCard, ContractNumber, x, failures, r, r1, w, catalogue);
  }

  lemma ContractClears(x: Start, still: bool, w: World)
    requires Cleared(14, x, 11, still, w) && !w.contract.Raises?
    ensures Cleared(15, x, 11, still, w)
  {
  }

  lemma ContractHolds(x: Start, bag: Bag, bag': Bag, w: World)
    requires KeptFrom(14, x, bag) && Gained(x, bag, w) && !Get(x.bag, ContractNumber).Truthy()
    requires forall q :: q != ContractNumber ==> Get(bag', q) == Get(bag, q)
    requires Get(bag', ContractNumber).Truthy() <==> NewContract(w)
    ensures Holdings(15, x, bag', w) && Rank(bag') == Rank(bag)
  {
    forall q | 15 <= Until(q) ensures Unchanged(x, bag', q) {
      Still(14, q, x, bag);
    }
  }

  lemma JobWork(x: Start, r: Run, w: World)
    requires HasAll(r.order.bag) && !Get(x.bag, ErpProjectNo).Truthy()
    requires Get(r.order.bag, ContractNumber).Truthy() <==> Get(x.bag, ContractNumber).Truthy() || NewContract(w)
    requires Get(x.bag, ContractNumber).Truthy() || !w.contract.Raises?
    ensures var (r1, sig) := CreateJob(r, w);
      && Intact(r, r1, sig) && EndOf(sig) == ProjectGate(x, w)
      && r1 == r.(order := r1.order)
      && (sig.Proceed? ==> r1.order.bag == Set(r.order.bag, ErpProjectNo, Get(r1.order.bag, ErpProjectNo)))
  {
  }

  lemma JobTold(x: Start, failures: nat, r: Run, w: World, catalogue: Catalogue)
    requires Walking(SWOJob, x, failures, r, w) && IsAt(r.order.bag, ProjectCreation)
    ensures Told(SWOJob, x, failures, r, w, Call(SWOJob, r, w, catalogue))
  {
    Still(15, ErpProjectNo, x, r.order.bag);
    JobClears(x, r, w);
    if Get(r.order.bag, ErpProjectNo).Truthy() {
      OldJobTold(x, failures, r, w, catalogue);
    } else {
      NewJobTold(x, failures, r, w, catalogue);
    }
  }

  lemma JobClears(x: Start, r: Run, w: World)
    requires IsAt(r.order.bag, ProjectCreation) && Cleared(15, x, Rank(r.order.bag), r.stillRunning, w)
    ensures GateOf(ProjectCreation, x, w) == ProjectGate(x, w)
    ensures Get(x.bag, ContractNumber).Truthy() || !w.contract.Raises?
  {
    PhaseOfRank(r.order.bag, ProjectCreation);
    LateGate(15, x, ProjectCreation, r.stillRunning, w);
  }

  lemma OldJobTold(x: Start, failures: nat, r: Run, w: World, catalogue: Catalogue)
    requires Walking(SWOJob, x, failures, r, w) && IsAt(r.order.bag, ProjectCreation) && !r.stillRunning
    requires PreStep(SWOJob, r, w) == (r.At(Completed), AlreadyProcessed) && GateOf(ProjectCreation, x, w) == Passes
    ensures Told(SWOJob, x, failures, r, w, Call(SWOJob, r, w, catalogue))
  {
    OldJobLeaves(x, r, w);
    assert NextPhase(SWOJob) == Some(Completed) && HomePhase(SWOJob) == Some(ProjectCreation);
    DoneTold(SWOJob, ErpProjectNo, x, failures, r, w, catalogue);
  }

  lemma OldJobLeaves(x: Start, r: Run, w: World)
    requires KeptFrom(15, x, r.order.bag) && Carried(15, x, r, w) && Gained(x, r.order.bag, w)
    requires IsAt(r.order.bag, ProjectCreation) && HasAll(r.order.bag) && !r.stillRunning
    ensures LeavesReady(SWOJob, x, r, w)
  {
    SameLeaves(SWOJob, x, r, w);
  }

  lemma NewJobDecides(x: Start, failures: nat, r: Run, w: World)
    requires Standing(15, x, failures, r, w) && IsAt(r.order.bag, ProjectCreation)
    requires !Get(x.bag, ErpProjectNo).Truthy() && GateOf(ProjectCreation, x, w) == ProjectGate(x, w) && !r.stillRunning
    requires Get(x.bag, ContractNumber).Truthy() || !w.contract.Raises?
    ensures Decides(SWOJob, x, failures, r, CreateJob(r, w).0, CreateJob(r, w).1, w)
  {
    JobWork(x, r, w);
    if CreateJob(r, w).1.Proceed? {
      JobLeaves(x, failures, r, CreateJob(r, w).0, w);
    }
  }

  lemma JobLeaves(x: Start, failures: nat, r: Run, r1: Run, w: World)
    requires Standing(15, x, failures, r, w) && IsAt(r.order.bag, ProjectCreation)
    requires r1 == r.(order := r1.order) && HasAll(r1.order.bag)
    requires r1.order.bag == Set(r.order.bag, ErpProjectNo, Get(r1.order.bag, ErpProjectNo))
    requires !r.stillRunning
    ensures LeavesReady(SWOJob, x, r1, w)
  {
    SetLeaves(SWOJob, x, r, r1, ErpProjectNo, Get(r1.order.bag, ErpProjectNo), w);
  }

  lemma NewJobTold(x: Start, failures: nat, r: Run, w: World, catalogue: Catalogue)
    requires Walking(SWOJob, x, failures, r, w) && IsAt(r.order.bag, ProjectCreation)
    requires PreStep(SWOJob, r, w) == (r, Proceed) && !Get(x.bag, ErpProjectNo).Truthy()
    requires GateOf(ProjectCreation, x, w) == ProjectGate(x, w)
    ensures Told(SWOJob, x, failures, r, w, Call(SWOJob, r, w, catalogue))
  {
    NewJobDecides(x, failures, r, w);
    GateTold(SWOJob, x, failures, r, CreateJob(r, w).0, CreateJob(r, w).1, w, catalogue);
  }

  /** The handler of deployment errors, as a gate. */
  lemma HandlerWork(x: Start, r: Run, step: Step, w: World)
    requires HasAll(r.order.bag) && r.server.pls == x.pls
    requires (NotifiedAtStart(x) ==> Notified(r)) && (Notified(r) && !NotifiedAtStart(x) ==> w.mail.Good?)
    requires Get(r.server.saved.bag, PhaseParam) == Get(r.order.bag, PhaseParam)
    ensures var (r1, sig) := HandleError(r, step, w);
      && Intact(r, r1, sig)
      && (r1.Hist().failedSaves == r.Hist().failedSaves ==> EndOf(sig) == Mailed(x, w))
      && (sig.Proceed? ==>
            && (NotifiedAtStart(x) ==> Notified(r1)) && (Notified(r1) && !NotifiedAtStart(x) ==> w.mail.Good?)
            && r1.roles == r.roles && r1.stillRunning == r.stillRunning
            && r1.Hist().subscriptions == r.Hist().subscriptions
            && (forall q :: q != ErrorNotified ==> Get(r1.order.bag, q) == Get(r.order.bag, q)))
  {
    if !Notified(r) {
      SaveTold(r.With(ErrorNotified, Yes), w.save(step, InHandler));
    }
  }

  /** The work changed at most the deployment's ARN and the error flag. */
  predicate Deployed(r: Run, r1: Run) {
    && r1.roles == r.roles && r1.Hist().subscriptions == r.Hist().subscriptions
    && forall q {:trigger Get(r1.order.bag, q)} :: q != ExecutionArn && q != ErrorNotified ==> Get(r1.order.bag, q) == Get(r.order.bag, q)
  }

  predicate MailKnown(x: Start, r: Run, w: World) {
    (NotifiedAtStart(x) ==> Notified(r)) && (Notified(r) && !NotifiedAtStart(x) ==> w.mail.Good?)
  }

  /** The deployment was started, or the handler let the run go on without it; or neither. */
  ghost predicate OnboardDone(x: Start, r: Run, r1: Run, sig: Signal, w: World) {
    && Intact(r, r1, sig)
    && (r1.Hist().failedSaves == r.Hist().failedSaves ==> EndOf(sig) == OnboardGate(x, w))
    && (sig.Proceed? ==>
          && Deployed(r, r1) && MailKnown(x, r1, w) && !r1.stillRunning
          && (Get(r1.order.bag, ExecutionArn).Truthy() <==> Get(x.bag, ExecutionArn).Truthy() || NewArn(x, w)))
  }

  lemma OnboardWork(x: Start, r: Run, w: World)
    requires HasAll(r.order.bag) && r.server.pls == x.pls && MailKnown(x, r, w) && !r.stillRunning
    requires Get(r.server.saved.bag, PhaseParam) == Get(r.order.bag, PhaseParam)
    requires Unchanged(x, r.order.bag, ExecutionArn) && PhaseRank(x.first) <= 8
    ensures OnboardDone(x, r, Onboard(r, w).0, Onboard(r, w).1, w)
  {
    if w.onboard.Good? && w.onboard.value != "" {
      SaveTold(r.With(ExecutionArn, Text(w.onboard.value)), w.save(OnboardServicesStep, InStep));
    } else {
      HandlerWork(x, r, OnboardServicesStep, w);
    }
  }

  lemma OnboardLeaves(x: Start, r: Run, r1: Run, w: World)
    requires KeptFrom(11, x, r.order.bag) && Gained(x, r.order.bag, w) && Carried(11, x, r, w)
    requires HasAll(r1.order.bag) && Rank(r.order.bag) == 8
    requires Deployed(r, r1) && MailKnown(x, r1, w) && !r1.stillRunning && SameKind(r, r1)
    requires Get(r1.order.bag, ExecutionArn).Truthy() <==> Get(x.bag, ExecutionArn).Truthy() || NewArn(x, w)
    ensures LeavesReady(OnboardServicesStep, x, r1, w)
  {
    var bag := r1.At(CheckOnboard).order.bag;
    forall q | q !in {PhaseParam, ExecutionArn, ErrorNotified} ensures Get(bag, q) == Get(r.order.bag, q) {
      assert Get(r1.order.bag, q) == Get(r.order.bag, q);
    }
    DeployedKept(11, x, r.order.bag, bag);
    DeployedGained(x, r.order.bag, bag, w);
  }

  lemma DeploymentLeaves(x: Start, r: Run, r1: Run, w: World)
    requires KeptFrom(12, x, r.order.bag) && Gained(x, r.order.bag, w) && Carried(12, x, r, w)
    requires HasAll(r1.order.bag) && Rank(r.order.bag) == 9
    requires Deployed(r, r1) && MailKnown(x, r1, w) && !r1.stillRunning && SameKind(r, r1)
    requires Get(r1.order.bag, ExecutionArn).Truthy() <==> Get(x.bag, ExecutionArn).Truthy() || NewArn(x, w)
    ensures LeavesReady(CheckOnboardStatus, x, r1, w)
  {
    var bag := r1.At(CreateSubscription).order.bag;
    forall q | q !in {PhaseParam, ExecutionArn, ErrorNotified} ensures Get(bag, q) == Get(r.order.bag, q) {
      assert Get(r1.order.bag, q) == Get(r.order.bag, q);
    }
    DeployedKept(12, x, r.order.bag, bag);
    DeployedGained(x, r.order.bag, bag, w);
  }

  lemma DeployedKept(i: nat, x: Start, bag: Bag, bag': Bag)
    requires i >= 11 && KeptFrom(i, x, bag)
    requires forall q :: q !in {PhaseParam, ExecutionArn, ErrorNotified} ==> Get(bag', q) == Get(bag, q)
    ensures KeptFrom(i + 1, x, bag')
  {
    forall q | i + 1 <= Until(q) ensures Unchanged(x, bag', q) {
      Still(i, q, x, bag);
    }
  }

  lemma DeployedGained(x: Start, bag: Bag, bag': Bag, w: World)
    requires Gained(x, bag, w) && Rank(bag) >= 8
    requires forall q :: q !in {PhaseParam, ExecutionArn, ErrorNotified} ==> Get(bag', q) == Get(bag, q)
    requires Get(bag', ExecutionArn).Truthy() <==> Get(x.bag, ExecutionArn).Truthy() || NewArn(x, w)
    requires Rank(bag') >= 9
    ensures Gained(x, bag', w)
  {
    assert Unchanged(x, bag, TransferId) ==> Unchanged(x, bag', TransferId);
    assert Unchanged(x, bag, HandshakeId) ==> Unchanged(x, bag', HandshakeId);
    assert Unchanged(x, bag, RolesDeployed) ==> Unchanged(x, bag', RolesDeployed);
  }

  lemma OnboardDecides(x: Start, failures: nat, r: Run, r1: Run, sig: Signal, w: World)
    requires Standing(11, x, failures, r, w) && IsAt(r.order.bag, OnboardServices)
    requires GateOf(OnboardServices, x, w) == OnboardGate(x, w) && OnboardDone(x, r, r1, sig, w)
    ensures Decides(OnboardServicesStep, x, failures, r, r1, sig, w)
  {
    if sig.Proceed? {
      OnboardLeaves(x, r, r1, w);
    }
  }

  lemma OnboardTold(x: Start, failures: nat, r: Run, w: World, catalogue: Catalogue)
    requires Walking(OnboardServicesStep, x, failures, r, w) && IsAt(r.order.bag, OnboardServices)
    ensures Told(OnboardServicesStep, x, failures, r, w, Call(OnboardServicesStep, r, w, catalogue))
  {
    LateGate(11, x, OnboardServices, r.stillRunning, w);
    Still(11, ExecutionArn, x, r.order.bag);
    OnboardWork(x, r, w);
    OnboardDecides(x, failures, r, Onboard(r, w).0, Onboard(r, w).1, w);
    GateTold(OnboardServicesStep, x, failures, r, Onboard(r, w).0, Onboard(r, w).1, w, catalogue);
  }

  /** The deployment runs on, or it is decided and the handler with it. */
  ghost predicate DeploymentDone(x: Start, r: Run, r1: Run, sig: Signal, w: World) {
    && Intact(r, r1, sig)
    && (sig.Proceed? && r1.stillRunning ==>
          r1 == r.(stillRunning := true) && Get(r.order.bag, ExecutionArn).Truthy() && DeploymentOpen(w))
    && (!(sig.Proceed? && r1.stillRunning) && r1.Hist().failedSaves == r.Hist().failedSaves ==>
          EndOf(sig) == DeploymentGate(x, w))
    && (sig.Proceed? && !r1.stillRunning ==>
          && Deployed(r, r1) && MailKnown(x, r1, w)
          && Get(r1.order.bag, ExecutionArn) == Get(r.order.bag, ExecutionArn))
  }

  lemma DeploymentWork(x: Start, r: Run, w: World)
    requires HasAll(r.order.bag) && r.server.pls == x.pls && MailKnown(x, r, w) && !r.stillRunning
    requires Get(r.server.saved.bag, PhaseParam) == Get(r.order.bag, PhaseParam)
    requires Get(r.order.bag, ExecutionArn).Truthy() <==> Get(x.bag, ExecutionArn).Truthy() || NewArn(x, w)
    ensures DeploymentDone(x, r, CheckDeployment(r, w).0, CheckDeployment(r, w).1, w)
  {
    var r0 := r.(stillRunning := false);
    HandlerWork(x, r0, CheckOnboardStatus, w);
    if !Get(r.order.bag, ExecutionArn).Truthy() {
      assert CheckDeployment(r, w) == HandleError(r0, CheckOnboardStatus, w);
    } else {
      match w.deployment
      case ServiceError => assert CheckDeployment(r, w) == HandleError(r0, CheckOnboardStatus, w);
      case Raises =>
      case Good(Running) =>
      case Good(FailedDeployment) => assert CheckDeployment(r, w) == HandleError(r0, CheckOnboardStatus, w);
      case Good(UnknownDeployment) =>
      case Good(Succeeded) =>
    }
  }

  lemma RunningTold(x: Start, failures: nat, r: Run, w: World, catalogue: Catalogue)
    requires Walking(CheckOnboardStatus, x, failures, r, w) && IsAt(r.order.bag, CheckOnboard)
    requires CheckDeployment(r, w) == (r.(stillRunning := true), Proceed)
    requires Get(r.order.bag, ExecutionArn).Truthy()
    ensures Told(CheckOnboardStatus, x, failures, r, w, Call(CheckOnboardStatus, r, w, catalogue))
  {
    CallWorks(CheckOnboardStatus, r, w, catalogue);
    StepAdvances(CheckOnboardStatus, CreateSubscriptionStep, r, w, catalogue);
    KeptLater(12, 13, x, r.order.bag);
    assert Call(CheckOnboardStatus, r, w, catalogue) == (r.(stillRunning := true), Continue);
  }

  lemma DeploymentDecides(x: Start, failures: nat, r: Run, r1: Run, sig: Signal, w: World)
    requires Standing(12, x, failures, r, w) && IsAt(r.order.bag, CheckOnboard)
    requires GateOf(CheckOnboard, x, w) == DeploymentGate(x, w) && DeploymentDone(x, r, r1, sig, w)
    requires !(sig.Proceed? && r1.stillRunning)
    ensures Decides(CheckOnboardStatus, x, failures, r, r1, sig, w)
  {
    if sig.Proceed? {
      DeploymentLeaves(x, r, r1, w);
    }
  }

  lemma DeploymentTold(x: Start, failures: nat, r: Run, w: World, catalogue: Catalogue)
    requires Walking(CheckOnboardStatus, x, failures, r, w) && IsAt(r.order.bag, CheckOnboard)
    ensures Told(CheckOnboardStatus, x, failures, r, w, Call(CheckOnboardStatus, r, w, catalogue))
  {
    var (r1, sig) := CheckDeployment(r, w);
    DeploymentWork(x, r, w);
    if sig.Proceed? && r1.stillRunning {
      RunningTold(x, failures, r, w, catalogue);
    } else {
      LateGate(12, x, CheckOnboard, r.stillRunning, w);
      DeploymentDecides(x, failures, r, r1, sig, w);
      GateTold(CheckOnboardStatus, x, failures, r, r1, sig, w, catalogue);
    }
  }

  /** The end of the pipeline, whether the order is completed or still waits for its deployment. */
  lemma LastTold(x: Start, failures: nat, r: Run, w: World, catalogue: Catalogue)
    requires Walking(CompleteOrder, x, failures, r, w)
    ensures EndedIn(x, failures, r, w, Call(CompleteOrder, r, w, catalogue))
  {
    PhaseOfRank(r.order.bag, Completed);
    if IsAt(r.order.bag, Completed) {
      CompletionTold(x, failures, r, w, catalogue);
    } else {
      PhaseOfRank(r.order.bag, CheckOnboard);
      LateGate(18, x, CheckOnboard, r.stillRunning, w);
      assert Call(CompleteOrder, r, w, catalogue) == (r, Continue);
    }
  }

  lemma CompletionTold(x: Start, failures: nat, r: Run, w: World, catalogue: Catalogue)
    requires Walking(CompleteOrder, x, failures, r, w) && IsAt(r.order.bag, Completed)
    ensures EndedIn(x, failures, r, w, Call(CompleteOrder, r, w, catalogue))
  {
    LateGate(18, x, Completed, r.stillRunning, w);
    CallWorks(CompleteOrder, r, w, catalogue);
    FinishTold(x, failures, r, w);
  }

  lemma FinishTold(x: Start, failures: nat, r: Run, w: World)
    requires r.server.status == Processing && r.Hist().failedSaves == failures
    requires Get(r.server.saved.bag, PhaseParam) == Get(r.order.bag, PhaseParam) == AtPhase(Completed)
    requires GateOf(Completed, x, w) == if w.agreement then Ends(Done, Continue) else BREAKS
    ensures EndedIn(x, failures, r, w, AfterWork(CompleteOrder, Finish(r, w).0, Finish(r, w).1, w))
  {
    SaveTold(r, w.save(CompleteOrder, Switch));
  }

  lemma StepTold(step: Step, x: Start, failures: nat, r: Run, w: World, catalogue: Catalogue)
    requires step != SetupContext && step != CompleteOrder && Walking(step, x, failures, r, w)
    ensures Told(step, x, failures, r, w, Call(step, r, w, catalogue))
  {
    if PreStep(step, r, w).1.Skip? {
      SkipTold(step, x, failures, r, w, catalogue);
    } else if Position(step) <= 10 {
      EarlyTold(step, x, failures, r, w, catalogue);
    } else {
      LateTold(step, x, failures, r, w, catalogue);
    }
  }

  lemma EarlyTold(step: Step, x: Start, failures: nat, r: Run, w: World, catalogue: Catalogue)
    requires 1 <= Position(step) <= 10 && Walking(step, x, failures, r, w) && !PreStep(step, r, w).1.Skip?
    ensures Told(step, x, failures, r, w, Call(step, r, w, catalogue))
  {
    match step
    case ValidateOrder => ValidationTold(x, failures, r, w, catalogue);
    case TicketNewAccount => TicketTold(step, NewAccountTicket, x, failures, r, w, catalogue);
    case CreateNewAWSEnvironment => EnvironmentTold(x, failures, r, w, catalogue);
    case CreateBillingTransferInvitation => InviteTold(x, failures, r, w, catalogue);
    case CheckBillingTransferInvitation => CheckedTransferTold(x, failures, r, w, catalogue);
    case ConfigureAPNProgram => RelateTold(x, failures, r, w, catalogue);
    case CreateChannelHandshake => ShakeTold(x, failures, r, w, catalogue);
    case CheckChannelHandshakeStatus => CheckedApprovalTold(x, failures, r, w, catalogue);
    case CheckCustomerRoles => RolesTold(x, failures, r, w, catalogue);
    case TicketOrderFail => TicketTold(step, OrderFailedTicket, x, failures, r, w, catalogue);
  }

  lemma LateTold(step: Step, x: Start, failures: nat, r: Run, w: World, catalogue: Catalogue)
    requires 11 <= Position(step) <= 17 && Walking(step, x, failures, r, w) && !PreStep(step, r, w).1.Skip?
    ensures Told(step, x, failures, r, w, Call(step, r, w, catalogue))
  {
    match step
    case OnboardServicesStep => OnboardTold(x, failures, r, w, catalogue);
    case CheckOnboardStatus => DeploymentTold(x, failures, r, w, catalogue);
    case CreateSubscriptionStep => SubscriptionTold(x, failures, r, w, catalogue);
    case ContractCard => ContractTold(x, failures, r, w, catalogue);
    case SWOJob => JobTold(x, failures, r, w, catalogue);
    case TicketPLS => TicketTold(step, PlsTicket, x, failures, r, w, catalogue);
    case TicketOnboardServices => TicketTold(step, OnboardTicket, x, failures, r, w, catalogue);
  }

  /** Without the id that it is to check, a step ends the run. */
  lemma CheckedTransferTold(x: Start, failures: nat, r: Run, w: World, catalogue: Catalogue)
    requires Walking(CheckBillingTransferInvitation, x, failures, r, w) && IsAt(r.order.bag, CheckInvitation)
    ensures Told(CheckBillingTransferInvitation, x, failures, r, w, Call(CheckBillingTransferInvitation, r, w, catalogue))
  {
    if Get(r.order.bag, TransferId).Truthy() {
      TransferTold(x, failures, r, w, catalogue);
    } else {
      assert Call(CheckBillingTransferInvitation, r, w, catalogue) == (r, Halt);
    }
  }

  lemma CheckedApprovalTold(x: Start, failures: nat, r: Run, w: World, catalogue: Catalogue)
    requires Walking(CheckChannelHandshakeStatus, x, failures, r, w) && IsAt(r.order.bag, CheckHandshake)
    ensures Told(CheckChannelHandshakeStatus, x, failures, r, w, Call(CheckChannelHandshakeStatus, r, w, catalogue))
  {
    if Get(r.order.bag, HandshakeId).Truthy() {
      ApprovalTold(x, failures, r, w, catalogue);
    } else {
      assert Call(CheckChannelHandshakeStatus, r, w, catalogue) == (r, Halt);
    }
  }

  /** The run has passed every gate from its start to the stored phase, and ended at the gate there. */
  ghost predicate EndedAtGate(x: Start, failures: nat, w: World, c: (Run, Outcome)) {
    var v := Get(c.0.server.saved.bag, PhaseParam);
    && v.AtPhase? && PhaseRank(x.first) <= PhaseRank(v.phase) && PassedTo(x, w, PhaseRank(v.phase))
    && if c.0.Hist().failedSaves == failures
       then GateOf(v.phase, x, w) == Ends(c.0.server.status, c.1)
       else c.0.server.status == Processing && c.1 == Crashed
  }

  lemma ChainGoesOn(steps: seq<Step>, newAccount: bool)
    requires Chain(steps, newAccount) && |steps| > 1
    ensures Chain(steps[1..], newAccount) && Successor(steps[0], newAccount) == Some(steps[1])
    ensures steps[0] != CompleteOrder && steps[1] != SetupContext
  {
    assert Successor(steps[0], newAccount) == Some(steps[1]);
  }

  lemma {:induction false} StepsTold(steps: seq<Step>, x: Start, failures: nat, r: Run, w: World, catalogue: Catalogue)
    requires Chain(steps, r.server.newAccount) && steps[0] != SetupContext
    requires Walking(steps[0], x, failures, r, w)
    ensures EndedAtGate(x, failures, w, RunSteps(steps, r, w, catalogue))
    decreases |steps|
  {
    var c := Call(steps[0], r, w, catalogue);
    if |steps| == 1 {
      LastTold(x, failures, r, w, catalogue);
      assert RunSteps(steps[1..], c.0, w, catalogue) == (c.0, Continue);
      EndedThere(steps[0], x, failures, r, w, c);
    } else {
      ChainGoesOn(steps, r.server.newAccount);
      StepTold(steps[0], x, failures, r, w, catalogue);
      if c.1.Continue? {
        StepsTold(steps[1..], x, failures, c.0, w, catalogue);
      } else {
        EndedThere(steps[0], x, failures, r, w, c);
      }
    }
  }

  lemma EndedThere(step: Step, x: Start, failures: nat, r: Run, w: World, c: (Run, Outcome))
    requires Walking(step, x, failures, r, w) && EndedIn(x, failures, r, w, c)
    ensures EndedAtGate(x, failures, w, c)
  {
  }

  /** What the setup leaves in memory, once it proceeds. */
  lemma SetupWork(s: Server, w: World, catalogue: Catalogue)
    requires FlagsOnly(catalogue) && HasAll(s.saved.bag) && PhaseFits(s)
    ensures var (r1, sig) := Setup(Begin(s), w, catalogue);
      && r1.server.saved == s.saved && r1.server.status == s.status && SameKind(Begin(s), r1)
      && r1.Hist().subscriptions == s.hist.subscriptions && r1.server.mailed == s.mailed
      && (r1.Hist().failedSaves == s.hist.failedSaves || sig == Crash)
      && (w.pmAccount && r1.Hist().failedSaves == s.hist.failedSaves ==> EndOf(sig) == SetupGate(s, w))
      && sig in {Proceed, UnexpectedStop, Crash}
      && (sig.Proceed? ==>
            && r1.roles.None? && !r1.stillRunning
            && r1.order == Order(StartOf(s, catalogue).bag, Strip(s.saved.mpa)))
  {
    SaveTold(Begin(s), w.save(SetupContext, InStep));
  }

  lemma FirstPhaseKept(s: Server, catalogue: Catalogue)
    requires FlagsOnly(catalogue) && HasAll(s.saved.bag) && PhaseFits(s)
    ensures Get(StartOf(s, catalogue).bag, PhaseParam) == Get(s.saved.bag, PhaseParam)
    ensures HasAll(StartOf(s, catalogue).bag)
  {
    DefaultsTouchFlagsOnly(s.saved.bag, catalogue, PhaseParam);
  }

  /** How a run may leave its setup: on its way through the gates, or not at all. */
  ghost predicate SetUp(s: Server, w: World, x: Start, c: (Run, Outcome)) {
    if c.1.Continue? then
      && SetupGate(s, w) == Passes && Walking(ValidateOrder, x, s.hist.failedSaves, c.0, w)
      && c.0.server.newAccount == s.newAccount
    else
      && Get(c.0.server.saved.bag, PhaseParam) == Get(s.saved.bag, PhaseParam)
      && c.0.server.status == Processing
      && (if c.0.Hist().failedSaves == s.hist.failedSaves then SetupGate(s, w) == Ends(Processing, c.1)
          else c.1 == Crashed)
  }

  lemma SetupTold(s: Server, w: World, catalogue: Catalogue)
    requires FlagsOnly(catalogue)
    requires HasAll(s.saved.bag) && PhaseFits(s) && s.status == Processing
    ensures SetUp(s, w, StartOf(s, catalogue), Call(SetupContext, Begin(s), w, catalogue))
  {
    var (r1, sig) := Setup(Begin(s), w, catalogue);
    SetupWork(s, w, catalogue);
    if w.pmAccount {
      CallWorks(SetupContext, Begin(s), w, catalogue);
      if sig.Proceed? {
        SetupMoves(Begin(s), w, catalogue);
        SetupPosts(s, r1, w, catalogue);
      }
    }
  }

  lemma SetupPosts(s: Server, r1: Run, w: World, catalogue: Catalogue)
    requires FlagsOnly(catalogue) && HasAll(s.saved.bag) && PhaseFits(s) && s.status == Processing
    requires r1.server.saved == s.saved && r1.server.status == s.status && SameKind(Begin(s), r1)
    requires r1.Hist().subscriptions == s.hist.subscriptions && r1.server.mailed == s.mailed
    requires r1.Hist().failedSaves == s.hist.failedSaves && SetupGate(s, w) == Passes
    requires r1.roles.None? && !r1.stillRunning
    requires r1.order == Order(StartOf(s, catalogue).bag, Strip(s.saved.mpa))
    ensures SetUp(s, w, StartOf(s, catalogue), AfterWork(SetupContext, r1, Proceed, w))
  {
    var x := StartOf(s, catalogue);
    FirstPhaseKept(s, catalogue);
    var r2 := if Rank(s.saved.bag) > 0 then r1 else r1.At(x.first);
    if Rank(s.saved.bag) == 0 {
      SaveTold(r2, w.save(SetupContext, AfterStep));
    }
    assert KeptFrom(1, x, r2.order.bag);
    assert PostStep(SetupContext, r1, w) ==
      if Rank(s.saved.bag) > 0 then (r1, Proceed) else Save(r2, w.save(SetupContext, AfterStep));
  }

  /**
   * The fate of a run. If the setup passes, the run passes the gates of all phases from its first one to
   * the one that is stored in the end, and the gate of that one decides on status and outcome; only a
   * failed write breaks the run off elsewhere, and then in Processing.
   */
  lemma RunFollowsGates(s: Server, w: World, catalogue: Catalogue)
    requires FlagsOnly(catalogue)
    requires HasAll(s.saved.bag) && PhaseFits(s) && s.status == Processing
    ensures var c := RunPipeline(s, w, catalogue);
      if SetupGate(s, w).Passes? && Get(c.0.server.saved.bag, PhaseParam).AtPhase?
      then EndedAtGate(StartOf(s, catalogue), s.hist.failedSaves, w, c)
      else
        && Get(c.0.server.saved.bag, PhaseParam) == Get(s.saved.bag, PhaseParam)
        && c.0.server.status == Processing
        && (if c.0.Hist().failedSaves == s.hist.failedSaves then SetupGate(s, w) == Ends(Processing, c.1)
            else c.1 == Crashed)
  {
    var steps := Pipeline(s.newAccount);
    PipelineIsChain(s.newAccount);
    SetupTold(s, w, catalogue);
    var (r1, out) := Call(SetupContext, Begin(s), w, catalogue);
    if out.Continue? {
      assert Successor(steps[0], s.newAccount) == Some(steps[1]);
      StepsTold(steps[1..], StartOf(s, catalogue), s.hist.failedSaves, r1, w, catalogue);
    }
  }
}
