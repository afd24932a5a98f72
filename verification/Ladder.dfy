/** Create-once ladder: over every sequence of pipeline runs, querying passes and manual
    actions, what was created outside is accounted for by the identifiers on the order. */
module Ladder {
  import opened Orders
  import opened StepSpec

  ghost predicate HasAll(bag: Bag) {
    forall p: Param :: p in bag
  }

  /** Parameters holding the identifier of something that must be created only once. */
  predicate Tracked(p: Param) {
    match p
    case TransferId => true
    case BillingGroupArn => true
    case RelationshipId => true
    case HandshakeId => true
    case NewAccountTicket => true
    case OrderFailedTicket => true
    case PlsTicket => true
    case OnboardTicket => true
    case _ => false
  }

  function OnRecord(bag: Bag, p: Param): nat {
    if Get(bag, p).Truthy() then 1 else 0
  }

  /** The tracked parameters that hold a ticket; only a ticket can come back without an id. */
  predicate IsTicket(p: Param) {
    p == NewAccountTicket || p == OrderFailedTicket || p == PlsTicket || p == OnboardTicket
  }

  /** Creations for `p` are on the order's record or lost, and a loss needs a failed write or,
      for a ticket, an answer without an id to that very ticket. */
  predicate Even(bag: Bag, h: History, p: Param) {
    && Count(h.created, p) == OnRecord(bag, p) + Count(h.lost, p)
    && Count(h.anonymous, p) <= Count(h.lost, p) <= h.failedSaves + Count(h.anonymous, p)
    && (!IsTicket(p) ==> Count(h.anonymous, p) == 0)
  }

  ghost predicate Balanced(bag: Bag, h: History) {
    forall p :: Tracked(p) ==> Even(bag, h, p)
  }

  /** The rungs: what a stored phase says about the stored identifiers and the past. */
  predicate Rungs(bag: Bag, h: History) {
    var k := Rank(bag);
    && (Get(bag, PhaseParam) == Unset || Get(bag, PhaseParam).AtPhase?)
    && (k > PhaseRank(CreateInvitation) ==> Get(bag, TransferId).Truthy())
    && (k > PhaseRank(CheckInvitation) <==> Get(bag, BillingGroupArn).Truthy())
    && (k > PhaseRank(CheckInvitation) ==> h.acceptedSeen)
    && (k > PhaseRank(ConfigureApn) ==> Get(bag, RelationshipId).Truthy())
    && (k > PhaseRank(CreateHandshake) ==> Get(bag, HandshakeId).Truthy())
    && (k > PhaseRank(CreateSubscription) ==> h.subscriptions != [])
  }

  /** At most one subscription, for the stored account, and none before its phase. */
  predicate OneSubscription(s: Server) {
    s.hist.subscriptions == []
    || (s.hist.subscriptions == [Strip(s.saved.mpa)]
        && Rank(s.saved.bag) >= PhaseRank(CreateSubscription)
        && s.status != Querying)
  }

  /** One mail per order: the stored flag remembers it across restarts. */
  predicate OneMail(s: Server) {
    && s.hist.emails <= (if Get(s.saved.bag, ErrorNotified) == Yes then 1 else 0)
    && (s.mailed ==> Get(s.saved.bag, ErrorNotified) == Yes)
    && (Rank(s.saved.bag) == 0 ==> s.hist.emails == 0 && !s.mailed)
  }

  ghost predicate Sound(s: Server) {
    && HasAll(s.saved.bag)
    && Balanced(s.saved.bag, s.hist)
    && Rungs(s.saved.bag, s.hist)
    && OneSubscription(s)
    && OneMail(s)
    && (s.status == Done ==> IsAt(s.saved.bag, Completed))
  }

  /** Between two steps of a run the order in memory is the stored one, with the account id
      stripped. */
  ghost predicate Between(r: Run) {
    && Sound(r.server)
    && r.order.bag == r.server.saved.bag
    && r.order.mpa == Strip(r.server.saved.mpa)
    && Rank(r.order.bag) > 0
    && r.server.status == Processing
  }

  /** The product catalogue has defaults for flags only. */
  predicate FlagsOnly(catalogue: Catalogue) {
    forall i :: 0 <= i < |catalogue| ==>
      catalogue[i].0 == RolesDeployed || catalogue[i].0 == HandshakeApproved
      || (catalogue[i].0 == ErrorNotified && catalogue[i].1 == No)
  }

  lemma {:induction false} DefaultsTouchFlagsOnly(bag: Bag, catalogue: Catalogue, p: Param)
    requires FlagsOnly(catalogue)
    ensures p != RolesDeployed && p != HandshakeApproved && p != ErrorNotified ==>
      Get(ApplyDefaults(bag, catalogue), p) == Get(bag, p)
    ensures p == ErrorNotified ==>
      Get(ApplyDefaults(bag, catalogue), p) in {Get(bag, p), No}
    decreases |catalogue|
  {
    if catalogue != [] {
      DefaultsTouchFlagsOnly(Set(bag, catalogue[0].0, catalogue[0].1), catalogue[1..], p);
    }
  }

  lemma BalancedAfterSet(bag: Bag, p: Param, v: Value, h: History)
    requires Balanced(bag, h)
    requires Tracked(p) ==> v.Truthy() == Get(bag, p).Truthy()
    ensures Balanced(Set(bag, p, v), h)
  {
    forall q | Tracked(q)
      ensures Even(Set(bag, p, v), h, q)
    {
      assert Even(bag, h, q);
    }
  }

  lemma BalancedAfterMade(bag: Bag, p: Param, id: string, h: History)
    requires Balanced(bag, h) && p in bag && !Get(bag, p).Truthy() && id != ""
    ensures Balanced(Set(bag, p, Text(id)), h.(created := Bump(h.created, p)))
  {
    forall q | Tracked(q)
      ensures Even(Set(bag, p, Text(id)), h.(created := Bump(h.created, p)), q)
    {
      assert Even(bag, h, q);
    }
  }

  lemma BalancedAfterAnonymous(bag: Bag, p: Param, h: History)
    requires Balanced(bag, h) && IsTicket(p)
    ensures Balanced(bag, h.(created := Bump(h.created, p), lost := Bump(h.lost, p),
                             anonymous := Bump(h.anonymous, p)))
  {
    var h' := h.(created := Bump(h.created, p), lost := Bump(h.lost, p),
                 anonymous := Bump(h.anonymous, p));
    forall q | Tracked(q)
      ensures Even(bag, h', q)
    {
      assert Even(bag, h, q);
    }
  }

  /** Soundness of the stored order, apart from the balance, which a failing write restores. */
  ghost predicate Core(s: Server) {
    && HasAll(s.saved.bag)
    && Rungs(s.saved.bag, s.hist)
    && OneSubscription(s)
    && OneMail(s)
    && s.status == Processing
  }

  ghost predicate KeepsIds(old_: Bag, new_: Bag) {
    forall p :: Tracked(p) ==> OnRecord(old_, p) <= OnRecord(new_, p)
  }

  /** A run that may write now: storing memory, or failing to, leaves a sound order. */
  ghost predicate Writable(r: Run) {
    && Core(r.server)
    && Sound(r.server.(saved := r.order))
    && KeepsIds(r.server.saved.bag, r.order.bag)
    && r.order.mpa == Strip(r.order.mpa)
    && Rank(r.order.bag) > 0
  }

  lemma SaveKeeps(r: Run, ok: bool)
    requires Writable(r)
    ensures Sound(Save(r, ok).0.server)
    ensures ok ==> Between(Save(r, ok).0)
  {
    if !ok {
      var r' := Save(r, ok).0;
      forall p | Tracked(p)
        ensures Even(r'.server.saved.bag, r'.Hist(), p)
      {
        assert p in r.order.bag;
        assert Even(r.order.bag, r.Hist(), p);
        assert OnRecord(r.server.saved.bag, p) <= OnRecord(r.order.bag, p);
      }
    }
  }

  lemma SwitchKeeps(r: Run, status: Status, ok: bool)
    requires Writable(r)
    requires Sound(r.server.(saved := r.order, status := status))
    ensures Sound(SwitchStatus(r, status, ok).0.server)
  {
    SaveKeeps(r, ok);
  }

  /** A step kept the ladder. Only the last step may leave a run that is over. */
  ghost predicate Kept(step: Step, c: (Run, Outcome)) {
    Sound(c.0.server) && (c.1.Continue? && step != CompleteOrder ==> Between(c.0))
  }

  lemma BetweenIsWritable(r: Run)
    requires Between(r)
    ensures Writable(r)
  {
  }

  /** Changing a parameter in memory, as long as the rungs and the mail flag survive it. */
  lemma SetIsWritable(r: Run, p: Param, v: Value)
    requires Writable(r)
    requires Tracked(p) ==> v.Truthy() == Get(r.order.bag, p).Truthy()
    requires Rungs(Set(r.order.bag, p, v), r.Hist())
    requires Rank(r.order.bag) <= Rank(Set(r.order.bag, p, v)) && Rank(Set(r.order.bag, p, v)) > 0
    requires p == ErrorNotified ==> v == Yes
    ensures Writable(r.With(p, v))
  {
    BalancedAfterSet(r.order.bag, p, v, r.Hist());
  }

  lemma MadeIsWritable(r: Run, p: Param, id: string)
    requires Writable(r)
    requires Tracked(p) && !Get(r.order.bag, p).Truthy() && id != "" && p != BillingGroupArn
    ensures Writable(r.Made(p).With(p, Text(id)))
  {
    BalancedAfterMade(r.order.bag, p, id, r.Hist());
  }

  /** What the work of a step must leave so that the rest of its call keeps the ladder. */
  ghost predicate Worked(step: Step, r: Run, sig: Signal) {
    match sig
    case Proceed =>
      if step == CompleteOrder then Sound(r.server)
      else if step == ValidateOrder || (step == CheckOnboardStatus && r.stillRunning) then Between(r)
      else Writable(if NextPhase(step).Some? then r.At(NextPhase(step).value) else r)
    case QueryOrder => Writable(r) && Sound(r.server.(saved := r.order, status := Querying))
    case FailOrder => Writable(r) && Sound(r.server.(saved := r.order, status := Failed))
    case _ => Sound(r.server)
  }

  lemma AfterKeeps(step: Step, r: Run, sig: Signal, w: World)
    requires step != SetupContext && Worked(step, r, sig)
    ensures Kept(step, AfterWork(step, r, sig, w))
  {
    match sig
    case QueryOrder => SwitchKeeps(r, Querying, w.save(step, Switch));
    case FailOrder => SwitchKeeps(r, Failed, w.save(step, Switch));
    case Proceed => PostKeeps(step, r, w);
    case _ =>
  }

  lemma PostKeeps(step: Step, r: Run, w: World)
    requires step != SetupContext
    requires Worked(step, r, Proceed)
    ensures var (r', sig) := PostStep(step, r, w); Kept(step, (r', Leave(sig, Continue)))
  {
    var r1 := if NextPhase(step).Some? then r.At(NextPhase(step).value) else r;
    if !(step == ValidateOrder || step == CompleteOrder || (step == CheckOnboardStatus && r.stillRunning)) {
      SaveKeeps(r1, w.save(step, AfterStep));
    }
  }

  lemma TicketWorked(step: Step, p: Param, r: Run, answer: Answer<string>)
    requires Between(r)
    requires NextPhase(step).None? && step != ValidateOrder && step != CompleteOrder && step != CheckOnboardStatus
    requires IsTicket(p) && !Get(r.order.bag, p).Truthy()
    ensures var (r1, sig) := OpenTicket(r, p, answer); Worked(step, r1, sig)
  {
    BetweenIsWritable(r);
    if answer.Good? {
      if answer.value != "" {
        MadeIsWritable(r, p, answer.value);
      } else {
        BalancedAfterAnonymous(r.order.bag, p, r.Hist());
      }
    }
  }

  lemma SwitchIsWorked(step: Step, r: Run)
    requires Between(r)
    ensures Worked(step, r, FailOrder)
    ensures Rank(r.order.bag) < PhaseRank(CreateSubscription) ==> Worked(step, r, QueryOrder)
  {
    BetweenIsWritable(r);
  }

  lemma AdvanceWorked(step: Step, r: Run)
    requires Writable(r) && NextPhase(step).Some? && step != CheckOnboardStatus
    requires Rungs(Set(r.order.bag, PhaseParam, AtPhase(NextPhase(step).value)), r.Hist())
    requires Rank(r.order.bag) <= PhaseRank(NextPhase(step).value)
    ensures Worked(step, r, Proceed)
  {
    SetIsWritable(r, PhaseParam, AtPhase(NextPhase(step).value));
  }

  /** The steps that create one thing, record its id and move on. */
  predicate Creates(step: Step, p: Param) {
    match step
    case CreateBillingTransferInvitation => p == TransferId
    case ConfigureAPNProgram => p == RelationshipId
    case CreateChannelHandshake => p == HandshakeId
    case _ => false
  }

  lemma RungsAfterMade(step: Step, p: Param, r: Run, id: Ident)
    requires HasAll(r.order.bag) && Rungs(r.order.bag, r.Hist())
    requires Creates(step, p) && HomePhase(step).Some? && IsAt(r.order.bag, HomePhase(step).value)
    ensures var r1 := r.Made(p).With(p, Text(id));
      && Rungs(Set(r1.order.bag, PhaseParam, AtPhase(NextPhase(step).value)), r1.Hist())
      && Rank(r1.order.bag) <= PhaseRank(NextPhase(step).value)
  {
    match step
    case CreateBillingTransferInvitation =>
    case ConfigureAPNProgram =>
    case CreateChannelHandshake =>
  }

  lemma MadeWorked(step: Step, p: Param, r: Run, id: Ident)
    requires Between(r) && Creates(step, p) && HomePhase(step).Some? && IsAt(r.order.bag, HomePhase(step).value)
    requires !Get(r.order.bag, p).Truthy()
    ensures Worked(step, r.Made(p).With(p, Text(id)), Proceed)
  {
    BetweenIsWritable(r);
    MadeIsWritable(r, p, id);
    RungsAfterMade(step, p, r, id);
    AdvanceWorked(step, r.Made(p).With(p, Text(id)));
  }

  lemma InviteWorked(r: Run, w: World)
    requires Between(r)
    requires IsAt(r.order.bag, CreateInvitation) && !Get(r.order.bag, TransferId).Truthy()
    ensures var (r1, sig) := Invite(r, w); Worked(CreateBillingTransferInvitation, r1, sig)
  {
    SwitchIsWorked(CreateBillingTransferInvitation, r);
    if w.invitation.Good? {
      MadeWorked(CreateBillingTransferInvitation, TransferId, r, w.invitation.value);
    }
  }

  lemma TransferWorked(r: Run, w: World)
    requires Between(r) && IsAt(r.order.bag, CheckInvitation)
    ensures var (r1, sig) := CheckTransfer(r, w); Worked(CheckBillingTransferInvitation, r1, sig)
  {
    if w.transfer == Good(Accepted) {
      AcceptedWorked(r, w);
    } else {
      SwitchIsWorked(CheckBillingTransferInvitation, r);
    }
  }

  lemma AcceptedWorked(r: Run, w: World)
    requires Between(r) && IsAt(r.order.bag, CheckInvitation) && w.transfer == Good(Accepted)
    ensures var (r1, sig) := CheckTransfer(r, w); Worked(CheckBillingTransferInvitation, r1, sig)
  {
    AcceptedKeeps(r);
    if w.billingGroup.Good? {
      GroupWritable(r.WithHist(r.Hist().(acceptedSeen := true)), w.billingGroup.value);
    }
  }

  lemma AcceptedKeeps(r: Run)
    requires Between(r)
    ensures Between(r.WithHist(r.Hist().(acceptedSeen := true)))
  {
    BalancedAfterSame(r.order.bag, r.Hist(), r.Hist().(acceptedSeen := true));
  }

  /** The billing group and the phase that vouches for it are written together. */
  lemma GroupWritable(r: Run, arn: Ident)
    requires Between(r) && r.Hist().acceptedSeen
    requires IsAt(r.order.bag, CheckInvitation)
    ensures Writable(r.Made(BillingGroupArn).With(BillingGroupArn, Text(arn)).At(ConfigureApn))
  {
    BetweenIsWritable(r);
    var r1 := r.Made(BillingGroupArn).With(BillingGroupArn, Text(arn));
    BalancedAfterMade(r.order.bag, BillingGroupArn, arn, r.Hist());
    BalancedAfterSet(r1.order.bag, PhaseParam, AtPhase(ConfigureApn), r1.Hist());
  }

  lemma BalancedAfterSame(bag: Bag, h: History, h': History)
    requires Balanced(bag, h)
    requires h'.created == h.created && h'.lost == h.lost
    requires h'.failedSaves == h.failedSaves && h'.anonymous == h.anonymous
    ensures Balanced(bag, h')
  {
    forall p | Tracked(p)
      ensures Even(bag, h', p)
    {
      assert Even(bag, h, p);
    }
  }

  lemma QueryWorked(step: Step, r: Run)
    requires Writable(r) && Rank(r.order.bag) < PhaseRank(CreateSubscription)
    ensures Worked(step, r, QueryOrder)
  {
  }

  /** Plain flags are not part of the ladder. */
  lemma FlagIsWritable(r: Run, p: Param, v: Value)
    requires Writable(r) && !Tracked(p) && p != PhaseParam && p != ErrorNotified
    ensures Writable(r.With(p, v))
    ensures Get(r.With(p, v).order.bag, PhaseParam) == Get(r.order.bag, PhaseParam)
    ensures r.With(p, v).server == r.server
  {
    SetIsWritable(r, p, v);
  }

  /** A flag is set in memory and the step then moves on. */
  lemma FlagThenAdvance(step: Step, r: Run, p: Param, v: Value)
    requires Writable(r) && HomePhase(step).Some? && IsAt(r.order.bag, HomePhase(step).value)
    requires step == CheckChannelHandshakeStatus || step == CheckCustomerRoles || step == SWOJob
    requires p == HandshakeApproved || p == RolesDeployed || p == ErpProjectNo
    ensures Worked(step, r.With(p, v), Proceed)
  {
    AdvanceIsWritable(step, r);
    FlagIsWritable(r.At(NextPhase(step).value), p, v);
    FlagBesidePhase(r, p, v, NextPhase(step).value);
  }

  lemma FlagBesidePhase(r: Run, p: Param, v: Value, phase: Phase)
    requires p != PhaseParam
    ensures r.With(p, v).At(phase) == r.At(phase).With(p, v)
  {
  }

  lemma AdvanceIsWritable(step: Step, r: Run)
    requires Writable(r) && HomePhase(step).Some? && IsAt(r.order.bag, HomePhase(step).value)
    requires step == CheckChannelHandshakeStatus || step == CheckCustomerRoles || step == SWOJob
    ensures Writable(r.At(NextPhase(step).value))
  {
    SetIsWritable(r, PhaseParam, AtPhase(NextPhase(step).value));
  }

  /** A flag is set in memory and the order is then switched to Querying. */
  lemma FlagThenQuery(step: Step, r: Run, p: Param, v: Value)
    requires Writable(r) && HomePhase(step).Some? && IsAt(r.order.bag, HomePhase(step).value)
    requires step == CheckChannelHandshakeStatus || step == CheckCustomerRoles
    requires p == HandshakeApproved || p == RolesDeployed
    ensures Worked(step, r.With(p, v), QueryOrder)
  {
    FlagIsWritable(r, p, v);
    QueryWorked(step, r.With(p, v));
  }

  lemma HandshakeWorked(r: Run, w: World)
    requires Between(r) && IsAt(r.order.bag, CheckHandshake)
    ensures var (r1, sig) := CheckShake(r, w); Worked(CheckChannelHandshakeStatus, r1, sig)
  {
    var step, r1 := CheckChannelHandshakeStatus, r.With(HandshakeApproved, No);
    BetweenIsWritable(r);
    match w.handshakeStatus
    case Good(Some(Approved)) =>
      FlagIsWritable(r, HandshakeApproved, No);
      FlagThenAdvance(step, r1, HandshakeApproved, Yes);
    case Good(Some(Pending)) => FlagThenQuery(step, r, HandshakeApproved, No);
    case Good(Some(OtherStatus)) => FlagThenAdvance(step, r, HandshakeApproved, No);
    case _ =>
  }

  lemma RolesWorked(r: Run, w: World)
    requires Between(r) && IsAt(r.order.bag, CheckRoles)
    ensures var (r1, sig) := CheckDeployedRoles(r, w); Worked(CheckCustomerRoles, r1, sig)
  {
    if r.roles.Some? || w.roles.Good? {
      RolesDecided(r.(roles := Some(if r.roles.Some? then r.roles.value else w.roles.value)));
    }
  }

  lemma RolesDecided(r: Run)
    requires Between(r) && IsAt(r.order.bag, CheckRoles)
    ensures Worked(CheckCustomerRoles, r.With(RolesDeployed, Yes), Proceed)
    ensures Worked(CheckCustomerRoles, r.With(RolesDeployed, No), QueryOrder)
  {
    BetweenIsWritable(r);
    FlagThenAdvance(CheckCustomerRoles, r, RolesDeployed, Yes);
    FlagThenQuery(CheckCustomerRoles, r, RolesDeployed, No);
  }

  /** Handled errors: the run stops, dies, or goes on exactly where it was. */
  ghost predicate Handled(r: Run, r': Run, sig: Signal) {
    && (sig == Crash || sig == UnexpectedStop ==> Sound(r'.server))
    && (sig == Proceed ==> Between(r') && r'.stillRunning == r.stillRunning
                           && Get(r'.order.bag, PhaseParam) == Get(r.order.bag, PhaseParam))
    && (sig == Crash || sig == UnexpectedStop || sig == Proceed)
  }

  lemma HandleErrorKeeps(r: Run, step: Step, w: World)
    requires Between(r)
    ensures var (r', sig) := HandleError(r, step, w); Handled(r, r', sig)
  {
    if Get(r.order.bag, ErrorNotified) != Yes && !r.server.mailed {
      NotedKeeps(r, w.save(step, InHandler));
      var (r1, sig) := Save(r.With(ErrorNotified, Yes), w.save(step, InHandler));
      if sig.Proceed? {
        MailKeeps(r1);
      }
    }
  }

  /** The flag is stored before the mail is sent, or the run dies without either. */
  lemma NotedKeeps(r: Run, ok: bool)
    requires Between(r) && Get(r.order.bag, ErrorNotified) != Yes
    ensures var (r1, sig) := Save(r.With(ErrorNotified, Yes), ok);
      && Sound(r1.server) && sig == (if ok then Proceed else Crash)
      && (ok ==>
            && Between(r1) && r1.Hist().emails == 0 && Get(r1.order.bag, ErrorNotified) == Yes
            && r1.stillRunning == r.stillRunning && Get(r1.order.bag, PhaseParam) == Get(r.order.bag, PhaseParam))
  {
    BetweenIsWritable(r);
    SetIsWritable(r, ErrorNotified, Yes);
    SaveKeeps(r.With(ErrorNotified, Yes), ok);
  }

  lemma MailKeeps(r: Run)
    requires Between(r) && r.Hist().emails == 0 && Get(r.order.bag, ErrorNotified) == Yes
    ensures var r2 := r.(server := r.server.(mailed := true));
      Between(r2) && Between(r2.WithHist(r2.Hist().(emails := r2.Hist().emails + 1)))
  {
    BalancedAfterSame(r.order.bag, r.Hist(), r.Hist().(emails := r.Hist().emails + 1));
  }

  lemma OnboardWorked(r: Run, w: World)
    requires Between(r) && IsAt(r.order.bag, OnboardServices)
    ensures var (r1, sig) := Onboard(r, w); Worked(OnboardServicesStep, r1, sig)
  {
    var (r1, sig) := Onboard(r, w);
    OnboardHandled(r, w);
    OnboardKeepsPhase(r, r1, sig);
  }

  lemma OnboardKeepsPhase(r: Run, r1: Run, sig: Signal)
    requires IsAt(r.order.bag, OnboardServices) && Handled(r, r1, sig)
    ensures Worked(OnboardServicesStep, r1, sig)
  {
    if sig.Proceed? {
      BetweenIsWritable(r1);
      AdvanceWorked(OnboardServicesStep, r1);
    }
  }

  lemma OnboardHandled(r: Run, w: World)
    requires Between(r)
    ensures var (r1, sig) := Onboard(r, w); Handled(r, r1, sig)
  {
    if w.onboard.Good? && w.onboard.value != "" {
      StoreArn(r, w.onboard.value, w.save(OnboardServicesStep, InStep));
    } else if !w.onboard.Raises? {
      HandleErrorKeeps(r, OnboardServicesStep, w);
    }
  }

  lemma StoreArn(r: Run, arn: string, ok: bool)
    requires Between(r)
    ensures var (r', sig) := Save(r.With(ExecutionArn, Text(arn)), ok); Handled(r, r', sig)
  {
    BetweenIsWritable(r);
    SetIsWritable(r, ExecutionArn, Text(arn));
    SaveKeeps(r.With(ExecutionArn, Text(arn)), ok);
  }

  lemma DeploymentWorked(r: Run, w: World)
    requires Between(r) && IsAt(r.order.bag, CheckOnboard)
    ensures var (r1, sig) := CheckDeployment(r, w); Worked(CheckOnboardStatus, r1, sig)
  {
    var r0 := r.(stillRunning := false);
    var (r1, sig) := CheckDeployment(r, w);
    if Get(r.order.bag, ExecutionArn).Truthy() && w.deployment == Good(Succeeded) {
      BalancedAfterSame(r.order.bag, r.Hist(), r.Hist().(succeededSeen := true));
      DeploymentPassed(r1);
    } else if Get(r.order.bag, ExecutionArn).Truthy() && (w.deployment.Good? || w.deployment.Raises?)
      && w.deployment != Good(FailedDeployment) {
    } else {
      HandleErrorKeeps(r0, CheckOnboardStatus, w);
      if sig.Proceed? {
        DeploymentPassed(r1);
      }
    }
  }

  lemma DeploymentPassed(r: Run)
    requires Between(r) && IsAt(r.order.bag, CheckOnboard)
    requires !r.stillRunning
    ensures Worked(CheckOnboardStatus, r, Proceed)
  {
    BetweenIsWritable(r);
    SetIsWritable(r, PhaseParam, AtPhase(CreateSubscription));
  }

  lemma SubscribeWorked(r: Run, w: World)
    requires Between(r) && IsAt(r.order.bag, CreateSubscription)
    ensures var (r1, sig) := Subscribe(r, w); Worked(CreateSubscriptionStep, r1, sig)
  {
    var (r1, sig) := Subscribe(r, w);
    if sig.Proceed? {
      BalancedAfterSame(r.order.bag, r.Hist(), r1.Hist());
      assert r1.Hist().subscriptions == [r.order.mpa];
      BetweenIsWritable(r1);
      AdvanceWorked(CreateSubscriptionStep, r1);
    }
  }

  lemma FinishWorked(r: Run, w: World)
    requires Between(r) && IsAt(r.order.bag, Completed)
    ensures var (r1, sig) := Finish(r, w); Worked(CompleteOrder, r1, sig)
  {
    BetweenIsWritable(r);
    SaveKeeps(r, w.save(CompleteOrder, Switch));
  }

  lemma SkipKeeps(step: Step, r: Run, w: World, catalogue: Catalogue)
    requires step != SetupContext && Between(r) && !PreStep(step, r, w).1.Proceed?
    ensures Kept(step, Call(step, r, w, catalogue))
  {
    if PreStep(step, r, w).1.AlreadyProcessed? {
      match step
      case CreateBillingTransferInvitation => DoneKeeps(step, TransferId, r, w);
      case ConfigureAPNProgram => DoneKeeps(step, RelationshipId, r, w);
      case CreateChannelHandshake => DoneKeeps(step, HandshakeId, r, w);
      case SWOJob => DoneKeeps(step, ErpProjectNo, r, w);
    }
  }

  /** A step whose id is there already only moves on. */
  lemma DoneKeeps(step: Step, p: Param, r: Run, w: World)
    requires Between(r) && (Creates(step, p) || (step == SWOJob && p == ErpProjectNo))
    requires HomePhase(step).Some? && IsAt(r.order.bag, HomePhase(step).value) && Get(r.order.bag, p).Truthy()
    ensures var (r1, sig) := Save(r.At(NextPhase(step).value), w.save(step, OnSkip));
      Kept(step, (r1, Leave(sig, Continue)))
  {
    BetweenIsWritable(r);
    RungsWhenDone(step, p, r);
    SetIsWritable(r, PhaseParam, AtPhase(NextPhase(step).value));
    SaveKeeps(r.At(NextPhase(step).value), w.save(step, OnSkip));
  }

  lemma RungsWhenDone(step: Step, p: Param, r: Run)
    requires HasAll(r.order.bag) && Rungs(r.order.bag, r.Hist())
    requires Creates(step, p) || (step == SWOJob && p == ErpProjectNo)
    requires HomePhase(step).Some? && IsAt(r.order.bag, HomePhase(step).value) && Get(r.order.bag, p).Truthy()
    ensures var bag := Set(r.order.bag, PhaseParam, AtPhase(NextPhase(step).value));
      Rungs(bag, r.Hist()) && Rank(r.order.bag) <= Rank(bag)
  {
    match step
    case CreateBillingTransferInvitation =>
    case ConfigureAPNProgram =>
    case CreateChannelHandshake =>
    case SWOJob =>
  }

  lemma StepKeeps(step: Step, r: Run, w: World, catalogue: Catalogue)
    requires step != SetupContext && Between(r)
    ensures Kept(step, Call(step, r, w, catalogue))
  {
    if !PreStep(step, r, w).1.Proceed? {
      SkipKeeps(step, r, w, catalogue);
    } else {
      StepWorked(step, r, w, catalogue);
      var (r1, sig) := Process(step, r, w, catalogue);
      AfterKeeps(step, r1, sig, w);
    }
  }

  lemma StepWorked(step: Step, r: Run, w: World, catalogue: Catalogue)
    requires step != SetupContext && Between(r) && PreStep(step, r, w).1.Proceed?
    ensures var (r1, sig) := Process(step, r, w, catalogue); Worked(step, r1, sig)
    ensures PreStep(step, r, w) == (r, Proceed)
  {
    match step
    case TicketNewAccount => TicketWorked(step, NewAccountTicket, r, w.ticket(step));
    case TicketOrderFail => TicketWorked(step, OrderFailedTicket, r, w.ticket(step));
    case TicketPLS => TicketWorked(step, PlsTicket, r, w.ticket(step));
    case TicketOnboardServices => TicketWorked(step, OnboardTicket, r, w.ticket(step));
    case _ => PhaseStepWorked(step, r, w, catalogue);
  }

  lemma PhaseStepWorked(step: Step, r: Run, w: World, catalogue: Catalogue)
    requires step != SetupContext && Between(r) && PreStep(step, r, w).1.Proceed?
    requires step != TicketNewAccount && step != TicketOrderFail
    requires step != TicketPLS && step != TicketOnboardServices
    ensures var (r1, sig) := Process(step, r, w, catalogue); Worked(step, r1, sig)
    ensures PreStep(step, r, w) == (r, Proceed)
  {
    match step
    case ValidateOrder => SwitchIsWorked(step, r);
    case CreateNewAWSEnvironment => NewEnvironmentWorked(r);
    case CreateBillingTransferInvitation => InviteWorked(r, w);
    case CheckBillingTransferInvitation => TransferWorked(r, w);
    case ConfigureAPNProgram => RelateWorked(r, w);
    case CreateChannelHandshake => ShakeWorked(r, w);
    case CheckChannelHandshakeStatus => HandshakeWorked(r, w);
    case CheckCustomerRoles => RolesWorked(r, w);
    case OnboardServicesStep => OnboardWorked(r, w);
    case CheckOnboardStatus => DeploymentWorked(r, w);
    case CreateSubscriptionStep => SubscribeWorked(r, w);
    case ContractCard => ContractWorked(r, w);
    case SWOJob => JobWorked(r, w);
    case CompleteOrder => FinishWorked(r, w);
  }

  lemma RelateWorked(r: Run, w: World)
    requires Between(r) && IsAt(r.order.bag, ConfigureApn) && !Get(r.order.bag, RelationshipId).Truthy()
    ensures var (r1, sig) := Relate(r, w); Worked(ConfigureAPNProgram, r1, sig)
  {
    if w.relationship.Good? {
      MadeWorked(ConfigureAPNProgram, RelationshipId, r, w.relationship.value);
    }
  }

  lemma ShakeWorked(r: Run, w: World)
    requires Between(r) && IsAt(r.order.bag, CreateHandshake) && !Get(r.order.bag, HandshakeId).Truthy()
    ensures var (r1, sig) := Shake(r, w); Worked(CreateChannelHandshake, r1, sig)
  {
    if w.handshake.Good? {
      MadeWorked(CreateChannelHandshake, HandshakeId, r, w.handshake.value);
    }
  }

  lemma NewEnvironmentWorked(r: Run)
    requires Between(r) && IsAt(r.order.bag, CreateAccount)
    ensures Worked(CreateNewAWSEnvironment, r, Proceed) && Worked(CreateNewAWSEnvironment, r, QueryOrder)
  {
    BetweenIsWritable(r);
    QueryWorked(CreateNewAWSEnvironment, r);
    AdvanceWorked(CreateNewAWSEnvironment, r);
  }

  lemma ContractWorked(r: Run, w: World)
    requires Between(r) && IsAt(r.order.bag, ProjectCreation)
    ensures var (r1, sig) := FindContract(r, w); Worked(ContractCard, r1, sig)
  {
    BetweenIsWritable(r);
    match w.contract
    case Good(Some(number)) => FlagIsWritable(r, ContractNumber, Text(number));
    case _ =>
  }

  lemma JobWorked(r: Run, w: World)
    requires Between(r) && IsAt(r.order.bag, ProjectCreation)
    ensures var (r1, sig) := CreateJob(r, w); Worked(SWOJob, r1, sig)
  {
    BetweenIsWritable(r);
    if Get(r.order.bag, ContractNumber).Truthy() && w.job.Good? {
      FlagThenAdvance(SWOJob, r, ErpProjectNo, Text(w.job.value));
    } else {
      AdvanceWorked(SWOJob, r);
    }
  }

  lemma SetupKeeps(r: Run, w: World, catalogue: Catalogue)
    requires FlagsOnly(catalogue)
    requires Sound(r.server) && r.order == r.server.saved && r.server.status == Processing
    ensures Kept(SetupContext, Call(SetupContext, r, w, catalogue))
  {
    SetupResult(r, w, catalogue);
    var (r1, sig) := Setup(r, w, catalogue);
    if PreStep(SetupContext, r, w).1.Proceed? && sig.Proceed? {
      SetupEnds(r, r1, w, catalogue);
    }
  }

  lemma SetupResult(r: Run, w: World, catalogue: Catalogue)
    requires Sound(r.server) && r.order == r.server.saved && r.server.status == Processing
    ensures var (r1, sig) := Setup(r, w, catalogue);
      && Sound(r1.server) && (sig == Proceed || sig == Crash || sig == UnexpectedStop)
      && (sig == Proceed ==>
            r1 == r.(order := Order(if Rank(r.order.bag) > 0 then r.order.bag
                                    else ApplyDefaults(r.order.bag, catalogue), Strip(r.order.mpa))))
  {
    if w.newTemplate {
      PlainSaveKeeps(r, w.save(SetupContext, InStep));
    }
  }

  lemma SetupEnds(r: Run, r1: Run, w: World, catalogue: Catalogue)
    requires FlagsOnly(catalogue)
    requires Sound(r.server) && r.order == r.server.saved && r.server.status == Processing
    requires r1 == r.(order := Order(if Rank(r.order.bag) > 0 then r.order.bag
                                     else ApplyDefaults(r.order.bag, catalogue), Strip(r.order.mpa)))
    ensures var (r2, sig) := PostStep(SetupContext, r1, w);
      Kept(SetupContext, (r2, Leave(sig, Continue)))
  {
    if Rank(r.order.bag) == 0 {
      DefaultsTouchFlagsOnly(r.order.bag, catalogue, PhaseParam);
      var p := if r.server.newAccount then CreateAccount else CreateInvitation;
      FirstPhaseWritable(r, catalogue, p);
      SaveKeeps(r1.At(p), w.save(SetupContext, AfterStep));
    }
  }

  lemma PlainSaveKeeps(r: Run, ok: bool)
    requires Sound(r.server) && r.order == r.server.saved && r.server.status == Processing
    ensures Sound(Save(r, ok).0.server) && (ok ==> Save(r, ok).0 == r)
  {
    if !ok {
      var r' := Save(r, ok).0;
      forall p | Tracked(p)
        ensures Even(r'.server.saved.bag, r'.Hist(), p)
      {
        assert p in r.order.bag;
        assert Even(r.order.bag, r.Hist(), p);
      }
    }
  }

  /** The first phase is stored together with the catalogue's defaults. */
  lemma FirstPhaseWritable(r: Run, catalogue: Catalogue, p: Phase)
    requires FlagsOnly(catalogue) && Sound(r.server) && r.server.status == Processing
    requires r.order == r.server.saved && Rank(r.order.bag) == 0
    requires p == CreateAccount || p == CreateInvitation
    ensures Writable(r.(order := Order(ApplyDefaults(r.order.bag, catalogue), Strip(r.order.mpa))).At(p))
  {
    var bag := ApplyDefaults(r.order.bag, catalogue);
    forall q {
      DefaultsTouchFlagsOnly(r.order.bag, catalogue, q);
    }
    BalancedAfterDefaults(r.order.bag, bag, r.Hist());
    BalancedAfterSet(bag, PhaseParam, AtPhase(p), r.Hist());
  }

  lemma BalancedAfterDefaults(bag: Bag, bag': Bag, h: History)
    requires Balanced(bag, h)
    requires forall q :: Tracked(q) ==> Get(bag', q) == Get(bag, q)
    ensures Balanced(bag', h)
  {
    forall q | Tracked(q)
      ensures Even(bag', h, q)
    {
      assert Even(bag, h, q);
    }
  }

  /** Setup comes first and completion last. */
  predicate WellOrdered(steps: seq<Step>) {
    forall i :: 0 <= i < |steps| ==>
      steps[i] != SetupContext && (steps[i] == CompleteOrder ==> i == |steps| - 1)
  }

  lemma {:induction false} RunKeeps(steps: seq<Step>, r: Run, w: World, catalogue: Catalogue)
    requires WellOrdered(steps)
    requires Between(r)
    ensures Sound(RunSteps(steps, r, w, catalogue).0.server)
  {
    if steps != [] {
      StepKeeps(steps[0], r, w, catalogue);
      var (r1, out) := Call(steps[0], r, w, catalogue);
      if out.Continue? && steps[0] != CompleteOrder {
        RunKeeps(steps[1..], r1, w, catalogue);
      }
    }
  }

  lemma PipelineKeeps(s: Server, w: World, catalogue: Catalogue)
    requires FlagsOnly(catalogue)
    requires Sound(s) && s.status == Processing
    ensures Sound(RunPipeline(s, w, catalogue).0.server)
  {
    var steps := Pipeline(s.newAccount);
    SetupKeeps(Begin(s), w, catalogue);
    var (r1, out) := Call(SetupContext, Begin(s), w, catalogue);
    if out.Continue? {
      RunKeeps(steps[1..], r1, w, catalogue);
    }
  }

  lemma JumpKeeps(s: Server, p: Phase, q: QueryWorld)
    requires Sound(s) && s.status == Querying
    requires (p == CheckRoles && IsAt(s.saved.bag, CheckHandshake))
      || (p == CreateSubscription && IsAt(s.saved.bag, CheckRoles))
    ensures Sound(JumpTo(s, p, q))
  {
    BalancedAfterSet(s.saved.bag, PhaseParam, AtPhase(p), s.hist);
  }

  lemma RemindKeeps(s: Server, q: QueryWorld)
    requires Sound(s) && s.status == Querying && IsAt(s.saved.bag, CheckRoles)
    ensures RemindRoles(s, q).Some? ==>
      var s1 := RemindRoles(s, q).value;
      Sound(s1) && s1.status == Querying && IsAt(s1.saved.bag, CheckRoles)
  {
    if q.newTicket.Good? {
      BalancedAfterSet(s.saved.bag, RolesTicket, Text(q.newTicket.value), s.hist);
    }
  }

  lemma PassHandshakeKeeps(s: Server, q: QueryWorld)
    requires Sound(s) && s.status == Querying && IsAt(s.saved.bag, CheckHandshake)
    ensures Sound(PassHandshake(s, q))
  {
    JumpKeeps(s, CheckRoles, q);
  }

  lemma PassRolesKeeps(s: Server, q: QueryWorld)
    requires Sound(s) && s.status == Querying && IsAt(s.saved.bag, CheckRoles)
    ensures Sound(PassRoles(s, q))
  {
    RemindKeeps(s, q);
    if RemindRoles(s, q).Some? {
      JumpKeeps(RemindRoles(s, q).value, CreateSubscription, q);
    }
  }

  lemma PassKeeps(s: Server, q: QueryWorld)
    requires Sound(s)
    ensures Sound(QueryPass(s, q))
  {
    if s.status == Querying {
      if IsAt(s.saved.bag, CheckHandshake) {
        PassHandshakeKeeps(s, q);
      } else if IsAt(s.saved.bag, CheckRoles) {
        PassRolesKeeps(s, q);
      }
    }
  }

  lemma ApplyKeeps(s: Server, e: Event, catalogue: Catalogue)
    requires FlagsOnly(catalogue)
    requires Sound(s)
    ensures Sound(Apply(s, e, catalogue))
  {
    match e
    case PipelineRun(w) =>
      if s.status == Processing {
        PipelineKeeps(s, w, catalogue);
      }
    case QueryingPass(q) => PassKeeps(s, q);
    case _ =>
  }

  lemma {:induction false} AllKeep(s: Server, events: seq<Event>, catalogue: Catalogue)
    requires FlagsOnly(catalogue)
    requires Sound(s)
    ensures Sound(ApplyAll(s, events, catalogue))
  {
    if events != [] {
      AllKeep(s, events[..|events| - 1], catalogue);
      ApplyKeeps(ApplyAll(s, events[..|events| - 1], catalogue), events[|events| - 1], catalogue);
    }
  }

  /** An order that just arrived: all parameters there, none filled, nothing created yet. */
  ghost predicate Fresh(s: Server) {
    && HasAll(s.saved.bag)
    && Get(s.saved.bag, PhaseParam) == Unset
    && (forall p :: Tracked(p) ==> !Get(s.saved.bag, p).Truthy())
    && s.hist == History(map[], map[], [], 0, map[], 0, false, false)
    && s.status == Processing && !s.mailed
  }

  lemma FreshIsSound(s: Server)
    requires Fresh(s)
    ensures Sound(s)
  {
    forall p | Tracked(p)
      ensures Even(s.saved.bag, s.hist, p)
    {
    }
    assert Tracked(BillingGroupArn);
  }

  /** What a sound order says about the things created for it. */
  predicate CreatedOnce(t: Server, p: Param) {
    && Count(t.hist.created, p) == OnRecord(t.saved.bag, p) + Count(t.hist.lost, p)
    && Count(t.hist.created, p) <= 1 + t.hist.failedSaves + Count(t.hist.anonymous, p)
    && (t.hist.failedSaves == 0 ==>
          Count(t.hist.created, p) == OnRecord(t.saved.bag, p) + Count(t.hist.anonymous, p))
    && (t.hist.failedSaves == 0 && !IsTicket(p) ==> Count(t.hist.created, p) <= 1)
    && |t.hist.subscriptions| <= 1
    && t.hist.emails <= 1
  }

  /** Create-once, over all histories. With every order update persisted there is at most one
      invitation, billing group, relationship and handshake, and of each ticket the stored one and
      those that came back without an id; a failed write may lose one id of each. One subscription
      and one mail, always. Every rung that was passed left its identifier; a completed order saw
      its transfer accepted. */
  lemma CreateOnce(s: Server, events: seq<Event>, catalogue: Catalogue, p: Param)
    requires FlagsOnly(catalogue)
    requires Fresh(s)
    requires Tracked(p)
    ensures var t := ApplyAll(s, events, catalogue);
      && CreatedOnce(t, p)
      && Rungs(t.saved.bag, t.hist)
      && (t.status == Done ==> t.hist.acceptedSeen && t.hist.subscriptions != []
                               && IsAt(t.saved.bag, Completed))
  {
    FreshIsSound(s);
    AllKeep(s, events, catalogue);
    SoundIsCreatedOnce(ApplyAll(s, events, catalogue), p);
  }

  lemma SoundIsCreatedOnce(t: Server, p: Param)
    requires Sound(t) && Tracked(p)
    ensures CreatedOnce(t, p)
    ensures t.status == Done ==> t.hist.acceptedSeen && t.hist.subscriptions != [] && IsAt(t.saved.bag, Completed)
  {
    assert Even(t.saved.bag, t.hist, p);
  }
}
