/** What becomes of an order: which answers fail it, query it, resume it and complete it, and whose
    identifiers it carries. */
module Verdicts {
  import opened Orders
  import opened StepSpec
  import opened Ladder
  import opened Progress
  import opened RunFate

  /** The run was set up, no write of it failed, and it stopped in the phase `p`. */
  predicate StoppedAt(s: Server, t: Server, w: World, p: Phase) {
    && IsAt(t.saved.bag, p) && t.hist.failedSaves == s.hist.failedSaves
    && w.pmAccount && (Rank(s.saved.bag) > 0 || w.catalogueRead) && w.aws.Good? && w.apn.Good?
  }

  /** The id was on the order, or a run that started no later than `made` has made it. */
  predicate Has(s: Server, p: Param, made: Phase) {
    Get(s.saved.bag, p).Truthy() || PhaseRank(FirstPhase(s)) <= PhaseRank(made)
  }

  lemma IdsOfStart(s: Server, catalogue: Catalogue, p: Param)
    requires FlagsOnly(catalogue) && p !in {RolesDeployed, HandshakeApproved, ErrorNotified}
    ensures Get(StartOf(s, catalogue).bag, p) == Get(s.saved.bag, p)
  {
    DefaultsTouchFlagsOnly(s.saved.bag, catalogue, p);
  }

  /** The gate at which a run ended, for a run that did end at one. */
  lemma AtGate(s: Server, w: World, catalogue: Catalogue)
    requires FlagsOnly(catalogue)
    requires HasAll(s.saved.bag) && PhaseFits(s) && s.status == Processing
    ensures var (r, out) := RunPipeline(s, w, catalogue);
      var t, x := r.server, StartOf(s, catalogue);
      && (t.status != Processing ==> exists p: Phase :: StoppedAt(s, t, w, p))
      && (forall p: Phase :: StoppedAt(s, t, w, p) ==>
            && GateOf(p, x, w) == Ends(t.status, out) && PhaseRank(x.first) <= PhaseRank(p)
            && forall q: Phase :: PhaseRank(x.first) <= PhaseRank(q) < PhaseRank(p) ==> GateOf(q, x, w) == Passes)
  {
    RunFollowsGates(s, w, catalogue);
    var t := RunPipeline(s, w, catalogue).0.server;
    if t.status != Processing {
      var v := Get(t.saved.bag, PhaseParam);
      assert StoppedAt(s, t, w, v.phase);
    }
  }

  /** What fails an order in a phase. */
  predicate Fatal(p: Phase, s: Server, w: World) {
    match p
    case CreateInvitation => FirstPhase(s) == CreateInvitation && w.duplicate.Good? && w.duplicate.value
    case CheckInvitation =>
      Has(s, TransferId, CreateInvitation)
      && (w.transfer == Good(Declined) || w.transfer == Good(Canceled) || w.transfer == Good(Expired))
    case _ => false
  }

  /** What is to be asked of the customer in a phase. */
  predicate Questionable(p: Phase, s: Server, w: World) {
    match p
    case CreateAccount =>
      Strip(s.saved.mpa) == NoAccount
      && (Get(s.saved.bag, NewAccountTicket).Truthy() || w.ticket(TicketNewAccount).Good?)
    case CreateInvitation =>
      (Strip(s.saved.mpa) == NoAccount || w.invitation.ServiceError?) && !Get(s.saved.bag, TransferId).Truthy()
      && (FirstPhase(s) == CreateInvitation ==> w.duplicate.Good? && !w.duplicate.value)
    case CheckInvitation =>
      Has(s, TransferId, CreateInvitation) && (w.transfer == Good(Requested) || w.transfer == Good(Withdrawn))
    case CheckHandshake =>
      Has(s, HandshakeId, CreateHandshake) && w.handshakeStatus == Good(Some(Pending))
    case CheckRoles => w.roles.Good? && !w.roles.value
    case _ => false
  }

  lemma InvitationDecides(s: Server, w: World, catalogue: Catalogue)
    requires FlagsOnly(catalogue)
    ensures var g := InvitationGate(StartOf(s, catalogue), w);
      && (g.Ends? && g.status == Failed <==> Fatal(CreateInvitation, s, w))
      && (g.Ends? && g.status == Querying <==> Questionable(CreateInvitation, s, w))
      && (g.Ends? ==> g.status != Done)
  {
    IdsOfStart(s, catalogue, TransferId);
  }

  lemma GateDecides(p: Phase, s: Server, w: World, catalogue: Catalogue)
    requires FlagsOnly(catalogue) && PhaseFits(s)
    requires PhaseRank(FirstPhase(s)) <= PhaseRank(p)
    ensures var g := GateOf(p, StartOf(s, catalogue), w);
      && (g.Ends? && g.status == Failed <==> Fatal(p, s, w))
      && (g.Ends? && g.status == Querying <==> Questionable(p, s, w))
      && (g.Ends? && g.status == Done ==> p == Completed)
  {
    IdsOfStart(s, catalogue, TransferId);
    IdsOfStart(s, catalogue, HandshakeId);
    IdsOfStart(s, catalogue, NewAccountTicket);
    match p
    case CreateAccount =>
    case CreateInvitation => InvitationDecides(s, w, catalogue);
    case CheckInvitation =>
    case CheckHandshake =>
    case CheckRoles =>
    case _ =>
  }

  /**
   * A run fails the order exactly for a duplicate, found when it starts with the invitation, or for a
   * transfer that was declined, canceled or has expired; and it queries the order exactly for a missing
   * account id, an invitation that AWS refuses, a transfer that is open or withdrawn, a pending
   * handshake, or customer roles that are not deployed.
   */
  lemma RunVerdict(s: Server, w: World, catalogue: Catalogue)
    requires FlagsOnly(catalogue)
    requires HasAll(s.saved.bag) && PhaseFits(s) && s.status == Processing
    ensures var t := RunPipeline(s, w, catalogue).0.server;
      && (t.status == Failed <==> exists p: Phase :: StoppedAt(s, t, w, p) && Fatal(p, s, w))
      && (t.status == Querying <==> exists p: Phase :: StoppedAt(s, t, w, p) && Questionable(p, s, w))
      && (t.status == Done ==> IsAt(t.saved.bag, Completed))
  {
    AtGate(s, w, catalogue);
    var t := RunPipeline(s, w, catalogue).0.server;
    forall p: Phase | StoppedAt(s, t, w, p)
      ensures t.status == Failed <==> Fatal(p, s, w)
      ensures t.status == Querying <==> Questionable(p, s, w)
      ensures t.status == Done ==> p == Completed
    {
      GateDecides(p, s, w, catalogue);
    }
  }

  /** One look at a transfer that was not accepted: three answers fail the order, the others query it. */
  lemma TransferDecides(r: Run, w: World, catalogue: Catalogue)
    requires IsAt(r.order.bag, CheckInvitation) && Get(r.order.bag, TransferId).Truthy()
    requires w.transfer.Good? && w.transfer.value != Accepted
    requires w.save(CheckBillingTransferInvitation, Switch)
    ensures Call(CheckBillingTransferInvitation, r, w, catalogue) ==
      (r.(server := r.server.(saved := r.order,
                              status := if w.transfer.value in {Declined, Canceled, Expired} then Failed else Querying)),
       Halt)
  {
  }

  /** The job number goes on the order that it was created for. */
  lemma JobRecorded(r: Run, w: World, catalogue: Catalogue)
    requires HasAll(r.order.bag) && IsAt(r.order.bag, ProjectCreation) && !Get(r.order.bag, ErpProjectNo).Truthy()
    requires Get(r.order.bag, ContractNumber).Truthy() && w.job.Good? && w.save(SWOJob, AfterStep)
    ensures var (r', out) := Call(SWOJob, r, w, catalogue);
      && out.Continue? && IsAt(r'.server.saved.bag, Completed)
      && Get(r'.server.saved.bag, ErpProjectNo) == Text(w.job.value)
  {
    CallWorks(SWOJob, r, w, catalogue);
  }

  /** The first error of a deployment is mailed and noted on the order, and none later. */
  lemma ErrorIsMailed(r: Run, step: Step, w: World)
    requires HasAll(r.order.bag) && w.save(step, InHandler) && w.mail.Good?
    ensures var (r', sig) := HandleError(r, step, w);
      var first := Get(r.order.bag, ErrorNotified) != Yes && !r.server.mailed;
      && r'.Hist().emails == r.Hist().emails + (if first && w.mail.value then 1 else 0)
      && (first ==> Get(r'.server.saved.bag, ErrorNotified) == Yes && r'.server.mailed)
      && (!first ==> r' == r)
      && sig == (if r.server.pls then UnexpectedStop else Proceed)
  {
  }

  /** Whether a pass finds the role ticket that is due: none yet, one still open, or a new one on the order. */
  predicate Reminded(s: Server, q: QueryWorld) {
    || !q.rolesTimeout
    || (Get(s.saved.bag, RolesTicket).Truthy() && q.openTicket.Good? && q.openTicket.value)
    || NewlyReminded(s, q)
  }

  predicate NewlyReminded(s: Server, q: QueryWorld) {
    && q.rolesTimeout
    && (Get(s.saved.bag, RolesTicket).Truthy() ==> q.openTicket.Good? && !q.openTicket.value)
    && q.newTicket.Good? && q.saveTicket
  }

  /** The phase that a pass gives up on, having waited for too long. */
  predicate GivesUp(s: Server, q: QueryWorld) {
    && q.timeout && q.savePhase
    && ((IsAt(s.saved.bag, CheckHandshake) && q.client && q.handshakeStatus == Good(Some(Pending)))
        || (IsAt(s.saved.bag, CheckRoles) && q.roles.Good? && !q.roles.value && Reminded(s, q)))
  }

  /** What a queried order was waiting for has been decided, one way or the other. */
  predicate Decided(s: Server, q: QueryWorld) {
    || (IsAt(s.saved.bag, CheckInvitation) && Get(s.saved.bag, TransferId).Truthy() && q.pmAccount && q.client
        && q.transfer.Good? && q.transfer.value in {Accepted, Declined, Canceled, Expired, Withdrawn})
    || (IsAt(s.saved.bag, CheckHandshake) && q.client && q.handshakeStatus.Good?
        && (q.handshakeStatus.value == None || q.handshakeStatus.value == Some(Approved)
            || q.handshakeStatus.value == Some(OtherStatus)))
    || (IsAt(s.saved.bag, CheckRoles) && q.roles.Good? && q.roles.value)
  }

  /** What a pass makes of a queried order. */
  ghost predicate PassedAs(s: Server, q: QueryWorld, t: Server) {
    && (t.status == Processing <==> q.switch && (Decided(s, q) || GivesUp(s, q)))
    && (t.status == Processing || t.status == Querying)
    && Get(t.saved.bag, PhaseParam) ==
         (if !GivesUp(s, q) then Get(s.saved.bag, PhaseParam)
          else if IsAt(s.saved.bag, CheckHandshake) then AtPhase(CheckRoles) else AtPhase(CreateSubscription))
    && Get(t.saved.bag, RolesTicket) ==
         (if IsAt(s.saved.bag, CheckRoles) && q.roles.Good? && !q.roles.value && NewlyReminded(s, q)
          then Text(q.newTicket.value) else Get(s.saved.bag, RolesTicket))
    && (forall p {:trigger Get(t.saved.bag, p)} :: p != PhaseParam && p != RolesTicket ==>
          Get(t.saved.bag, p) == Get(s.saved.bag, p))
    && t.saved.mpa == s.saved.mpa && t.hist == s.hist && t.mailed == s.mailed
  }

  lemma HandshakePass(s: Server, q: QueryWorld)
    requires HasAll(s.saved.bag) && s.status == Querying && IsAt(s.saved.bag, CheckHandshake)
    ensures PassedAs(s, q, PassHandshake(s, q))
  {
    if q.handshakeStatus.Good? {
      match q.handshakeStatus.value
      case None =>
      case Some(Pending) =>
      case Some(_) =>
    }
  }

  lemma RolesPass(s: Server, q: QueryWorld)
    requires HasAll(s.saved.bag) && s.status == Querying && IsAt(s.saved.bag, CheckRoles)
    ensures PassedAs(s, q, PassRoles(s, q))
  {
    if q.roles.Good? && !q.roles.value {
      RemindPass(s, q);
      assert PassRoles(s, q) ==
        match RemindRoles(s, q)
        case None => s
        case Some(s1) => if q.timeout then JumpTo(s1, CreateSubscription, q) else s1;
    }
  }

  lemma RemindPass(s: Server, q: QueryWorld)
    requires HasAll(s.saved.bag) && IsAt(s.saved.bag, CheckRoles)
    ensures RemindRoles(s, q).Some? <==> Reminded(s, q)
    ensures Reminded(s, q) ==>
      RemindRoles(s, q).value ==
        if NewlyReminded(s, q) then s.(saved := s.saved.With(RolesTicket, Text(q.newTicket.value))) else s
  {
  }

  /** A querying pass resumes an order exactly when its matter is decided or given up and the status can
      be switched; giving up moves the phase past the check, and only a reminder leaves a new ticket. */
  lemma PassVerdict(s: Server, q: QueryWorld)
    requires HasAll(s.saved.bag) && s.status == Querying
    ensures PassedAs(s, q, QueryPass(s, q))
  {
    if IsAt(s.saved.bag, CheckHandshake) {
      HandshakePass(s, q);
    } else if IsAt(s.saved.bag, CheckRoles) {
      RolesPass(s, q);
    }
  }

  /** The pass and then the run that it makes possible. */
  function PassThenRun(s: Server, q: QueryWorld, w: World, catalogue: Catalogue): Server {
    Apply(Apply(s, QueryingPass(q), catalogue), PipelineRun(w), catalogue)
  }

  /** Nothing but the order's own matter stands in the way of the pass and of the run after it. */
  ghost predicate Unhindered(s: Server, q: QueryWorld, w: World, catalogue: Catalogue) {
    && HasAll(s.saved.bag) && PhaseFits(s) && s.status == Querying
    && q.pmAccount && q.client && q.switch && !q.timeout
    && w.pmAccount && w.aws.Good? && w.apn.Good?
    && PassThenRun(s, q, w, catalogue).hist.failedSaves == s.hist.failedSaves
  }

  /** A transfer seen by a pass and by the run after it: open or withdrawn it keeps the order querying,
      declined, canceled or expired it fails it, and accepted it lets the order leave its phase. */
  lemma TransferResolved(s: Server, q: QueryWorld, w: World, catalogue: Catalogue)
    requires FlagsOnly(catalogue) && Unhindered(s, q, w, catalogue)
    requires IsAt(s.saved.bag, CheckInvitation) && Get(s.saved.bag, TransferId).Truthy()
    requires q.transfer.Good? && w.transfer == q.transfer
    ensures var t := PassThenRun(s, q, w, catalogue);
      && (q.transfer.value in {Requested, Withdrawn} ==> t.status == Querying && IsAt(t.saved.bag, CheckInvitation))
      && (q.transfer.value in {Declined, Canceled, Expired} <==> t.status == Failed)
      && (q.transfer.value == Accepted && w.billingGroup.Good? ==> Rank(t.saved.bag) > PhaseRank(CheckInvitation))
  {
    var s1 := QueryPass(s, q);
    PassVerdict(s, q);
    if s1.status == Processing {
      SettledRun(s1, w, catalogue, CheckInvitation);
    }
  }

  /** A handshake seen by both: pending it keeps the order querying; if it is gone the order is resumed
      and stays in processing in its phase; any other lets the order leave its phase. */
  lemma HandshakeResolved(s: Server, q: QueryWorld, w: World, catalogue: Catalogue)
    requires FlagsOnly(catalogue) && Unhindered(s, q, w, catalogue)
    requires IsAt(s.saved.bag, CheckHandshake) && Get(s.saved.bag, HandshakeId).Truthy()
    requires q.handshakeStatus.Good? && w.handshakeStatus == q.handshakeStatus
    ensures var t, h := PassThenRun(s, q, w, catalogue), q.handshakeStatus.value;
      && (h == Some(Pending) ==> t == s)
      && (h == None ==> t.status == Processing && IsAt(t.saved.bag, CheckHandshake))
      && (h != None && h != Some(Pending) ==> Rank(t.saved.bag) > PhaseRank(CheckHandshake))
  {
    var s1 := QueryPass(s, q);
    PassVerdict(s, q);
    if s1.status == Processing {
      SettledRun(s1, w, catalogue, CheckHandshake);
    }
  }

  /** Customer roles seen by both: missing ones keep the order querying, deployed ones let it leave its phase. */
  lemma RolesResolved(s: Server, q: QueryWorld, w: World, catalogue: Catalogue)
    requires FlagsOnly(catalogue) && Unhindered(s, q, w, catalogue)
    requires IsAt(s.saved.bag, CheckRoles) && q.roles.Good? && w.roles == q.roles
    ensures var t := PassThenRun(s, q, w, catalogue);
      if q.roles.value then Rank(t.saved.bag) > PhaseRank(CheckRoles)
      else t.status == Querying && IsAt(t.saved.bag, CheckRoles)
  {
    var s1 := QueryPass(s, q);
    PassVerdict(s, q);
    if s1.status == Processing {
      SettledRun(s1, w, catalogue, CheckRoles);
    }
  }

  /** How an unhindered run settles the matter of its first phase. */
  lemma SettledRun(s: Server, w: World, catalogue: Catalogue, p: Phase)
    requires FlagsOnly(catalogue)
    requires HasAll(s.saved.bag) && PhaseFits(s) && s.status == Processing && IsAt(s.saved.bag, p)
    requires w.pmAccount && w.aws.Good? && w.apn.Good?
    requires RunPipeline(s, w, catalogue).0.server.hist.failedSaves == s.hist.failedSaves
    ensures var t := RunPipeline(s, w, catalogue).0.server;
      && (GateOf(p, StartOf(s, catalogue), w).Ends? ==>
            IsAt(t.saved.bag, p) && t.status == GateOf(p, StartOf(s, catalogue), w).status)
      && (GateOf(p, StartOf(s, catalogue), w).Passes? ==>
            Rank(t.saved.bag) > PhaseRank(p) && (PhaseRank(p) >= 3 ==> t.status != Failed))
  {
    RunFollowsGates(s, w, catalogue);
    var x, t := StartOf(s, catalogue), RunPipeline(s, w, catalogue).0.server;
    var v := Get(t.saved.bag, PhaseParam);
    RankOfPhase(v.phase, p);
    GateDecides(v.phase, s, w, catalogue);
  }
}
