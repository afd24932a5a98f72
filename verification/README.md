# AWS extension: verified model

This project models four parts of the SoftwareOne AWS extension in Dafny 4.11 and proves what they
promise. `dafny verify dfyconfig.toml` checks all of it.

**Purchase fulfilment** (`Orders`, `StepSpec`, `Fulfilment`, `Ladder`, `Progress`, `PlsSafety`,
`PlsExactness`, `FailTicket`, `RunFate`, `Verdicts`, `Origins`). An order carries a phase, a status and
fulfilment parameters. A pipeline run walks a fixed list of steps; between runs, querying processors,
operators and the customer act on stalled orders. Every outside service is a free answer (`World`,
`QueryWorld`), an order update is an atomic write that can fail, and a history records what was created
and seen. `Fulfilment` holds the state-changing code, proved against the functions of `StepSpec`; the
other modules prove invariants of those functions over every sequence of events, and `RunFate` proves
that a run of nineteen steps ends as a table of twelve phase gates says.

**Billing journal** (`Money`, `Usage`, `Lines`, `Extras`, `SavingPlans`, `Journal`, `Report`, `Drift`,
`InvoiceIds`). The line processors, the Savings Plans distribution, the extra discounts and the PLS
charge, the report rows and the merging of invoice ids, with half-even rounding at six decimals.

**RQL query builder** (`RqlTree`, `RqlText`, `RqlBuilder`). The expression tree with its operators, the
printer with a parser that reads its text back, and the two styles of building leaves.

**Periodic synchronizers** (`Calendar`, `LinkedAccounts`, `Countdown`, `FinOps`). The three-month
countdown of linked-account subscriptions, the 60-day expiry of FinOps entitlements, and the calendar
arithmetic they share with billing.

Where the code's behaviour is narrower than its promise, the condition is proved exactly:

- Partner-Led safety holds in every history if and only if the roles flag starts as "no"
  (`PlsExactness.PlsSafetyExact`).
- The split billing policy keeps the bill if and only if some account has covered usage or there is no
  fee; otherwise the fee is not billed (`Journal.SplitPolicyPreservesBill`).
- `&` and `|` mean the opposite when the copying shortcut meets a negated node, and `~` fails on a
  negated leaf (`RqlTree.JoinCorrect`, `RqlTree.InvertCorrect`).
- Quoting can be undone if and only if the value does not end in a backslash
  (`RqlBuilder.QuoteRoundTrip`).
- A printed query can be read back if and only if no part of it is empty: `~Q()` counts as non-empty and
  prints a gap (`RqlText.PrintParseExact`, `RqlText.InvertedEmptyIsLost`).
- While writes persist only tickets can be created twice, and only those that the CRM answers without an
  id (`Ladder.CreateOnce`); such an order-failed ticket is opened again by every run
  (`FailTicket.NamelessTicketsPileUp`).
- A querying pass resumes an order whose handshake is gone, and the run that follows leaves it in
  Processing in the same phase (`Verdicts.HandshakeResolved`).
- Journal and report disagree for equal currencies with a rate other than 1
  (`Drift.UnconvertedAgreement`).
- A linked subscription whose date has come is terminated even if the same run finds usage
  (`Countdown.StaleSnapshotTerminates`).

Where the code and its own documentation differ, the code is modelled: the job step's documentation
names createSubscription as its next phase and the code stores completed; the phase list puts
projectCreation before createSubscription and the steps run them the other way round; the query
builder's documentation calls `anyof`, which the class does not define, and passes the value of `empty`
by position, which the signature does not take.

Assumptions. A pipeline run starts only on an order in Processing; support type and account type are
fixed; an order has all fulfilment parameters (a write to a missing one changes nothing, which
`Orders.Set` models). The product's defaults set only the roles and handshake flags, and the flag for the
error mail only to "no": `Ladder.FlagsOnly`; the code would take a default for any parameter, a phase or an
identifier included. `Decimal` is the exact reals, with the rounding calls written out; Python's
28-digit context is not modelled. A FinOps run takes less than 60 days and the clock does not run
backwards. Dictionaries in insertion order are sequences without repeated keys where the order shows.

## Model

| member | source | states |
|---|---|---|
| Fulfilment.PurchaseContext.Call | swo_aws_extension/flows/steps/base.py:33-50 | One step call changes the run exactly as `StepSpec.Call` says: skip, stop, query, fail, crash, or go on to the next step |
| Fulfilment.PurchaseContext.PreStep | swo_aws_extension/flows/steps/base.py:67-89 | The pre-step hooks of all purchase steps: the phase gates, the data gates of the tickets, the create-once gates and the PLS gate |
| Fulfilment.PurchaseContext.Process | swo_aws_extension/flows/steps/base.py:91-111 | The work of every step, with the signal it ends with |
| Fulfilment.PurchaseContext.PostStep | swo_aws_extension/flows/steps/check_onboard_status.py:101-107 | The next phase is stored after the work, except that a deployment still running keeps the phase |
| Fulfilment.PurchaseContext.RunPipeline | swo_aws_extension/flows/fulfillment/pipelines.py:66-106 | A run walks the fixed step list until a step does not continue; the whole new state is that of `StepSpec.RunSteps` over the list |
| Fulfilment.PurchaseContext.Save | swo_aws_extension/flows/steps/check_customer_roles.py:78-83 | An order update stores all parameters in memory, or raises and stores none; identifiers only in memory are then lost |
| Fulfilment.PurchaseContext.SwitchStatus | swo_aws_extension/flows/order_utils.py:80-108 | The status write stores the parameters as well, or neither |
| Fulfilment.PurchaseContext.HandleError | swo_aws_extension/flows/flow_utils.py:96-119 | At most one mail per order, guarded by the stored flag and the in-process set; only Partner-Led orders stop |
| Fulfilment.PurchaseContext.SendMail | swo_aws_extension/flows/flow_utils.py:71-80 | A mail that is not sent only goes unlogged and the run goes on; a mailer that raises ends it |
| Fulfilment.PurchaseContext.OpenTicket | swo_aws_extension/flows/steps/crm_tickets/base.py:28-40 | A ticket's id is recorded if the CRM returned one; the step goes on without one |
| Fulfilment.PurchaseContext.MoveOnIfDone | swo_aws_extension/flows/steps/configure_apn_program.py:42-46 | A creating step whose id is already on the order only moves the phase |
| Fulfilment.PurchaseContext.Setup | swo_aws_extension/flows/steps/setup_context.py:49-78 | Template, defaults for an order without phase, stripped account id, clients |
| Fulfilment.PurchaseContext.FillDefaults | swo_aws_extension/flows/steps/setup_context.py:106-122 | The loop over the product's parameters writes every default, and none to a parameter the order lacks |
| Fulfilment.PurchaseContext.InviteOrganization | swo_aws_extension/flows/steps/create_billing_transfer_invitation.py:60-118 | A missing account id or an AWS error queries the order; otherwise the transfer id is set |
| Fulfilment.PurchaseContext.CheckTransferStatus | swo_aws_extension/flows/steps/check_billing_transfer_invitation.py:57-102 | Accepted creates the billing group; declined, canceled and expired fail; anything else queries |
| Fulfilment.PurchaseContext.ConfigureProgram | swo_aws_extension/flows/steps/configure_apn_program.py:49-80 | The relationship is created once its program identifier is found |
| Fulfilment.PurchaseContext.StartHandshake | swo_aws_extension/flows/steps/create_channel_handshake.py:50-78 | The handshake id is set, or the step stops |
| Fulfilment.PurchaseContext.CheckHandshakeStatus | swo_aws_extension/flows/steps/check_channel_handshake_status.py:53-102 | The approval flag is cleared first and set only for an accepted handshake; pending queries, other statuses go on |
| Fulfilment.PurchaseContext.CheckBootstrapRoles | swo_aws_extension/flows/steps/check_customer_roles.py:45-75 | The cached role check sets the flag to yes and goes on, or to no and queries |
| Fulfilment.PurchaseContext.DeployServices | swo_aws_extension/flows/steps/onboard_services.py:45-99 | The execution ARN is stored, or the error handler decides |
| Fulfilment.PurchaseContext.CheckDeploymentStatus | swo_aws_extension/flows/steps/check_onboard_status.py:37-98 | All outcomes of the deployment check, with the still-running fall-through |
| Fulfilment.PurchaseContext.EnsureSubscription | swo_aws_extension/flows/steps/create_subscription.py:53-81 | A subscription is created only if the account has none on the order |
| Fulfilment.PurchaseContext.FindOrCreateContract | swo_aws_extension/flows/steps/contract_card.py:68-100 | Contract errors never stop the run |
| Fulfilment.PurchaseContext.CreateProjectJob | swo_aws_extension/flows/steps/swo_job.py:65-121 | Job errors and a missing contract never stop the run |
| Fulfilment.PurchaseContext.Complete | swo_aws_extension/flows/steps/complete_order.py:38-52 | The agreement is updated and the order switched to completed, unless it already is |
| Fulfilment.QueryingOrder.Pass | swo_aws_extension/processor/processor.py:18-29 | One querying pass changes a Querying order exactly as `StepSpec.QueryPass` says, by the first processor for its phase |
| Fulfilment.QueryingOrder.SwitchToProcess | swo_aws_extension/flows/order_utils.py:111-132 | A failing switch to Processing is swallowed |
| Fulfilment.QueryingOrder.ManageTimeout | swo_aws_extension/processor/querying/aws_customer_roles.py:102-116 | The timeout stores the later phase first and then tries to switch the status |
| Fulfilment.QueryingOrder.ProcessInvitation | swo_aws_extension/processor/querying/aws_billing_transfer_invitation.py:34-91 | A changed transfer status resumes the order |
| Fulfilment.QueryingOrder.ProcessHandshake | swo_aws_extension/processor/querying/aws_channel_handshake.py:37-79 | A handshake that is gone or decided resumes the order; a pending one jumps on timeout |
| Fulfilment.QueryingOrder.ManageRolesTicket | swo_aws_extension/processor/querying/aws_customer_roles.py:118-146 | One open role ticket at a time; its id is stored or the pass dies |
| Fulfilment.QueryingOrder.ProcessRoles | swo_aws_extension/processor/querying/aws_customer_roles.py:43-79 | Deployed roles resume the order; missing ones remind and, on timeout, jump to the subscription phase |
| Ladder.CreateOnce | swo_aws_extension/flows/steps/create_billing_transfer_invitation.py:44-57 | Over all histories, whatever was created for an id is on the order or was lost with a failed write, or, for a ticket, came back without an id itself; with every write persisted at most one invitation, billing group, relationship and handshake; always at most one subscription and one mail; every passed phase left its id; a completed order saw its transfer accepted |
| Ladder.AllKeep | swo_aws_extension/flows/steps/configure_apn_program.py:35-46 | The ladder invariant holds after every interleaving of runs, querying passes and manual actions |
| Ladder.StepKeeps | swo_aws_extension/flows/steps/base.py:33-50 | Every step but the setup keeps the ladder invariant, whatever the services answer |
| Ladder.MadeWorked | swo_aws_extension/flows/steps/create_channel_handshake.py:36-47 | Invitation, relationship and handshake: the new id and the phase that vouches for it are written together |
| Ladder.TransferWorked | swo_aws_extension/flows/steps/check_billing_transfer_invitation.py:73-110 | A billing group exists for an order exactly once its transfer was seen accepted and the phase left the check |
| Ladder.SubscribeWorked | swo_aws_extension/flows/steps/create_subscription.py:53-88 | At most one subscription, for the account on the order |
| Ladder.HandleErrorKeeps | swo_aws_extension/flows/flow_utils.py:108-119 | The handler sends at most one mail per order and leaves the ladder intact |
| Ladder.DoneKeeps | swo_aws_extension/flows/steps/swo_job.py:58-62 | Moving on because an id is present keeps the ladder |
| Ladder.SoundIsCreatedOnce | swo_aws_extension/flows/steps/check_billing_transfer_invitation.py:73-110 | What the invariant says about one order: the creation equation, with the slack of each parameter its own, one subscription, one mail, completion only after an accepted transfer |
| Progress.RankNeverDecreases | swo_aws_extension/flows/steps/base.py:33-50 | No event of any history moves the phase back; account type and support type stay |
| Progress.RunProgress | swo_aws_extension/flows/fulfillment/pipelines.py:66-106 | A run moves the phase forward or not at all, and a run that nothing stopped has completed the order or waits for its deployment |
| Progress.EventProgress | swo_aws_extension/processor/querying/aws_channel_handshake.py:87-104 | Querying passes and manual actions never move the phase back either |
| Progress.CooperativeRunCompletes | swo_aws_extension/flows/fulfillment/pipelines.py:66-106 | With cooperating services one run from any phase completes the order if and only if the order holds what its phase needs |
| Progress.MoveAdvances | swo_aws_extension/flows/fulfillment/pipelines.py:66-106 | The order of the steps fits the order of the phases: whoever continues arrives at the next step with its phase reached |
| Progress.CallMoves | swo_aws_extension/flows/steps/check_onboard_status.py:101-107 | A step moves the stored phase only from its own phase to its next one, and must do so when it continues, unless a deployment is running |
| Progress.ApprovalRecorded | swo_aws_extension/flows/steps/check_channel_handshake_status.py:53-109 | The approval flag that leaves the handshake check is yes exactly for an accepted handshake |
| Progress.ContractAndJobNeverBlock | swo_aws_extension/flows/steps/contract_card.py:43-53 | Whatever the contract and job services report, the run goes on, and only the job step moves the phase |
| RunFate.RunFollowsGates | swo_aws_extension/flows/fulfillment/pipelines.py:66-106 | A whole run told by phases: once set up it passes the gates of all phases from its first to the stored one, and the gate of that phase alone decides status and outcome; only a failed write breaks a run off elsewhere, and then in Processing |
| RunFate.StepTold | swo_aws_extension/flows/steps/base.py:33-50 | Every step either walks on with all gates behind it passed, or ends the run at the gate of its phase |
| RunFate.DeploymentTold | swo_aws_extension/flows/steps/check_onboard_status.py:37-107 | The deployment check decides at its gate, or walks on with the deployment running |
| Verdicts.RunVerdict | swo_aws_extension/flows/steps/check_billing_transfer_invitation.py:73-102 | A run ends in Failed if and only if it met a duplicate or a declined, canceled or expired transfer, and in Querying if and only if it met a missing account id, a refused invitation, an open or withdrawn transfer, a pending handshake or missing roles |
| Verdicts.TransferDecides | swo_aws_extension/flows/steps/check_billing_transfer_invitation.py:93-102 | Declined, canceled and expired transfers fail the order, all others but the accepted one query it |
| Verdicts.PassVerdict | swo_aws_extension/processor/processor.py:18-29 | A querying pass resumes an order if and only if its matter is decided or given up and the switch works; what becomes of phase and role ticket, and that nothing else changes |
| Verdicts.TransferResolved | swo_aws_extension/processor/querying/aws_billing_transfer_invitation.py:34-91 | A pass and the next run that see the same transfer leave the order querying, failed or past the check, by the transfer's status |
| Verdicts.HandshakeResolved | swo_aws_extension/processor/querying/aws_channel_handshake.py:37-79 | The same for a handshake; one that is gone is resumed and then stays in its phase in Processing |
| Verdicts.RolesResolved | swo_aws_extension/processor/querying/aws_customer_roles.py:43-79 | The same for the customer roles |
| Verdicts.JobRecorded | swo_aws_extension/flows/steps/swo_job.py:65-121 | The number of a created job is on the order when its phase ends |
| Verdicts.ErrorIsMailed | swo_aws_extension/flows/flow_utils.py:96-119 | The first deployment error of an order is mailed and noted, and none later |
| Origins.IdsHaveOrigin | swo_aws_extension/flows/steps/configure_apn_program.py:49-80 | Over every history each identifier on the order was there at the start or is the answer of its own service, and of no other |
| Origins.RunTraced | swo_aws_extension/flows/steps/crm_tickets/base.py:28-40 | One run leaves in each identifier parameter what was there or what its own service answered |
| PlsSafety.SafeFromNo | swo_aws_extension/flows/steps/create_subscription.py:41-50 | Starting from roles "no", in every history a Partner-Led order is in projectCreation, completed or Completed only with roles "yes" and a succeeded deployment seen |
| PlsExactness.PlsSafetyExact | swo_aws_extension/processor/querying/aws_customer_roles.py:102-116 | That safety holds in every history if and only if the roles flag starts as "no" |
| PlsExactness.BypassCompletes | swo_aws_extension/processor/querying/aws_channel_handshake.py:87-104 | With any other start value two timeouts, the first with a failed status switch, complete the order without a deployment |
| PlsSafety.FailTicketOnlyAfterTimeout | swo_aws_extension/flows/steps/crm_tickets/order_fail.py:30-43 | An order-failed ticket exists only for a Partner-Led order whose role check timed out, and only once unless its own id was lost with a failed write or never came; with every write persisted the tickets are exactly the stored one and those without an id |
| FailTicket.NamelessTicketRepeats | swo_aws_extension/flows/steps/crm_tickets/base.py:28-40 | A run of a refused order opens a ticket, and a ticket without an id leaves the order as open to the next run as before |
| FailTicket.NamelessTicketsPileUp | swo_aws_extension/flows/steps/crm_tickets/order_fail.py:30-43 | So n runs open n tickets although every write succeeds: the slack for tickets without an id cannot be dropped |
| PlsSafety.AllGuarded | swo_aws_extension/flows/steps/create_subscription.py:41-50 | The gate invariant, phase by phase, over all histories |
| PlsSafety.DeploymentCallSees | swo_aws_extension/flows/steps/check_onboard_status.py:44-107 | A Partner-Led order leaves the deployment check only after a success |
| PlsSafety.JumpGuards | swo_aws_extension/processor/querying/aws_customer_roles.py:102-116 | The timeout jumps keep the gate closed |
| Money.Round6 | swo_aws_extension/billing/generators/currency.py:20 | Rounding stays within half a unit of the sixth decimal |
| Money.RoundToInt | swo_aws_extension/billing/generators/currency.py:20 | The nearest integer, the even one on a tie |
| Money.RoundToIntUnique | swo_aws_extension/billing/generators/currency.py:20 | Nearness and the even rule determine the result |
| Usage.CalculateTotalByRecordTypes | swo_aws_extension/billing/generators/usage_utils.py:9-23 | The nested loops return the sum of the converted amounts of the types over all accounts |
| Lines.Generate | swo_aws_extension/billing/generators/journal_line.py:58-91 | The loop over the metrics yields the lines of the billable metrics in order |
| Lines.GenerateUsageLines | swo_aws_extension/billing/generators/agreement.py:169-189 | The lines of all accounts, account by account |
| Lines.MetricBilled | swo_aws_extension/billing/generators/line_processors/base.py:21-37 | A metric adds its converted amount to the bill unless it is excluded, plus its SPP recovery |
| Lines.UsagePassConserves | swo_aws_extension/billing/generators/journal_line.py:84-91 | The bill is the total of all converted amounts, minus exactly the excluded ones, plus the SPP recoveries |
| Lines.RecoveryBilled | swo_aws_extension/billing/generators/line_processors/credit.py:49-80 | A recovery line exists only at a zero principal amount and bills the converted SPP metric it found |
| Lines.CreditLines | swo_aws_extension/billing/generators/line_processors/credit.py:37-80 | A non-zero credit has its own line, and behind it the recovery, with its literal text, exactly if the principal is zero and the first matching SPP metric is not |
| Lines.FindSppSucceeds | swo_aws_extension/billing/generators/line_processors/credit.py:70-80 | The search finds an SPP metric if and only if the account has one of the same service and dates |
| Lines.FindSppFirst | swo_aws_extension/billing/generators/line_processors/credit.py:70-80 | What it finds is the first match |
| Lines.UsageLineOrigin | swo_aws_extension/billing/generators/line_processors/base.py:53-75 | Every usage line is the line of a billed metric of its account, with that metric's dates, entity, invoice, converted amount and prefixed service, or a recovery for a credit at a zero principal |
| Lines.UsageMetricHasLine | swo_aws_extension/billing/generators/line_processors/base.py:21-51 | Every metric that is not excluded and not zero has its line, on the usage item exactly if its type allows it and its service has an SPP discount |
| Lines.TaggedAreUsageLines | swo_aws_extension/billing/generators/agreement.py:179-189 | The lines sorted by the type of their metric are the lines of the pass, each with one type |
| Lines.TypeBilled | swo_aws_extension/billing/generators/journal_line.py:58-91 | The lines made for metrics of one type bill what those metrics add, whatever their accounts |
| Extras.CalculateSppBase | swo_aws_extension/billing/generators/additional_line_processors/extra_discounts.py:119-151 | The loops add up the SPP discounts of the services that an account has metrics of the types for |
| Extras.CalculateBase | swo_aws_extension/billing/generators/additional_line_processors/extra_discounts.py:108-117 | The base of each discount, by discount type |
| Extras.ProcessDiscount | swo_aws_extension/billing/generators/additional_line_processors/extra_discounts.py:45-72 | No line at a zero principal, when not applicable, without a positive percentage or without a base; otherwise one non-positive line |
| Extras.DiscountFollowsBase | swo_aws_extension/billing/generators/additional_line_processors/extra_discounts.py:53-72 | When a discount is granted, both ways; that it is never a charge, how much it is to within half a unit, and that it is booked as a charge of the organisation |
| Extras.ServiceDiscountGranted | swo_aws_extension/billing/generators/additional_line_processors/extra_discounts.py:85-151 | The service discount: for an approved handshake, at its agreed percentage, on plain usage, recurring charges and the Savings Plans fee, or on the SPP discounts of the services with any of these |
| Extras.SupportDiscountGranted | swo_aws_extension/billing/generators/additional_line_processors/extra_discounts.py:169-214 | The support discount: for resold support, on the SPP discounts of the services with support metrics |
| Extras.PlsDiscountGranted | swo_aws_extension/billing/generators/additional_line_processors/extra_discounts.py:216-245 | The PLS discount: for Partner-Led Support, on what the Usage lines of the journal bill |
| Extras.PrimaryIsFirst | swo_aws_extension/billing/models/invoice.py:30-44 | The primary entity is the first entered one that is marked as primary |
| Extras.ProcessPlsCharge | swo_aws_extension/billing/generators/additional_line_processors/pls_charge.py:28-61 | At most one charge line, under the PLS conditions |
| Extras.PlsBaseIsBilledUsage | swo_aws_extension/billing/generators/additional_line_processors/pls_charge.py:63-72 | The base of the PLS charge equals the bill of those journal lines of the usage pass that were made for Usage metrics |
| Extras.PlsChargeFollowsUsageLines | swo_aws_extension/billing/generators/additional_line_processors/pls_charge.py:35-61 | When a charge is made, both ways, and that it is the percentage of what the Usage lines of the journal bill, to within half a unit |
| Extras.ExtrasIgnoreSplit | swo_aws_extension/billing/generators/additional_line_processors/base.py:30-54 | The split policy never changes what an extra line costs |
| SavingPlans.CollectCoveredUsage | swo_aws_extension/billing/generators/additional_line_processors/saving_plans.py:107-122 | Exactly the accounts with positive covered usage, with their sums |
| SavingPlans.BuildDistributionLines | swo_aws_extension/billing/generators/additional_line_processors/saving_plans.py:124-144 | One line per covered account with a non-zero rounded share |
| SavingPlans.Distribute | swo_aws_extension/billing/generators/additional_line_processors/saving_plans.py:45-69 | Nothing under MASTER_PAYER, without a fee or without covered usage; otherwise the shares |
| SavingPlans.CollectedFee | swo_aws_extension/billing/generators/additional_line_processors/saving_plans.py:71-94 | The collected total is the converted fee of all accounts, also when there is no fee metric |
| SavingPlans.SharesMakeFee | swo_aws_extension/billing/generators/additional_line_processors/saving_plans.py:132-134 | The exact shares of the covered accounts make up the fee |
| SavingPlans.RoundingAccumulates | swo_aws_extension/billing/generators/additional_line_processors/saving_plans.py:132-134 | The billed shares are within half a unit per account of the exact ones |
| SavingPlans.DistributionBillsFee | swo_aws_extension/billing/generators/additional_line_processors/saving_plans.py:53-69 | The distribution bills the fee once to within the rounding of the shares, or not at all without covered usage |
| SavingPlans.CoveredExactly | swo_aws_extension/billing/generators/additional_line_processors/saving_plans.py:107-122 | An account is covered, with an amount, exactly if that positive amount is the sum of its covered usage |
| SavingPlans.CoveredGrows | swo_aws_extension/billing/generators/additional_line_processors/saving_plans.py:107-122 | Only metrics of covered usage count for the shares, by their own amount |
| SavingPlans.OthersDoNotShare | swo_aws_extension/billing/generators/additional_line_processors/saving_plans.py:107-122 | Replacing metrics of any other type leaves the covered accounts and their sums as they are |
| SavingPlans.UncoveredPaysNothing | swo_aws_extension/billing/generators/additional_line_processors/saving_plans.py:107-144 | An account without a positive amount of covered usage gets no line of the distribution |
| SavingPlans.CoveredAccountPays | swo_aws_extension/billing/generators/additional_line_processors/saving_plans.py:124-144 | Every covered account whose share does not round to nothing has a line with that share |
| SavingPlans.DistributionLineOrigin | swo_aws_extension/billing/generators/additional_line_processors/saving_plans.py:146-162 | Every distribution line is a covered account's rounded share of the whole fee, under the names of a fee metric |
| Journal.GenerateLines | swo_aws_extension/billing/generators/agreement.py:119-142 | The journal: usage lines, then the discounts, the PLS charge and the Savings Plans shares |
| Journal.JournalConserves | swo_aws_extension/billing/generators/agreement.py:119-142 | Over the whole journal: everything converted, minus what is left out by record type and by the terms of the agreement, plus recoveries, extra lines and the shared-out fee |
| Journal.JournalBillsOwed | swo_aws_extension/billing/generators/agreement.py:119-142 | The journal bills what is owed: exactly under MASTER_PAYER, and under the split policy to within the rounding if and only if some account is covered or there is no fee |
| Journal.LeftOutHasNoLine | swo_aws_extension/billing/generators/line_processors/support.py:16-25 | A non-zero metric has no usage line if and only if it is left out; Enterprise support stays on the bill unless the order has PLS and the report Enterprise support |
| Journal.SplitPolicyPreservesBill | swo_aws_extension/billing/generators/line_processors/saving_plans.py:24-26 | Both policies bill the same, to within half a unit per covered account, if and only if some account is covered or there is no fee |
| Journal.UncoveredFeeIsLost | swo_aws_extension/billing/generators/additional_line_processors/saving_plans.py:60-63 | Without covered usage the split policy bills exactly the fee less |
| Journal.PoliciesDiffer | swo_aws_extension/billing/generators/line_processors/saving_plans.py:19-26 | The policies differ by exactly the distribution against the fee |
| Journal.EnterpriseSupportIsSilent | swo_aws_extension/billing/generators/line_processors/support.py:16-25 | With PLS active, Enterprise support metrics may change at will and every line of the journal stays the same |
| Journal.PlsChargeReplacesSupport | swo_aws_extension/billing/generators/agreement.py:127-136 | If there is a PLS charge line, no Enterprise support metric has a line |
| Report.Build | swo_aws_extension/billing/generators/billing_report_rows.py:70-77 | One row for every key that occurs, with the totals of its metrics |
| Report.BuildByAccount | swo_aws_extension/billing/generators/billing_report_rows.py:79-106 | One row for every account and key that occurs in it, with that account's sums |
| Report.AddAccount | swo_aws_extension/billing/generators/billing_report_rows.py:108-114 | The accumulation adds SPP amounts and other amounts to their own sums and touches no other group |
| Report.GroupingsAgree | swo_aws_extension/billing/generators/billing_report_rows.py:116-148 | By-account rows add up to the overall row in sp and SPP discount; their pp is at most the overall pp, with equality if and only if the accounts' SPP sums share a sign |
| Report.RowConsistent | swo_aws_extension/billing/generators/billing_report_rows.py:122-142 | In every row sp, discount and pp are the group's sums at the row's rate, which is the entity's if that is positive and 1 otherwise; pp is sp less the absolute SPP discount, and the share times sp is that discount |
| Report.MetricCounts | swo_aws_extension/billing/generators/billing_report_rows.py:108-114 | One more metric counts for the row of its service, invoice and entity alone, as a discount if it is an SPP discount and as an amount otherwise |
| Report.AccountCounts | swo_aws_extension/billing/generators/billing_report_rows.py:70-77 | Over accounts the amounts of a row add up |
| Report.AbsExact | swo_aws_extension/billing/generators/billing_report_rows.py:133 | Summing absolute discounts by account is exact if and only if they share a sign |
| Report.RateOf | swo_aws_extension/billing/generators/billing_report_rows.py:144-148 | The report's rate is always positive |
| Drift.JournalFollowsReport | swo_aws_extension/billing/generators/currency.py:7-20 | On a converting entity the rounded bill of a key is within half a unit per billed metric of the report's sp, up to what is left out or recovered |
| Drift.DefaultBilledDrift | swo_aws_extension/billing/generators/billing_report_rows.py:108-148 | For default-billed metrics, SPP metrics allowed beside them, the drift is at most half a unit per metric |
| Drift.UnconvertedAgreement | swo_aws_extension/billing/generators/billing_report_rows.py:144-148 | Where nothing is converted, journal and report agree if and only if the report's rate is 1 or the group adds up to zero |
| InvoiceIds.FoldFits | swo_aws_extension/billing/generators/invoice.py:23-41 | For a comma-free first id the folded id has at most 20 characters if and only if something was merged or the first id fits |
| InvoiceIds.FixedIffFull | swo_aws_extension/billing/generators/invoice.py:35-41 | A merged id is fixed under a further id if and only if it has no room left |
| InvoiceIds.MarkerIsFinal | swo_aws_extension/billing/generators/invoice.py:38-41 | An overflowing merge ends in ".." and nothing merged afterwards changes it |
| InvoiceIds.FoldMarkerIsFinal | swo_aws_extension/billing/generators/invoice.py:23-41 | Over a whole fold from the first id: once an id overflowed at some position, every longer fold has the value it had there, ending in the marker |
| InvoiceIds.MarkerMeansOverflow | swo_aws_extension/billing/generators/invoice.py:33-41 | Merging a comma-free id into an unmarked one ends in the marker if and only if it overflows |
| InvoiceIds.FoldAbbreviates | swo_aws_extension/billing/generators/invoice.py:23-41 | Ids of at least four characters fold to their first three suffixes, then ".." exactly when there were more |
| InvoiceIds.BuildEntities | swo_aws_extension/billing/generators/invoice.py:165-175 | Exactly the entities that occur, each with all of its ids folded, the currencies of its first summary and any primary flag |
| InvoiceIds.AddSummary | swo_aws_extension/billing/generators/invoice.py:177-205 | A later summary merges its id and may raise the primary flag; a first one starts the entity |
| InvoiceIds.ExtractRates | swo_aws_extension/billing/generators/invoice.py:83-91 | The rates paid in the currency, of one invoicing entity unless none is named |
| InvoiceIds.RateIsHighest | swo_aws_extension/billing/generators/invoice.py:68-73 | The rate is the highest one paid in the currency among the entity's invoices if there are any, else among all, and zero if nothing is paid in the currency |
| InvoiceIds.PaymentOfRate | swo_aws_extension/billing/generators/invoice.py:75-81 | The payment currency is that of the first invoice with the rate, in whatever currency, and USD without one |
| InvoiceIds.KeysTellApart | swo_aws_extension/billing/generators/invoice.py:177-205 | Summaries fall into one entity if and only if they name the same invoicing and billing entity, for colon-free invoicing entities |
| Calendar.NextMonthFormsAgree | swo_aws_extension/models.py:41-59 | Day 28 plus four, the div/mod form and `from_year_month` give the same first of next month on every date |
| Calendar.NextMonthIsNext | swo_aws_extension/flows/steps/create_billing_transfer_invitation.py:128-134 | That date is the next first of a month after the given date |
| Calendar.TransferStartsNextMonth | swo_aws_extension/flows/steps/create_billing_transfer_invitation.py:128-134 | The transfer's timestamp is later than any second of today and at most 31 days from midnight |
| Calendar.EndOfMonthStaysInMonth | swo_aws_extension/flows/steps/terminate.py:170-180 | The end of month minus one millisecond is the last millisecond of today's own month |
| Calendar.PeriodEndsInMonth | swo_aws_extension/models.py:34-39 | The last day of a billing period is the last day of its month |
| Calendar.AcceptedMonthsHaveEnded | swo_aws_extension/management/commands/generate_billing_journals.py:121-142 | A billing month is accepted if and only if it is valid, not before 2025, and ended at least four days before today |
| Calendar.RefusedMonths | swo_aws_extension/management/commands/generate_billing_journals.py:121-142 | Which refusal a month gets, exactly: its year, its number, or that it has not ended |
| Calendar.MinusMilliSubtracts | swo_aws_extension/flows/steps/terminate.py:170-180 | One millisecond earlier on the time line, across midnight as well |
| Calendar.ThreeMonthsLast | swo_aws_extension/swo/mpt/sync/agreement_subscription_syncer.py:260-262 | Three months with day clamping are 89 to 92 days |
| Calendar.ThreeMonthsBoundsMet | swo_aws_extension/swo/mpt/sync/agreement_subscription_syncer.py:260-262 | Both bounds are met |
| Calendar.ThreeMonthsMonotone | swo_aws_extension/swo/mpt/sync/agreement_subscription_syncer.py:260-262 | A countdown set later does not end earlier |
| Calendar.PreviousDayInverts | swo_aws_extension/models.py:34-39 | The day before is undone by the day after |
| Calendar.AddDaysCounts | swo_aws_extension/swo/mpt/sync/agreement_subscription_syncer.py:64-69 | Adding days adds to the calendar's ordinal, across months and leap years |
| Calendar.OrdinalOrders | swo_aws_extension/swo/mpt/sync/agreement_subscription_syncer.py:287 | The ordinal orders dates as the calendar does |
| LinkedAccounts.CollectNewAccounts | swo_aws_extension/aws/client.py:594-609 | The keys not seen before, once each, named by the view or by themselves; the seen set grows by the view's keys |
| LinkedAccounts.GetLinkedAccountsWithUsage | swo_aws_extension/aws/client.py:612-646 | Each account of a readable view exactly once, under the name the first such view gives |
| Countdown.AgreementSubscriptionsSyncer.Process | swo_aws_extension/swo/mpt/sync/agreement_subscription_syncer.py:50-62 | A run changes the subscriptions exactly as `Countdown.Sync` says, all decisions taken on the snapshot |
| Countdown.AgreementSubscriptionsSyncer.EnsureSubscriptions | swo_aws_extension/swo/mpt/sync/agreement_subscription_syncer.py:71-84 | Every account with usage is ensured in order; without product items the run stops before any write |
| Countdown.AgreementSubscriptionsSyncer.EnsureSubscription | swo_aws_extension/swo/mpt/sync/agreement_subscription_syncer.py:89-153 | An existing active subscription is cleared or left; a missing one is created unless dry-running |
| Countdown.AgreementSubscriptionsSyncer.ClearInactivityCountdown | swo_aws_extension/swo/mpt/sync/agreement_subscription_syncer.py:155-180 | Clears the date unless dry-running or the call fails |
| Countdown.AgreementSubscriptionsSyncer.HandleInactiveSubscriptions | swo_aws_extension/swo/mpt/sync/agreement_subscription_syncer.py:257-277 | Sets a date exactly on linked subscriptions without usage and without a date |
| Countdown.AgreementSubscriptionsSyncer.TerminateExpiredSubscriptions | swo_aws_extension/swo/mpt/sync/agreement_subscription_syncer.py:279-296 | Ends exactly the linked subscriptions whose snapshot date has come |
| Countdown.SyncEffect | swo_aws_extension/swo/mpt/sync/agreement_subscription_syncer.py:50-62 | The three passes together have one stated effect on each subscription of the snapshot |
| Countdown.SyncSubscribes | swo_aws_extension/swo/mpt/sync/agreement_subscription_syncer.py:121-153 | Every account with usage that has no active subscription gets one, if the items are found and the creation works |
| Countdown.IdleRunWritesNothing | swo_aws_extension/swo/mpt/sync/agreement_subscription_syncer.py:121-142 | A dry run writes nothing at all, and neither does a run without items for its accounts |
| Countdown.UsageClears | swo_aws_extension/swo/mpt/sync/agreement_subscription_syncer.py:97-120 | Usage before the date has come clears the countdown and keeps the subscription |
| Countdown.FailedCallsChangeNothing | swo_aws_extension/swo/mpt/sync/agreement_subscription_syncer.py:155-180 | A subscription for which no call works stays as it is |
| Countdown.AlwaysOnePerVendor | swo_aws_extension/swo/mpt/sync/agreement_subscription_syncer.py:97-120 | At most one active subscription per vendor, over all runs |
| Countdown.MasterIsSpared | swo_aws_extension/swo/mpt/sync/agreement_subscription_syncer.py:245-255 | The master payer's subscription is never counted down nor terminated |
| Countdown.TerminationExact | swo_aws_extension/swo/mpt/sync/agreement_subscription_syncer.py:279-296 | A run terminates a subscription if and only if it is linked, its snapshot date has come and the call works |
| Countdown.DatesAreExplained | swo_aws_extension/swo/mpt/sync/agreement_subscription_syncer.py:257-277 | Every date comes from the start or from a run that found no usage, and was not cleared since |
| Countdown.CountdownHistory | swo_aws_extension/swo/mpt/sync/agreement_subscription_syncer.py:89-120 | A linked subscription is terminated on day t only if a run on a day s with s + 3 months <= t found no usage and no run in between found any, or it started out with its date |
| Countdown.CountdownLasts | swo_aws_extension/swo/mpt/sync/agreement_subscription_syncer.py:257-277 | Such a countdown has run at least 89 days |
| Countdown.CountdownEnds | swo_aws_extension/swo/mpt/sync/agreement_subscription_syncer.py:257-296 | The countdown does run out: once set on a silent account, its date stays, and the subscription is live after run j if and only if no run up to j was due with a working call |
| Countdown.UnlinkedIsSpared | swo_aws_extension/swo/mpt/sync/agreement_subscription_syncer.py:245-255 | Subscriptions without a vendor account are left alone |
| Countdown.StaleSnapshotTerminates | swo_aws_extension/swo/mpt/sync/agreement_subscription_syncer.py:279-296 | Usage found by the terminating run itself does not save the subscription |
| FinOps.FinOpsEntitlementsProcessor.SyncAgreement | swo_aws_extension/flows/jobs/finops_entitlements_processor.py:44-79 | One agreement's sync changes records and table exactly as `FinOps.Sync` says, cut short by a failed save |
| FinOps.FinOpsEntitlementsProcessor.SynchronizeAccounts | swo_aws_extension/flows/jobs/finops_entitlements_processor.py:114-136 | Every account with usage refreshes its record or gets one |
| FinOps.FinOpsEntitlementsProcessor.SynchronizeAccount | swo_aws_extension/flows/jobs/finops_entitlements_processor.py:237-242 | The record object is refreshed in place and saved |
| FinOps.FinOpsEntitlementsProcessor.ManageTerminatedAccounts | swo_aws_extension/flows/jobs/finops_entitlements_processor.py:81-112 | The terminating pass over the refreshed records |
| FinOps.FinOpsEntitlementsProcessor.ManageRecord | swo_aws_extension/flows/jobs/finops_entitlements_processor.py:87-112 | A record is terminated if it is active, 60 days idle and FinOps agrees; a FinOps error passes it over |
| FinOps.FinOpsEntitlementsProcessor.UpdateStatusAndUsageDate | swo_aws_extension/airtable/finops_table.py:37-44 | The record changes in memory before it is saved |
| FinOps.Find | swo_aws_extension/flows/jobs/finops_entitlements_processor.py:138-144 | The first record of the account, if there is one |
| FinOps.SyncKeepsOnePerAccount | swo_aws_extension/flows/jobs/finops_entitlements_processor.py:127-136 | A sync keeps at most one record per account |
| FinOps.AlwaysOnePerAccount | swo_aws_extension/flows/jobs/finops_entitlements_processor.py:127-136 | The same over all runs, each record keeping its place |
| FinOps.TerminationNeedsSilence | swo_aws_extension/flows/jobs/finops_entitlements_processor.py:81-112 | A record is terminated only if its account was not seen in the run and its last recorded usage is at least 60 days old |
| FinOps.SeenIsRecorded | swo_aws_extension/flows/jobs/finops_entitlements_processor.py:237-242 | A run that is not cut short leaves every seen account active, at the time it was seen |
| FinOps.SyncSettles | swo_aws_extension/flows/jobs/finops_entitlements_processor.py:81-136 | What a sync that is not cut short makes of every record: seen ones active, refreshed and with the entitlement FinOps provides; unseen ones terminated if and only if active, 60 days idle and released by FinOps; else unchanged |
| FinOps.SyncCreates | swo_aws_extension/flows/jobs/finops_entitlements_processor.py:146-158 | Every account seen for the first time has an active record with its entitlement |
| FinOps.FailedSaveEndsSync | swo_aws_extension/flows/jobs/finops_entitlements_processor.py:44-79 | The first failing save ends the sync: the table stays as the accounts before have left it |
| FinOps.TerminationHistory | swo_aws_extension/flows/jobs/finops_entitlements_processor.py:81-112 | Over all runs a record is terminated only 60 days after every usage time it has carried |
| RqlTree.JoinCorrect | swo_aws_extension/swo/rql/query_builder.py:382-393 | The two join operators mean and and or for all operands that are empty or mean what their children mean, doubly inverted leaves included, if and only if the copying shortcut is not taken on a negated node |
| RqlTree.OperandsAreWidest | swo_aws_extension/swo/rql/query_builder.py:395-406 | No wider class will do: beside an undecided operand the law holds for a node that is taken over if and only if that node means what its children mean |
| RqlTree.DoublyInvertedLeaf | swo_aws_extension/swo/rql/query_builder.py:183-186 | `~~leaf` is such an operand, though no built node, and means not the leaf |
| RqlTree.CopyOfDoublyInvertedLeaf | swo_aws_extension/swo/rql/query_builder.py:375-380 | Its copy without the negation is not such an operand in any environment |
| RqlTree.JoinedInFull | swo_aws_extension/swo/rql/query_builder.py:395-406 | Flattening, one-child unwrapping and duplicate removal keep the meaning of a join |
| RqlTree.InvertCorrect | swo_aws_extension/swo/rql/query_builder.py:183-186 | `~` of any node with something to print means not if and only if the node is not a negated leaf |
| RqlTree.AppendedHolds | swo_aws_extension/swo/rql/query_builder.py:395-406 | Appending a node adds its meaning to the connective, whichever branch is taken |
| RqlTree.JoinedGood | swo_aws_extension/swo/rql/query_builder.py:382-393 | Joins of built nodes are built nodes, so the laws apply to any nesting |
| RqlTree.InvertedGood | swo_aws_extension/swo/rql/query_builder.py:183-186 | Inverses of built nodes are built nodes |
| RqlTree.DeMorgan | swo_aws_extension/swo/rql/query_builder.py:183-186 | The builder's two forms of De Morgan's law have the same meaning |
| RqlText.PrintParse | swo_aws_extension/swo/rql/query_builder.py:353-373 | A recursive-descent parser reads the printed text of every printable query with atomic leaves back to the same meaning |
| RqlText.PrintParseExact | swo_aws_extension/swo/rql/query_builder.py:353-373 | Of the queries that the builder makes from atomic leaves, empty ones included, exactly the printable ones are read back in full to their meaning |
| RqlText.InvertedEmptyIsLost | swo_aws_extension/swo/rql/query_builder.py:183-186 | The inverse of an empty query counts as non-empty, and its text cannot be read back |
| RqlText.DocumentedJoins | swo_aws_extension/swo/rql/query_builder.py:353-373 | The text of two joined conditions, and that joining a condition to itself changes nothing |
| RqlText.DocumentedInverses | swo_aws_extension/swo/rql/query_builder.py:353-373 | The text of an inverted condition and of an inverted join |
| RqlText.JoinsFlatten | swo_aws_extension/swo/rql/query_builder.py:382-406 | A condition joined to a longer join is added if the kinds agree and it is not there yet, and else joined to it as a whole |
| RqlText.SingleUnwraps | swo_aws_extension/swo/rql/query_builder.py:395-406 | A join of one condition is joined as that condition |
| RqlTree.OperatorsStayDeep | swo_aws_extension/swo/rql/query_builder.py:382-393 | Whatever the operators build from printable leaves and lookups, in any nesting, is printable |
| RqlTree.OperatorsStayTidy | swo_aws_extension/swo/rql/query_builder.py:395-406 | With empty operands too, the operators stay inside the class for which reading back is decided exactly |
| RqlText.ParsePrinted | swo_aws_extension/swo/rql/query_builder.py:353-373 | It does so in front of any comma, closing parenthesis or end of text |
| RqlText.PrintDeterminesMeaning | swo_aws_extension/swo/rql/query_builder.py:353-373 | Queries that print alike mean alike |
| RqlBuilder.RQLQuery.Append | swo_aws_extension/swo/rql/query_builder.py:395-406 | The children are changed as `RqlTree.Appended` says |
| RqlBuilder.RQLQuery.Join | swo_aws_extension/swo/rql/query_builder.py:382-393 | A fresh query, as `RqlTree.Joined` says; the operands stay as they are |
| RqlBuilder.RQLQuery.Invert | swo_aws_extension/swo/rql/query_builder.py:183-186 | A fresh query, as `RqlTree.Inverted` says |
| RqlBuilder.RQLQuery.Copy | swo_aws_extension/swo/rql/query_builder.py:375-380 | A copy drops the negation and nothing else |
| RqlBuilder.RQLQuery.N | swo_aws_extension/swo/rql/query_builder.py:194-205 | The path grows by the dotted parts of the name until an operator was applied |
| RqlBuilder.RQLQuery.Apply | swo_aws_extension/swo/rql/query_builder.py:333-351 | The expression and field after an operator, or the type error |
| RqlBuilder.RQLQuery.AddLeaves | swo_aws_extension/swo/rql/query_builder.py:146-147 | The constructor's loop adds one leaf per lookup |
| RqlBuilder.FromKwargs | swo_aws_extension/swo/rql/query_builder.py:130-147 | One lookup makes a leaf, several make their conjunction |
| RqlBuilder.ParseKwargs | swo_aws_extension/swo/rql/query_builder.py:7-37 | All lookups parsed in order, or the type error of the first that fails |
| RqlBuilder.LookupsMeanConjunction | swo_aws_extension/swo/rql/query_builder.py:142-147 | Several lookups mean that all of them hold |
| RqlBuilder.Chain | swo_aws_extension/swo/rql/query_builder.py:188-205 | The fluent chain on a new query builds exactly the operator's leaf on the dotted path |
| RqlBuilder.LookupOfPath | swo_aws_extension/swo/rql/query_builder.py:11-29 | `a__b__op=v` is the operator's expression on `a.b`, for segments both styles can carry |
| RqlBuilder.SplitJoined | swo_aws_extension/swo/rql/query_builder.py:11 | Splitting at the double underscore undoes the joining of such segments |
| RqlBuilder.StylesAgreeExactly | swo_aws_extension/swo/rql/query_builder.py:311-351 | Lookup and chain build the same expression, or both refuse, if and only if `null` and `empty` get a Boolean or a falsy value and `like` and `ilike` a string or what neither style takes; every other operator agrees on every value |
| RqlBuilder.StylesAgreeOnAccepted | swo_aws_extension/swo/rql/query_builder.py:311-351 | So on every value that the fluent operator takes, both styles build the same expression |
| RqlBuilder.DocumentedComparisons | swo_aws_extension/swo/rql/query_builder.py:11-29 | The text of comparisons, patterns and lists |
| RqlBuilder.DocumentedTests | swo_aws_extension/swo/rql/query_builder.py:31-35 | The text of tests for null and empty, and `like(field,text)` for the fluent `like` |
| RqlBuilder.DocumentedScalars | swo_aws_extension/swo/rql/query_builder.py:57-70 | Comparisons quote the text of strings, numbers and dates, and true or false for Booleans, under each of the six names |
| RqlBuilder.DocumentedOthers | swo_aws_extension/swo/rql/query_builder.py:23-29 | Patterns take the text unquoted; in and out take the list in parentheses |
| RqlBuilder.DocumentedTruth | swo_aws_extension/swo/rql/query_builder.py:31-35 | A lookup tests for null and empty on the value true alone, the fluent test on every truthy value |
| RqlBuilder.RefusedValues | swo_aws_extension/swo/rql/query_builder.py:40-70 | Which operators refuse which values, exactly |
| RqlBuilder.ScalarsTellApart | swo_aws_extension/swo/rql/query_builder.py:57-75 | Different values of one lookup print differently, apostrophes and backslashes included |
| RqlBuilder.LookupsInOrder | swo_aws_extension/swo/rql/query_builder.py:7-37 | All lookups are parsed by themselves and in order, or one of them is a type error |
| RqlBuilder.DocumentedLookups | swo_aws_extension/swo/rql/query_builder.py:130-147 | The text of one lookup and of two |
| RqlBuilder.QuotedApostrophe | swo_aws_extension/swo/rql/query_builder.py:73-75 | An apostrophe inside a value is escaped |
| RqlBuilder.BareLookup | swo_aws_extension/swo/rql/query_builder.py:12-22 | A lookup without operator is `eq`, unless its last segment reads as an operator |
| RqlBuilder.QuoteRoundTrip | swo_aws_extension/swo/rql/query_builder.py:73-75 | A scanning unquoter undoes the quoting if and only if the value does not end in a backslash |
| RqlBuilder.ComparisonAtomic | swo_aws_extension/swo/rql/query_builder.py:333-337 | A comparison leaf can be read back in a printed query if and only if its value does not end in a backslash |

## Left out

- HTTP, boto3, OAuth, Airtable, CRM, mail and Teams: their answers are parameters of the model.
- The SDK's pipeline, context and update calls, which are not part of the repository: a pipeline is a step list, an update an atomic write or a failure.
- Templates, order errors, ordering-parameter errors, log lines, ticket texts and one-time notifications: they decide nothing in these flows.
- A failure while a ticket's summary is built counts as a failing ticket call.
- The termination pipeline, order draft validation and `has_previous_order`'s query: small case analyses.
- The subscription lookup of a purchase order answers from the subscriptions this order created.
- Repeated SWO jobs: a job whose id was lost with a failed write is created again, and is not counted.
- Row order of the billing report, its context columns, the Excel output, and `AccountUsage.add_metric`.
- Discount values that are not numbers, where `Decimal` raises.
- `AgreementJournalGenerator.run`: fetching, validation and the PLS mismatch records.
- How invoice summaries become rates and amounts beyond `InvoiceIds.Summary`: missing fields read as their defaults, and the organisation totals are plain sums.
- RqlBuilder.RQLQuery.Append: child nodes are values, so a child changed through another reference after it was appended is not modelled.
- RqlBuilder.Chain: path names that collide with attributes of the class are not modelled.
- RqlText.PrintParse: leaves built by `like`, `ilike`, `in` and `out` are covered as far as their text is atomic; which of their values make it so is not characterised.
- Countdown.CountdownHistory: a missing product item list stops the run as a whole; other exceptions inside a run, which the processor logs, are not modelled.
- FinOps.FinOpsEntitlementsProcessor.ManageRecord: the two clock readings of one record are one reading.
- FinOps records with a missing or naive date, on which the comparison raises.
- Pagination of AWS and MPT calls, and the command-line parsing around the billing month.
