/** The daily sync of linked-account subscriptions and its three-month inactivity countdown. */
module Countdown {
  import opened Calendar
  import opened LinkedAccounts

  datatype Option<+T> = None | Some(value: T)

  /** A subscription of the agreement; its position in the agreement's list is its identity. */
  datatype Sub = Sub(vendor: string, live: bool, until: Option<Date>)

  type Subs = seq<Sub>

  /**
   * What one run meets: the linked accounts with usage, the days on which its second and third passes
   * run, and which of its calls succeed.
   */
  datatype Run = Run(
    accounts: seq<string>,
    setDay: Date,
    endDay: Date,
    dryRun: bool,
    itemsFound: bool,
    createOk: set<string>,
    clearOk: set<nat>,
    setOk: set<nat>,
    endOk: set<nat>)

  ghost predicate ValidRun(run: Run) {
    NoDuplicates(run.accounts) && Valid(run.setDay) && Valid(run.endDay)
  }

  /** The first live subscription of the vendor, from position `i` on. */
  function Existing(subs: Subs, vendor: string, i: nat): Option<nat>
    requires i <= |subs|
    ensures Existing(subs, vendor, i).Some? ==>
              var p := Existing(subs, vendor, i).value;
              i <= p < |subs| && subs[p].live && subs[p].vendor == vendor
    ensures Existing(subs, vendor, i).None? ==>
              forall p :: i <= p < |subs| ==> !(subs[p].live && subs[p].vendor == vendor)
    decreases |subs| - i
  {
    if i == |subs| then None
    else if subs[i].live && subs[i].vendor == vendor then Some(i)
    else Existing(subs, vendor, i + 1)
  }

  /** An active subscription of a linked account, not of the master payer. */
  predicate Linked(sub: Sub, master: string) {
    sub.live && sub.vendor != "" && sub.vendor != master
  }

  /** `_ensure_subscription`: decided on the snapshot, written to the server. */
  function Ensure(subs: Subs, snapshot: Subs, account: string, run: Run): Subs {
    match Existing(snapshot, account, 0)
    case Some(p) =>
      if snapshot[p].until.Some? && !run.dryRun && p in run.clearOk && p < |subs|
      then subs[p := subs[p].(until := None)]
      else subs
    case None =>
      if !run.dryRun && account in run.createOk then subs + [Sub(account, true, None)] else subs
  }

  function EnsureTo(snapshot: Subs, run: Run, n: nat): Subs
    requires n <= |run.accounts|
  {
    if n == 0 then snapshot else Ensure(EnsureTo(snapshot, run, n - 1), snapshot, run.accounts[n - 1], run)
  }

  predicate Sets(snapshot: Subs, p: nat, run: Run, master: string)
    requires p < |snapshot|
  {
    && Linked(snapshot[p], master) && snapshot[p].vendor !in run.accounts
    && snapshot[p].until.None? && !run.dryRun && p in run.setOk
  }

  /** `_handle_inactive_subscriptions` over the first `n` subscriptions of the snapshot. */
  function SetTo(subs: Subs, snapshot: Subs, run: Run, master: string, n: nat): Subs
    requires n <= |snapshot| <= |subs| && Valid(run.setDay)
    ensures |SetTo(subs, snapshot, run, master, n)| == |subs|
  {
    if n == 0 then subs
    else
      var before := SetTo(subs, snapshot, run, master, n - 1);
      if Sets(snapshot, n - 1, run, master)
      then before[n - 1 := before[n - 1].(until := Some(AddThreeMonths(run.setDay)))]
      else before
  }

  predicate Ends(snapshot: Subs, p: nat, run: Run, master: string)
    requires p < |snapshot|
  {
    && Linked(snapshot[p], master) && snapshot[p].until.Some? && !Before(run.endDay, snapshot[p].until.value)
    && !run.dryRun && p in run.endOk
  }

  /** `_terminate_expired_subscriptions` over the first `n` subscriptions of the snapshot. */
  function EndTo(subs: Subs, snapshot: Subs, run: Run, master: string, n: nat): Subs
    requires n <= |snapshot| <= |subs|
    ensures |EndTo(subs, snapshot, run, master, n)| == |subs|
  {
    if n == 0 then subs
    else
      var before := EndTo(subs, snapshot, run, master, n - 1);
      if Ends(snapshot, n - 1, run, master) then before[n - 1 := before[n - 1].(live := false)] else before
  }

  /** Without its product items the run stops before any write. */
  predicate Aborts(run: Run) {
    run.accounts != [] && !run.itemsFound
  }

  /** The server after one run. */
  function Sync(subs: Subs, run: Run, master: string): Subs
    requires Valid(run.setDay)
  {
    if Aborts(run) then subs
    else
      EnsureGrows(subs, run, |run.accounts|);
      var ensured := EnsureTo(subs, run, |run.accounts|);
      EndTo(SetTo(ensured, subs, run, master, |subs|), subs, run, master, |subs|)
  }

  lemma {:induction false} EnsureGrows(snapshot: Subs, run: Run, n: nat)
    requires n <= |run.accounts|
    ensures |snapshot| <= |EnsureTo(snapshot, run, n)|
  {
    if n > 0 {
      EnsureGrows(snapshot, run, n - 1);
    }
  }

  /** The API's view of the agreement, and the syncer working on a snapshot of it. */
  class AgreementSubscriptionsSyncer {
    var server: Subs
    const master: string

    constructor (server: Subs, master: string)
      ensures this.server == server && this.master == master
    {
      this.server := server;
      this.master := master;
    }

    method EnsureSubscription(snapshot: Subs, account: string, run: Run)
      requires |snapshot| <= |server|
      modifies this`server
      ensures server == Ensure(old(server), snapshot, account, run)
    {
      var existing := Existing(snapshot, account, 0);
      if existing.Some? {
        if snapshot[existing.value].until.Some? {
          ClearInactivityCountdown(existing.value, run);
        }
        return;
      }
      if run.dryRun {
        return;
      }
      if account in run.createOk {
        server := server + [Sub(account, true, None)];
      }
    }

    method ClearInactivityCountdown(p: nat, run: Run)
      requires p < |server|
      modifies this`server
      ensures server ==
        if !run.dryRun && p in run.clearOk then old(server)[p := old(server)[p].(until := None)] else old(server)
    {
      if run.dryRun {
        return;
      }
      if p in run.clearOk {
        server := server[p := server[p].(until := None)];
      }
    }

    /** `_sync_subscriptions` up to the inactive ones; false if the run aborts. */
    method EnsureSubscriptions(snapshot: Subs, run: Run) returns (ok: bool)
      requires server == snapshot
      modifies this`server
      ensures ok == !Aborts(run)
      ensures server == if ok then EnsureTo(snapshot, run, |run.accounts|) else snapshot
    {
      if run.accounts != [] {
        if !run.itemsFound {
          return false;
        }
        for n := 0 to |run.accounts|
          invariant server == EnsureTo(snapshot, run, n)
        {
          EnsureGrows(snapshot, run, n);
          EnsureSubscription(snapshot, run.accounts[n], run);
        }
      }
      return true;
    }

    method HandleInactiveSubscriptions(snapshot: Subs, run: Run)
      requires |snapshot| <= |server| && Valid(run.setDay)
      modifies this`server
      ensures server == SetTo(old(server), snapshot, run, master, |snapshot|)
    {
      var terminationDate := AddThreeMonths(run.setDay);
      for p := 0 to |snapshot|
        invariant server == SetTo(old(server), snapshot, run, master, p)
      {
        if !Linked(snapshot[p], master) || snapshot[p].vendor in run.accounts {
          continue;
        }
        if snapshot[p].until.Some? {
          continue;
        }
        if !run.dryRun && p in run.setOk {
          server := server[p := server[p].(until := Some(terminationDate))];
        }
      }
    }

    method TerminateExpiredSubscriptions(snapshot: Subs, run: Run)
      requires |snapshot| <= |server|
      modifies this`server
      ensures server == EndTo(old(server), snapshot, run, master, |snapshot|)
    {
      for p := 0 to |snapshot|
        invariant server == EndTo(old(server), snapshot, run, master, p)
      {
        if !Linked(snapshot[p], master) || snapshot[p].until.None? {
          continue;
        }
        if Before(run.endDay, snapshot[p].until.value) {
          continue;
        }
        if !run.dryRun && p in run.endOk {
          server := server[p := server[p].(live := false)];
        }
      }
    }

    /** `_process`: every decision is taken on the agreement as it was read before the run. */
    method Process(run: Run)
      requires Valid(run.setDay)
      modifies this`server
      ensures server == Sync(old(server), run, master)
    {
      var snapshot := server;
      var ok := EnsureSubscriptions(snapshot, run);
      if !ok {
        return;
      }
      EnsureGrows(snapshot, run, |run.accounts|);
      HandleInactiveSubscriptions(snapshot, run);
      TerminateExpiredSubscriptions(snapshot, run);
    }
  }

  /** The countdown of a subscription is cleared when its account turns up with usage. */
  predicate Clears(snapshot: Subs, p: nat, run: Run)
    requires p < |snapshot|
  {
    && snapshot[p].vendor in run.accounts && Existing(snapshot, snapshot[p].vendor, 0) == Some(p)
    && snapshot[p].until.Some? && !run.dryRun && p in run.clearOk
  }

  /** What one run makes of one subscription, said without the three passes. */
  function Effect(snapshot: Subs, p: nat, run: Run, master: string): Sub
    requires p < |snapshot| && Valid(run.setDay)
  {
    if Aborts(run) then snapshot[p]
    else
      Sub(snapshot[p].vendor,
          snapshot[p].live && !Ends(snapshot, p, run, master),
          if Sets(snapshot, p, run, master) then Some(AddThreeMonths(run.setDay))
          else if Clears(snapshot, p, run) then None
          else snapshot[p].until)
  }

  lemma {:induction false} EnsureAt(snapshot: Subs, run: Run, n: nat, p: nat)
    requires n <= |run.accounts| && p < |snapshot|
    ensures |snapshot| <= |EnsureTo(snapshot, run, n)|
    ensures EnsureTo(snapshot, run, n)[p] ==
            if snapshot[p].vendor in run.accounts[..n] && Existing(snapshot, snapshot[p].vendor, 0) == Some(p)
               && snapshot[p].until.Some? && !run.dryRun && p in run.clearOk
            then snapshot[p].(until := None) else snapshot[p]
  {
    if n > 0 {
      EnsureAt(snapshot, run, n - 1, p);
      assert run.accounts[..n] == run.accounts[..n - 1] + [run.accounts[n - 1]];
    }
  }

  lemma {:induction false} SetAt(subs: Subs, snapshot: Subs, run: Run, master: string, n: nat, p: nat)
    requires n <= |snapshot| <= |subs| && p < |subs| && Valid(run.setDay)
    ensures SetTo(subs, snapshot, run, master, n)[p] ==
            if p < n && Sets(snapshot, p, run, master) then subs[p].(until := Some(AddThreeMonths(run.setDay)))
            else subs[p]
  {
    if n > 0 {
      SetAt(subs, snapshot, run, master, n - 1, p);
    }
  }

  lemma {:induction false} EndAt(subs: Subs, snapshot: Subs, run: Run, master: string, n: nat, p: nat)
    requires n <= |snapshot| <= |subs| && p < |subs|
    ensures EndTo(subs, snapshot, run, master, n)[p] ==
            if p < n && Ends(snapshot, p, run, master) then subs[p].(live := false) else subs[p]
  {
    if n > 0 {
      EndAt(subs, snapshot, run, master, n - 1, p);
    }
  }

  /** The three passes together have exactly the stated effect on every subscription of the snapshot. */
  lemma SyncEffect(snapshot: Subs, run: Run, master: string, p: nat)
    requires p < |snapshot| && Valid(run.setDay)
    ensures p < |Sync(snapshot, run, master)|
    ensures Sync(snapshot, run, master)[p] == Effect(snapshot, p, run, master)
  {
    if !Aborts(run) {
      EnsureAt(snapshot, run, |run.accounts|, p);
      assert run.accounts[..|run.accounts|] == run.accounts;
      var ensured := EnsureTo(snapshot, run, |run.accounts|);
      SetAt(ensured, snapshot, run, master, |snapshot|, p);
      EndAt(SetTo(ensured, snapshot, run, master, |snapshot|), snapshot, run, master, |snapshot|, p);
    }
  }

  /** Subscriptions beyond the snapshot are live, carry no date, and are for accounts that had none. */
  lemma {:induction false} CreatedAt(snapshot: Subs, run: Run, n: nat, p: nat)
    requires n <= |run.accounts| && |snapshot| <= p < |EnsureTo(snapshot, run, n)|
    ensures
      var sub := EnsureTo(snapshot, run, n)[p];
      && sub.live && sub.until.None? && sub.vendor in run.accounts[..n]
      && !run.dryRun && sub.vendor in run.createOk
      && Existing(snapshot, sub.vendor, 0).None?
  {
    if n > 0 {
      EnsureGrows(snapshot, run, n - 1);
      assert run.accounts[..n] == run.accounts[..n - 1] + [run.accounts[n - 1]];
      if p < |EnsureTo(snapshot, run, n - 1)| {
        CreatedAt(snapshot, run, n - 1, p);
      }
    }
  }

  lemma {:induction false} CreatedOnce(snapshot: Subs, run: Run, n: nat, p: nat, q: nat)
    requires n <= |run.accounts| && NoDuplicates(run.accounts)
    requires |snapshot| <= p < q < |EnsureTo(snapshot, run, n)|
    ensures EnsureTo(snapshot, run, n)[p].vendor != EnsureTo(snapshot, run, n)[q].vendor
  {
    EnsureGrows(snapshot, run, n - 1);
    if q < |EnsureTo(snapshot, run, n - 1)| {
      CreatedOnce(snapshot, run, n - 1, p, q);
    } else {
      CreatedAt(snapshot, run, n - 1, p);
    }
  }

  lemma SyncCreated(snapshot: Subs, run: Run, master: string, p: nat)
    requires Valid(run.setDay) && |snapshot| <= p < |Sync(snapshot, run, master)|
    ensures !Aborts(run) && |Sync(snapshot, run, master)| == |EnsureTo(snapshot, run, |run.accounts|)|
    ensures Sync(snapshot, run, master)[p] == EnsureTo(snapshot, run, |run.accounts|)[p]
    ensures Sync(snapshot, run, master)[p].until.None?
    ensures Existing(snapshot, Sync(snapshot, run, master)[p].vendor, 0).None?
  {
    EnsureGrows(snapshot, run, |run.accounts|);
    var ensured := EnsureTo(snapshot, run, |run.accounts|);
    SetAt(ensured, snapshot, run, master, |snapshot|, p);
    EndAt(SetTo(ensured, snapshot, run, master, |snapshot|), snapshot, run, master, |snapshot|, p);
    CreatedAt(snapshot, run, |run.accounts|, p);
  }

  /** At most one active subscription per vendor. */
  ghost predicate OnePerVendor(subs: Subs) {
    forall p, q :: 0 <= p < q < |subs| && subs[p].live && subs[q].live ==> subs[p].vendor != subs[q].vendor
  }

  lemma OnePerVendorPair(snapshot: Subs, run: Run, master: string, p: nat, q: nat)
    requires ValidRun(run) && OnePerVendor(snapshot)
    requires p < q < |Sync(snapshot, run, master)|
    requires Sync(snapshot, run, master)[p].live && Sync(snapshot, run, master)[q].live
    ensures Sync(snapshot, run, master)[p].vendor != Sync(snapshot, run, master)[q].vendor
  {
    if p < |snapshot| {
      SyncEffect(snapshot, run, master, p);
    }
    if q < |snapshot| {
      SyncEffect(snapshot, run, master, q);
    } else {
      SyncCreated(snapshot, run, master, q);
      if p >= |snapshot| {
        SyncCreated(snapshot, run, master, p);
        CreatedOnce(snapshot, run, |run.accounts|, p, q);
      }
    }
  }

  lemma SyncKeepsOnePerVendor(subs: Subs, run: Run, master: string)
    requires ValidRun(run) && OnePerVendor(subs)
    ensures OnePerVendor(Sync(subs, run, master))
  {
    var after := Sync(subs, run, master);
    forall p, q | 0 <= p < q < |after| && after[p].live && after[q].live ensures after[p].vendor != after[q].vendor {
      OnePerVendorPair(subs, run, master, p, q);
    }
  }

  /** The server after the first `n` runs. */
  function After(start: Subs, runs: seq<Run>, master: string, n: nat): Subs
    requires n <= |runs|
    requires forall i :: 0 <= i < |runs| ==> Valid(runs[i].setDay)
  {
    if n == 0 then start else Sync(After(start, runs, master, n - 1), runs[n - 1], master)
  }

  ghost predicate ValidRuns(runs: seq<Run>) {
    forall i :: 0 <= i < |runs| ==> ValidRun(runs[i])
  }

  /** At most one active subscription per vendor, over all runs. */
  lemma {:induction false} AlwaysOnePerVendor(start: Subs, runs: seq<Run>, master: string, n: nat)
    requires ValidRuns(runs) && n <= |runs| && OnePerVendor(start)
    ensures OnePerVendor(After(start, runs, master, n))
  {
    if n > 0 {
      AlwaysOnePerVendor(start, runs, master, n - 1);
      SyncKeepsOnePerVendor(After(start, runs, master, n - 1), runs[n - 1], master);
    }
  }

  lemma {:induction false} AfterGrows(start: Subs, runs: seq<Run>, master: string, i: nat, n: nat)
    requires ValidRuns(runs) && i <= n <= |runs|
    ensures |After(start, runs, master, i)| <= |After(start, runs, master, n)|
    decreases n - i
  {
    if i < n {
      AfterGrows(start, runs, master, i, n - 1);
      SyncGrows(After(start, runs, master, n - 1), runs[n - 1], master);
    }
  }

  lemma SyncGrows(subs: Subs, run: Run, master: string)
    requires Valid(run.setDay)
    ensures |subs| <= |Sync(subs, run, master)|
  {
    EnsureGrows(subs, run, |run.accounts|);
  }

  /** The master payer's subscription is never counted down nor terminated. */
  lemma {:induction false} MasterIsSpared(start: Subs, runs: seq<Run>, master: string, n: nat, p: nat)
    requires ValidRuns(runs) && n <= |runs| && p < |start| && start[p].vendor == master
    ensures p < |After(start, runs, master, n)|
    ensures
      var now := After(start, runs, master, n)[p];
      now.vendor == master && now.live == start[p].live && (now.until == start[p].until || now.until.None?)
  {
    if n > 0 {
      MasterIsSpared(start, runs, master, n - 1, p);
      SyncEffect(After(start, runs, master, n - 1), runs[n - 1], master, p);
    }
  }

  /** Whether subscription `p` is live before run `j` and not after it. */
  ghost predicate TerminatedIn(start: Subs, runs: seq<Run>, master: string, j: nat, p: nat)
    requires ValidRuns(runs) && j < |runs|
  {
    && p < |After(start, runs, master, j)| && After(start, runs, master, j)[p].live
    && p < |After(start, runs, master, j + 1)| && !After(start, runs, master, j + 1)[p].live
  }

  /** A run terminates a subscription exactly when the snapshot holds an expired date for it and the call works. */
  lemma TerminationExact(start: Subs, runs: seq<Run>, master: string, j: nat, p: nat)
    requires ValidRuns(runs) && j < |runs| && p < |After(start, runs, master, j)|
    ensures TerminatedIn(start, runs, master, j, p) <==>
            !Aborts(runs[j]) && Ends(After(start, runs, master, j), p, runs[j], master)
  {
    SyncEffect(After(start, runs, master, j), runs[j], master, p);
  }

  /** No run from `i` up to but not including `j` cleared the countdown of `p`. */
  ghost predicate Uncleared(start: Subs, runs: seq<Run>, master: string, i: nat, j: nat, p: nat)
    requires ValidRuns(runs) && j <= |runs|
  {
    forall k :: i <= k < j && p < |After(start, runs, master, k)| ==>
      Aborts(runs[k]) || !Clears(After(start, runs, master, k), p, runs[k])
  }

  /** Run `i` started the countdown of `p` that ends on `d`, having found no usage. */
  ghost predicate StartedIn(start: Subs, runs: seq<Run>, master: string, i: nat, p: nat, d: Date)
    requires ValidRuns(runs) && i < |runs|
  {
    && p < |After(start, runs, master, i)|
    && !Aborts(runs[i])
    && Sets(After(start, runs, master, i), p, runs[i], master)
    && d == AddThreeMonths(runs[i].setDay)
  }

  /** Where the date came from: the start, or the run that set it; and nobody cleared it since. */
  ghost predicate Explained(start: Subs, runs: seq<Run>, master: string, n: nat, p: nat, d: Date)
    requires ValidRuns(runs) && n <= |runs|
  {
    || (p < |start| && start[p].until == Some(d) && Uncleared(start, runs, master, 0, n, p))
    || exists i :: 0 <= i < n && StartedIn(start, runs, master, i, p, d) && Uncleared(start, runs, master, i, n, p)
  }

  lemma UnclearedOneMore(start: Subs, runs: seq<Run>, master: string, i: nat, n: nat, p: nat)
    requires ValidRuns(runs) && i <= n < |runs| && p < |After(start, runs, master, n)|
    requires Uncleared(start, runs, master, i, n, p)
    requires Aborts(runs[n]) || !Clears(After(start, runs, master, n), p, runs[n])
    ensures Uncleared(start, runs, master, i, n + 1, p)
  {
  }

  /** A date on a subscription is always explained by the history. */
  lemma {:induction false} DatesAreExplained(start: Subs, runs: seq<Run>, master: string, n: nat, p: nat)
    requires ValidRuns(runs) && n <= |runs| && p < |After(start, runs, master, n)|
    requires After(start, runs, master, n)[p].until.Some?
    ensures Explained(start, runs, master, n, p, After(start, runs, master, n)[p].until.value)
    decreases n, 1
  {
    if n > 0 {
      var before := After(start, runs, master, n - 1);
      if p >= |before| {
        SyncCreated(before, runs[n - 1], master, p);
        assert false;
      } else {
        SyncEffect(before, runs[n - 1], master, p);
        SyncGrows(before, runs[n - 1], master);
        DateStep(start, runs, master, n - 1, p);
      }
    }
  }

  lemma DateStep(start: Subs, runs: seq<Run>, master: string, n: nat, p: nat)
    requires ValidRuns(runs) && n < |runs| && p < |After(start, runs, master, n)|
    requires |After(start, runs, master, n)| <= |After(start, runs, master, n + 1)|
    requires After(start, runs, master, n + 1)[p] == Effect(After(start, runs, master, n), p, runs[n], master)
    requires After(start, runs, master, n + 1)[p].until.Some?
    ensures Explained(start, runs, master, n + 1, p, After(start, runs, master, n + 1)[p].until.value)
    decreases n + 1, 0
  {
    var before, d := After(start, runs, master, n), After(start, runs, master, n + 1)[p].until.value;
    if !Aborts(runs[n]) && Sets(before, p, runs[n], master) {
      assert StartedIn(start, runs, master, n, p, d);
      assert Uncleared(start, runs, master, n, n + 1, p);
    } else {
      DatesAreExplained(start, runs, master, n, p);
      if p < |start| && start[p].until == Some(d) && Uncleared(start, runs, master, 0, n, p) {
        UnclearedOneMore(start, runs, master, 0, n, p);
      } else {
        var i :| 0 <= i < n && StartedIn(start, runs, master, i, p, d) && Uncleared(start, runs, master, i, n, p);
        UnclearedOneMore(start, runs, master, i, n, p);
      }
    }
  }

  /** All calls of the runs succeed, as they do in the promise about the countdown. */
  ghost predicate AllSucceed(start: Subs, runs: seq<Run>, master: string)
    requires ValidRuns(runs)
  {
    forall k :: 0 <= k < |runs| ==>
      !runs[k].dryRun && !Aborts(runs[k])
      && forall p :: 0 <= p < |After(start, runs, master, k)| ==> p in runs[k].clearOk
  }

  /** A subscription keeps its vendor, and once it is not live it stays so. */
  lemma {:induction false} LiveBefore(start: Subs, runs: seq<Run>, master: string, k: nat, j: nat, p: nat)
    requires ValidRuns(runs) && k <= j <= |runs| && p < |After(start, runs, master, k)|
    ensures p < |After(start, runs, master, j)|
    ensures After(start, runs, master, j)[p].vendor == After(start, runs, master, k)[p].vendor
    ensures After(start, runs, master, j)[p].live ==> After(start, runs, master, k)[p].live
    decreases j - k
  {
    if k < j {
      LiveBefore(start, runs, master, k, j - 1, p);
      SyncEffect(After(start, runs, master, j - 1), runs[j - 1], master, p);
    }
  }

  /** A date that nobody clears stays. */
  lemma {:induction false} StaysDated(start: Subs, runs: seq<Run>, master: string, i: nat, k: nat, p: nat)
    requires ValidRuns(runs) && i <= k <= |runs| && p < |After(start, runs, master, i)|
    requires After(start, runs, master, i)[p].until.Some? && Uncleared(start, runs, master, i, k, p)
    ensures p < |After(start, runs, master, k)|
    ensures After(start, runs, master, k)[p].until == After(start, runs, master, i)[p].until
    decreases k - i
  {
    if i < k {
      StaysDated(start, runs, master, i, k - 1, p);
      SyncEffect(After(start, runs, master, k - 1), runs[k - 1], master, p);
    }
  }

  lemma OnlyExisting(subs: Subs, p: nat)
    requires OnePerVendor(subs) && p < |subs| && subs[p].live
    ensures Existing(subs, subs[p].vendor, 0) == Some(p)
  {
  }

  /** If every call succeeds, a dated subscription that nobody clears belongs to an account without usage. */
  lemma UnclearedMeansUnused(start: Subs, runs: seq<Run>, master: string, i: nat, j: nat, p: nat)
    requires ValidRuns(runs) && i <= j <= |runs| && OnePerVendor(start) && AllSucceed(start, runs, master)
    requires p < |After(start, runs, master, i)| && p < |After(start, runs, master, j)|
    requires After(start, runs, master, i)[p].until.Some? && Uncleared(start, runs, master, i, j, p)
    requires After(start, runs, master, j)[p].live
    ensures forall k :: i <= k < j ==> After(start, runs, master, j)[p].vendor !in runs[k].accounts
  {
    forall k | i <= k < j ensures After(start, runs, master, j)[p].vendor !in runs[k].accounts {
      StaysDated(start, runs, master, i, k, p);
      LiveBefore(start, runs, master, k, j, p);
      AlwaysOnePerVendor(start, runs, master, k);
      OnlyExisting(After(start, runs, master, k), p);
    }
  }

  /** Run `i` found no usage, its countdown was over by the terminating run `j`, and none between found any. */
  ghost predicate CountedDown(runs: seq<Run>, i: nat, j: nat, vendor: string)
    requires ValidRuns(runs) && i < j < |runs|
  {
    && !Before(runs[j].endDay, AddThreeMonths(runs[i].setDay))
    && forall k :: i <= k < j ==> vendor !in runs[k].accounts
  }

  lemma StartedMeansCountedDown(start: Subs, runs: seq<Run>, master: string, i: nat, j: nat, p: nat, d: Date)
    requires ValidRuns(runs) && i < j < |runs| && OnePerVendor(start) && AllSucceed(start, runs, master)
    requires StartedIn(start, runs, master, i, p, d) && Uncleared(start, runs, master, i, j, p)
    requires p < |After(start, runs, master, j)| && After(start, runs, master, j)[p].live
    requires !Before(runs[j].endDay, d)
    ensures CountedDown(runs, i, j, After(start, runs, master, j)[p].vendor)
  {
    AfterStarted(start, runs, master, i, p, d);
    LiveBefore(start, runs, master, i, j, p);
    UnclearedMeansUnused(start, runs, master, i + 1, j, p);
    forall k | i <= k < j ensures After(start, runs, master, j)[p].vendor !in runs[k].accounts {
      if k > i {
        assert i + 1 <= k < j;
      }
    }
  }

  lemma AfterStarted(start: Subs, runs: seq<Run>, master: string, i: nat, p: nat, d: Date)
    requires ValidRuns(runs) && i < |runs| && StartedIn(start, runs, master, i, p, d)
    ensures p < |After(start, runs, master, i + 1)|
    ensures After(start, runs, master, i + 1)[p].until == Some(d)
    ensures After(start, runs, master, i)[p].vendor !in runs[i].accounts
  {
    SyncEffect(After(start, runs, master, i), runs[i], master, p);
  }

  /**
   * A linked subscription is terminated on day t only if a run on a day s with s + 3 months <= t found no
   * usage and no run from then on, before the terminating one, found any; or if it started out with its date.
   */
  lemma CountdownHistory(start: Subs, runs: seq<Run>, master: string, j: nat, p: nat)
    requires ValidRuns(runs) && j < |runs| && OnePerVendor(start)
    requires AllSucceed(start, runs, master)
    requires TerminatedIn(start, runs, master, j, p)
    ensures
      var vendor := After(start, runs, master, j)[p].vendor;
      && vendor != master
      && ((p < |start| && start[p].until.Some? && forall k :: 0 <= k < j ==> vendor !in runs[k].accounts)
          || exists i :: 0 <= i < j && CountedDown(runs, i, j, vendor))
  {
    TerminationExact(start, runs, master, j, p);
    DatesAreExplained(start, runs, master, j, p);
    var d := After(start, runs, master, j)[p].until.value;
    if i: nat :| i < j && StartedIn(start, runs, master, i, p, d) && Uncleared(start, runs, master, i, j, p) {
      StartedMeansCountedDown(start, runs, master, i, j, p, d);
    } else {
      UnclearedMeansUnused(start, runs, master, 0, j, p);
    }
  }

  /** Such a countdown has run for at least 89 days. */
  lemma CountdownLasts(runs: seq<Run>, i: nat, j: nat, vendor: string)
    requires ValidRuns(runs) && i < j < |runs| && CountedDown(runs, i, j, vendor)
    ensures Ordinal(runs[i].setDay) + 89 <= Ordinal(runs[j].endDay)
  {
    ThreeMonthsLast(runs[i].setDay);
    OrdinalOrders(runs[j].endDay, AddThreeMonths(runs[i].setDay));
  }

  /**
   * Usage found by the terminating run itself does not save the subscription: the run clears the date
   * and, on its stale snapshot, terminates all the same.
   */
  lemma StaleSnapshotTerminates(snapshot: Subs, p: nat, run: Run, master: string)
    requires Valid(run.setDay) && p < |snapshot| && !Aborts(run)
    requires Clears(snapshot, p, run) && Ends(snapshot, p, run, master)
    ensures p < |Sync(snapshot, run, master)|
    ensures Sync(snapshot, run, master)[p] == Sub(snapshot[p].vendor, false, None)
  {
    SyncEffect(snapshot, run, master, p);
  }

  /** Whether a subscription of the vendor is active. */
  predicate Subscribed(subs: Subs, vendor: string) {
    exists p :: 0 <= p < |subs| && subs[p].live && subs[p].vendor == vendor
  }

  /** Every account that was to be ensured and had no subscription has got one. */
  lemma {:induction false} EnsureCreates(snapshot: Subs, run: Run, n: nat, i: nat)
    requires i < n <= |run.accounts| && !run.dryRun && run.accounts[i] in run.createOk
    requires !Subscribed(snapshot, run.accounts[i])
    ensures exists p :: |snapshot| <= p < |EnsureTo(snapshot, run, n)|
                     && EnsureTo(snapshot, run, n)[p] == Sub(run.accounts[i], true, None)
  {
    var before, after := EnsureTo(snapshot, run, n - 1), EnsureTo(snapshot, run, n);
    EnsureGrows(snapshot, run, n - 1);
    if i == n - 1 {
      assert after[|before|] == Sub(run.accounts[i], true, None);
    } else {
      EnsureCreates(snapshot, run, n - 1, i);
      var p :| |snapshot| <= p < |before| && before[p] == Sub(run.accounts[i], true, None);
      EnsureKeepsRest(before, snapshot, run.accounts[n - 1], run, p);
    }
  }

  lemma EnsureKeepsRest(subs: Subs, snapshot: Subs, account: string, run: Run, p: nat)
    requires |snapshot| <= p < |subs|
    ensures p < |Ensure(subs, snapshot, account, run)| && Ensure(subs, snapshot, account, run)[p] == subs[p]
  {
  }

  /** A run subscribes every account with usage that had no active subscription, if the creation works. */
  lemma SyncSubscribes(subs: Subs, run: Run, master: string, i: nat)
    requires Valid(run.setDay) && i < |run.accounts|
    requires run.itemsFound && !run.dryRun && run.accounts[i] in run.createOk
    requires !Subscribed(subs, run.accounts[i])
    ensures exists p :: |subs| <= p < |Sync(subs, run, master)|
                     && Sync(subs, run, master)[p] == Sub(run.accounts[i], true, None)
  {
    var ensured := EnsureTo(subs, run, |run.accounts|);
    EnsureCreates(subs, run, |run.accounts|, i);
    var p :| |subs| <= p < |ensured| && ensured[p] == Sub(run.accounts[i], true, None);
    EnsureGrows(subs, run, |run.accounts|);
    SetAt(ensured, subs, run, master, |subs|, p);
    EndAt(SetTo(ensured, subs, run, master, |subs|), subs, run, master, |subs|, p);
    assert Sync(subs, run, master)[p] == ensured[p];
  }

  /** A dry run writes nothing, and neither does a run that does not find the items for its accounts. */
  lemma IdleRunWritesNothing(subs: Subs, run: Run, master: string)
    requires Valid(run.setDay)
    requires run.dryRun || (run.accounts != [] && !run.itemsFound)
    ensures Sync(subs, run, master) == subs
  {
    if run.dryRun && !Aborts(run) {
      DryEnsure(subs, run, |run.accounts|);
      DryPasses(subs, run, master, |subs|);
    }
  }

  lemma {:induction false} DryEnsure(snapshot: Subs, run: Run, n: nat)
    requires run.dryRun && n <= |run.accounts|
    ensures EnsureTo(snapshot, run, n) == snapshot
  {
    if n > 0 {
      DryEnsure(snapshot, run, n - 1);
    }
  }

  lemma {:induction false} DryPasses(subs: Subs, run: Run, master: string, n: nat)
    requires run.dryRun && n <= |subs| && Valid(run.setDay)
    ensures SetTo(subs, subs, run, master, n) == subs && EndTo(subs, subs, run, master, n) == subs
  {
    if n > 0 {
      DryPasses(subs, run, master, n - 1);
    }
  }

  /** Usage before the date has come clears the countdown, and the subscription lives on. */
  lemma UsageClears(subs: Subs, run: Run, master: string, p: nat)
    requires Valid(run.setDay) && OnePerVendor(subs) && p < |subs|
    requires subs[p].live && subs[p].until.Some? && subs[p].vendor in run.accounts
    requires run.itemsFound && !run.dryRun && p in run.clearOk && Before(run.endDay, subs[p].until.value)
    ensures p < |Sync(subs, run, master)|
    ensures Sync(subs, run, master)[p] == Sub(subs[p].vendor, true, None)
  {
    OnlyExisting(subs, p);
    SyncEffect(subs, run, master, p);
  }

  /** A run that works and does not see the account. */
  predicate SilentRun(run: Run, vendor: string) {
    !run.dryRun && (run.accounts == [] || run.itemsFound) && vendor !in run.accounts
  }

  /** The run comes three months after `dated` or later, and its call to end the subscription works. */
  predicate Due(run: Run, dated: Date, p: nat)
    requires Valid(dated)
  {
    !Before(run.endDay, AddThreeMonths(dated)) && p in run.endOk
  }

  /**
   * The countdown runs out. If run `i` dates a linked subscription and no run up to `j` sees its account,
   * the date stays that of run `i`, and the subscription is terminated by the first run that is due.
   */
  lemma {:induction false} CountdownEnds(start: Subs, runs: seq<Run>, master: string, i: nat, j: nat, p: nat)
    requires ValidRuns(runs) && i <= j < |runs| && p < |After(start, runs, master, i)|
    requires
      var sub := After(start, runs, master, i)[p];
      && sub.live && sub.vendor != "" && sub.vendor != master && sub.until.None?
      && p in runs[i].setOk && forall k :: i <= k <= j ==> SilentRun(runs[k], sub.vendor)
    ensures p < |After(start, runs, master, j + 1)|
    ensures
      var sub, now := After(start, runs, master, i)[p], After(start, runs, master, j + 1)[p];
      && now.vendor == sub.vendor && now.until == Some(AddThreeMonths(runs[i].setDay))
      && (now.live <==> forall k :: i < k <= j ==> !Due(runs[k], runs[i].setDay, p))
    decreases j
  {
    var before := After(start, runs, master, j);
    if j > i {
      CountdownEnds(start, runs, master, i, j - 1, p);
    }
    SyncEffect(before, runs[j], master, p);
    if j > i {
      assert (forall k :: i < k <= j ==> !Due(runs[k], runs[i].setDay, p)) <==>
        (forall k :: i < k <= j - 1 ==> !Due(runs[k], runs[i].setDay, p)) && !Due(runs[j], runs[i].setDay, p);
    }
  }

  /** Subscriptions without a vendor account are left alone, like the master payer's. */
  lemma UnlinkedIsSpared(subs: Subs, run: Run, master: string, p: nat)
    requires Valid(run.setDay) && p < |subs| && "" !in run.accounts && subs[p].vendor == ""
    ensures p < |Sync(subs, run, master)| && Sync(subs, run, master)[p] == subs[p]
  {
    SyncEffect(subs, run, master, p);
  }

  /** A subscription of the snapshot for which no call works stays as it is. */
  lemma FailedCallsChangeNothing(subs: Subs, run: Run, master: string, p: nat)
    requires Valid(run.setDay) && p < |subs|
    requires p !in run.clearOk && p !in run.setOk && p !in run.endOk
    ensures p < |Sync(subs, run, master)| && Sync(subs, run, master)[p] == subs[p]
  {
    SyncEffect(subs, run, master, p);
  }
}
