/** The FinOps entitlement records of an agreement, refreshed by usage and terminated after 60 days without. */
module FinOps {
  import opened LinkedAccounts

  datatype Option<+T> = None | Some(value: T)

  datatype Status = Active | Terminated | OtherStatus(name: string)

  /** A record's fields; times are seconds. A record's position in the table is its record id. */
  datatype Row = Row(account: string, status: Status, lastUsage: int, entitlement: Option<string>)

  datatype EntitlementStatus = New | InUse | Ended

  datatype Found = LookupError | Missing | Entitlement(id: string, status: EntitlementStatus)

  /** The clock and what the services answer while one account or one record is handled. */
  datatype Answer = Answer(now: int, found: Found, created: Option<string>, ended: bool, saved: bool)

  /** The accounts with usage and the answers, per account and then per record. */
  datatype Run = Run(accounts: seq<string>, seen: seq<Answer>, expiring: seq<Answer>)

  const SIXTY_DAYS := 60 * 86400

  /** The records in memory, the table behind them, and whether a failed save has ended the run. */
  datatype Books = Books(memory: seq<Row>, table: seq<Row>, stopped: bool)

  /** `_find_existing_entitlement`, from position `i` on. */
  function Find(rows: seq<Row>, account: string, i: nat): (r: Option<nat>)
    requires i <= |rows|
    ensures r.Some? ==> i <= r.value < |rows| && rows[r.value].account == account
    ensures r.Some? ==> forall p :: i <= p < r.value ==> rows[p].account != account
    ensures r.None? ==> forall p :: i <= p < |rows| ==> rows[p].account != account
    decreases |rows| - i
  {
    if i == |rows| then None else if rows[i].account == account then Some(i) else Find(rows, account, i + 1)
  }

  /** `_get_or_create_entitlement_in_finops`. */
  function GetOrCreate(a: Answer): Option<string> {
    match a.found
    case LookupError => None
    case Missing => a.created
    case Entitlement(id, status) => if status != Ended then Some(id) else a.created
  }

  function Refreshed(row: Row, a: Answer): Row {
    var e := GetOrCreate(a);
    Row(row.account, Active, a.now, if e.Some? then e else row.entitlement)
  }

  /** One account with usage: refresh its record in memory and in the table, or create one in the table. */
  function Touch(b: Books, account: string, a: Answer): Books
    requires |b.memory| <= |b.table|
  {
    if b.stopped then b
    else
      match Find(b.memory, account, 0)
      case Some(p) =>
        var row := Refreshed(b.memory[p], a);
        Books(b.memory[p := row], if a.saved then b.table[p := row] else b.table, !a.saved)
      case None =>
        Books(b.memory, if a.saved then b.table + [Row(account, Active, a.now, GetOrCreate(a))] else b.table, !a.saved)
  }

  predicate Expired(row: Row, now: int) {
    row.status == Active && row.lastUsage <= now - SIXTY_DAYS
  }

  /** `_terminate_finops_entitlement` without an error. */
  predicate Ends(a: Answer) {
    match a.found
    case LookupError => false
    case Missing => true
    case Entitlement(_, status) => status == Ended || a.ended
  }

  /** One record of the terminating pass. */
  function Expire(b: Books, p: nat, a: Answer): Books
    requires p < |b.memory| <= |b.table|
  {
    if b.stopped || !Expired(b.memory[p], a.now) || !Ends(a) then b
    else
      var row := b.memory[p].(status := Terminated, lastUsage := a.now);
      Books(b.memory[p := row], if a.saved then b.table[p := row] else b.table, !a.saved)
  }

  function TouchTo(b: Books, run: Run, n: nat): (r: Books)
    requires |b.memory| <= |b.table| && n <= |run.accounts| == |run.seen|
    ensures |r.memory| == |b.memory| && |b.table| <= |r.table|
  {
    if n == 0 then b else Touch(TouchTo(b, run, n - 1), run.accounts[n - 1], run.seen[n - 1])
  }

  function ExpireTo(b: Books, run: Run, n: nat): (r: Books)
    requires n <= |b.memory| <= |b.table| && |run.expiring| == |b.memory|
    ensures |r.memory| == |b.memory| && |b.table| == |r.table|
  {
    if n == 0 then b else Expire(ExpireTo(b, run, n - 1), n - 1, run.expiring[n - 1])
  }

  predicate ValidRun(run: Run, table: seq<Row>) {
    |run.accounts| == |run.seen| && |run.expiring| == |table|
  }

  /** One sync of an agreement, from the table as it is read to the table as it is left. */
  function Sync(table: seq<Row>, run: Run): Books
    requires ValidRun(run, table)
  {
    ExpireTo(TouchTo(Books(table, table, false), run, |run.accounts|), run, |table|)
  }

  class FinOpsRecord {
    var account: string
    var status: Status
    var lastUsage: int
    var entitlement: Option<string>
    const recordId: nat

    constructor (row: Row, recordId: nat)
      ensures Value() == row && this.recordId == recordId
    {
      account, status, lastUsage, entitlement := row.account, row.status, row.lastUsage, row.entitlement;
      this.recordId := recordId;
    }

    function Value(): Row
      reads this
    {
      Row(account, status, lastUsage, entitlement)
    }
  }

  function Values(records: seq<FinOpsRecord>): (rows: seq<Row>)
    reads records
    ensures |rows| == |records| && forall p :: 0 <= p < |records| ==> rows[p] == records[p].Value()
  {
    seq(|records|, p requires 0 <= p < |records| reads records => records[p].Value())
  }

  /** The records of the agreement: one object per row that was read, at its own position. */
  ghost predicate Loaded(records: seq<FinOpsRecord>, table: seq<Row>) {
    && |records| <= |table|
    && (forall p :: 0 <= p < |records| ==> records[p].recordId == p)
    && (forall p, q :: 0 <= p < q < |records| ==> records[p] != records[q])
  }

  class FinOpsEntitlementsProcessor {
    var table: seq<Row>

    constructor (table: seq<Row>)
      ensures this.table == table
    {
      this.table := table;
    }

    function Now(records: seq<FinOpsRecord>, stopped: bool): Books
      reads this, records
    {
      Books(Values(records), table, stopped)
    }

    /** `update_status_and_usage_date`: the record changes first, then it is saved. */
    method UpdateStatusAndUsageDate(record: FinOpsRecord, status: Status, now: int, saves: bool) returns (ok: bool)
      requires record.recordId < |table|
      modifies record, this`table
      ensures ok == saves && record.Value() == old(record.Value()).(status := status, lastUsage := now)
      ensures table == if saves then old(table)[record.recordId := record.Value()] else old(table)
    {
      record.status := status;
      record.lastUsage := now;
      if saves {
        table := table[record.recordId := record.Value()];
      }
      ok := saves;
    }

    /** `_synchronize_accounts` for one account. */
    method SynchronizeAccount(records: seq<FinOpsRecord>, account: string, a: Answer) returns (ok: bool)
      requires Loaded(records, table)
      modifies records, this`table
      ensures Now(records, !ok) == Touch(old(Now(records, false)), account, a)
      ensures |old(table)| <= |table|
    {
      var existing := Find(Values(records), account, 0);
      var e := GetOrCreate(a);
      if existing.Some? {
        var record := records[existing.value];
        if e.Some? {
          record.entitlement := e;
        }
        ok := UpdateStatusAndUsageDate(record, Active, a.now, a.saved);
        assert Values(records) == old(Values(records))[existing.value := Refreshed(old(record.Value()), a)];
      } else {
        if a.saved {
          table := table + [Row(account, Active, a.now, e)];
        }
        ok := a.saved;
        assert Values(records) == old(Values(records));
      }
    }

    /** `_manage_terminated_accounts` for one record. */
    method ManageRecord(records: seq<FinOpsRecord>, p: nat, a: Answer) returns (ok: bool)
      requires Loaded(records, table) && p < |records|
      modifies records, this`table
      ensures Now(records, !ok) == Expire(old(Now(records, false)), p, a)
      ensures |old(table)| == |table|
    {
      var record := records[p];
      if record.status != Active || record.lastUsage > a.now - SIXTY_DAYS {
        return true;
      }
      if !Ends(a) {
        return true;
      }
      ok := UpdateStatusAndUsageDate(record, Terminated, a.now, a.saved);
      assert Values(records) == old(Values(records))[p := record.Value()];
    }

    /** `_synchronize_accounts`; false if a failed save ends it. */
    method SynchronizeAccounts(records: seq<FinOpsRecord>, run: Run) returns (ok: bool)
      requires Loaded(records, table) && |run.accounts| == |run.seen|
      modifies records, this`table
      ensures Now(records, !ok) == TouchTo(old(Now(records, false)), run, |run.accounts|)
      ensures Loaded(records, table)
    {
      ghost var start := Now(records, false);
      ok := true;
      for n := 0 to |run.accounts|
        invariant Loaded(records, table) && ok
        invariant Now(records, false) == TouchTo(start, run, n)
      {
        ok := SynchronizeAccount(records, run.accounts[n], run.seen[n]);
        assert Now(records, !ok) == TouchTo(start, run, n + 1);
        if !ok {
          StopsTouching(start, run, n + 1, |run.accounts|);
          return;
        }
      }
    }

    /** `_manage_terminated_accounts`. */
    method ManageTerminatedAccounts(records: seq<FinOpsRecord>, run: Run) returns (ok: bool)
      requires Loaded(records, table) && |run.expiring| == |records|
      modifies records, this`table
      ensures Now(records, !ok) == ExpireTo(old(Now(records, false)), run, |records|)
    {
      ghost var start := Now(records, false);
      ok := true;
      for p := 0 to |records|
        invariant Loaded(records, table) && ok
        invariant Now(records, false) == ExpireTo(start, run, p)
      {
        ok := ManageRecord(records, p, run.expiring[p]);
        if !ok {
          StopsExpiring(start, run, p + 1, |records|);
          return;
        }
      }
    }

    /** The body of `sync` for one agreement. */
    method SyncAgreement(records: seq<FinOpsRecord>, run: Run) returns (ok: bool)
      requires Loaded(records, table) && Values(records) == table && ValidRun(run, table)
      modifies records, this`table
      ensures Now(records, !ok) == Sync(old(table), run)
    {
      ok := SynchronizeAccounts(records, run);
      if !ok {
        StopsExpiring(Now(records, true), run, 0, |records|);
        return;
      }
      ok := ManageTerminatedAccounts(records, run);
    }
  }

  lemma {:induction false} StopsTouching(b: Books, run: Run, i: nat, n: nat)
    requires |b.memory| <= |b.table| && i <= n <= |run.accounts| == |run.seen|
    requires TouchTo(b, run, i).stopped
    ensures TouchTo(b, run, n) == TouchTo(b, run, i)
    decreases n - i
  {
    if i < n {
      StopsTouching(b, run, i, n - 1);
    }
  }

  lemma {:induction false} StopsExpiring(b: Books, run: Run, i: nat, n: nat)
    requires i <= n <= |b.memory| <= |b.table| && |run.expiring| == |b.memory|
    requires ExpireTo(b, run, i).stopped
    ensures ExpireTo(b, run, n) == ExpireTo(b, run, i)
    decreases n - i
  {
    if i < n {
      StopsExpiring(b, run, i, n - 1);
    }
  }

  /** At most one record per account. */
  ghost predicate OnePerAccount(rows: seq<Row>) {
    forall p, q :: 0 <= p < q < |rows| ==> rows[p].account != rows[q].account
  }

  /** While accounts are handled: old rows keep their accounts, new rows are for handled accounts without a record. */
  ghost predicate Grown(b: Books, start: seq<Row>, run: Run, n: nat)
    requires n <= |run.accounts|
  {
    && |b.memory| == |start| <= |b.table|
    && (forall p :: 0 <= p < |start| ==> b.memory[p].account == start[p].account == b.table[p].account)
    && (forall p :: |start| <= p < |b.table| ==>
          b.table[p].account in run.accounts[..n] && forall q :: 0 <= q < |start| ==> start[q].account != b.table[p].account)
  }

  lemma {:induction false} TouchGrows(start: seq<Row>, run: Run, n: nat)
    requires ValidRun(run, start) && n <= |run.accounts| && NoDuplicates(run.accounts) && OnePerAccount(start)
    ensures
      var b := TouchTo(Books(start, start, false), run, n);
      Grown(b, start, run, n) && OnePerAccount(b.table)
  {
    if n > 0 {
      TouchGrows(start, run, n - 1);
      assert run.accounts[..n] == run.accounts[..n - 1] + [run.accounts[n - 1]];
      TouchGrowsStep(TouchTo(Books(start, start, false), run, n - 1), start, run, n);
    }
  }

  lemma TouchGrowsStep(b: Books, start: seq<Row>, run: Run, n: nat)
    requires 0 < n <= |run.accounts| == |run.seen| && NoDuplicates(run.accounts)
    requires run.accounts[..n] == run.accounts[..n - 1] + [run.accounts[n - 1]]
    requires Grown(b, start, run, n - 1) && OnePerAccount(b.table)
    ensures
      var r := Touch(b, run.accounts[n - 1], run.seen[n - 1]);
      Grown(r, start, run, n) && OnePerAccount(r.table)
  {
    var account := run.accounts[n - 1];
    if b.stopped {
    } else if Find(b.memory, account, 0).Some? {
    } else {
      assert forall p :: 0 <= p < |start| ==> start[p].account == b.memory[p].account != account;
      assert forall p :: 0 <= p < |b.table| ==> b.table[p].account != account;
    }
  }

  lemma {:induction false} ExpireKeepsAccounts(b: Books, run: Run, n: nat)
    requires n <= |b.memory| <= |b.table| && |run.expiring| == |b.memory|
    requires forall p :: 0 <= p < |b.memory| ==> b.memory[p].account == b.table[p].account
    ensures
      var r := ExpireTo(b, run, n);
      && (forall p :: 0 <= p < |b.memory| ==> r.memory[p].account == b.memory[p].account)
      && (forall p :: 0 <= p < |b.table| ==> r.table[p].account == b.table[p].account)
  {
    if n > 0 {
      ExpireKeepsAccounts(b, run, n - 1);
    }
  }

  /** A sync keeps at most one record per account, and every record keeps its account. */
  lemma SyncKeepsOnePerAccount(table: seq<Row>, run: Run)
    requires ValidRun(run, table) && NoDuplicates(run.accounts) && OnePerAccount(table)
    ensures OnePerAccount(Sync(table, run).table) && |table| <= |Sync(table, run).table|
    ensures forall p :: 0 <= p < |table| ==> Sync(table, run).table[p].account == table[p].account
  {
    TouchGrows(table, run, |run.accounts|);
    ExpireKeepsAccounts(TouchTo(Books(table, table, false), run, |run.accounts|), run, |table|);
  }

  /** Where the first pass leaves record `p`: untouched, or Active with the time of its account's answer. */
  ghost predicate Follows(b: Books, start: seq<Row>, run: Run, n: nat, p: nat)
    requires n <= |run.accounts| == |run.seen| && p < |start|
  {
    && p < |b.memory| == |start| <= |b.table|
    && (start[p].account !in run.accounts[..n] ==> b.memory[p] == start[p] && b.table[p] == start[p])
    && (!b.stopped ==> b.table[p] == b.memory[p])
    && (start[p].account in run.accounts[..n] && !b.stopped ==>
          b.memory[p].status == Active
          && exists i :: 0 <= i < n && run.accounts[i] == start[p].account && b.memory[p].lastUsage == run.seen[i].now)
    && (b.table[p] != start[p] ==> b.table[p].status == Active)
  }

  lemma {:induction false} TouchFollows(start: seq<Row>, run: Run, n: nat, p: nat)
    requires ValidRun(run, start) && n <= |run.accounts| && NoDuplicates(run.accounts) && OnePerAccount(start)
    requires p < |start|
    ensures Follows(TouchTo(Books(start, start, false), run, n), start, run, n, p)
  {
    if n > 0 {
      TouchFollows(start, run, n - 1, p);
      TouchGrows(start, run, n - 1);
      assert run.accounts[..n] == run.accounts[..n - 1] + [run.accounts[n - 1]];
      FollowsStep(TouchTo(Books(start, start, false), run, n - 1), start, run, n, p);
    }
  }

  lemma FollowsStep(b: Books, start: seq<Row>, run: Run, n: nat, p: nat)
    requires 0 < n <= |run.accounts| == |run.seen| && p < |start| && OnePerAccount(start)
    requires run.accounts[..n] == run.accounts[..n - 1] + [run.accounts[n - 1]]
    requires Grown(b, start, run, n - 1) && Follows(b, start, run, n - 1, p)
    ensures Follows(Touch(b, run.accounts[n - 1], run.seen[n - 1]), start, run, n, p)
  {
    var account := run.accounts[n - 1];
    if b.stopped {
    } else if start[p].account == account {
      var found := Find(b.memory, account, 0);
      assert found.Some? && start[found.value].account == account;
      assert found == Some(p);
      assert 0 <= n - 1 < n && run.accounts[n - 1] == start[p].account;
    } else {
      assert Touch(b, account, run.seen[n - 1]).memory[p] == b.memory[p];
      assert Touch(b, account, run.seen[n - 1]).table[p] == b.table[p];
    }
  }

  lemma {:induction false} ExpireAt(b: Books, run: Run, n: nat, p: nat)
    requires n <= |b.memory| <= |b.table| && |run.expiring| == |b.memory| && p < |b.table|
    ensures p >= n ==> ExpireTo(b, run, n).table[p] == b.table[p]
    ensures p >= n && p < |b.memory| ==> ExpireTo(b, run, n).memory[p] == b.memory[p]
    ensures ExpireTo(b, run, n).table[p] != b.table[p] ==>
              p < n && !b.stopped && Expired(b.memory[p], run.expiring[p].now) && Ends(run.expiring[p])
    ensures !ExpireTo(b, run, n).stopped ==> !b.stopped
  {
    if n > 0 {
      ExpireAt(b, run, n - 1, p);
    }
  }

  /** The run takes less than 60 days from its first clock reading to its last. */
  ghost predicate Brisk(run: Run) {
    forall i, p :: 0 <= i < |run.seen| && 0 <= p < |run.expiring| ==> run.expiring[p].now < run.seen[i].now + SIXTY_DAYS
  }

  /** The run terminates record `p`. */
  ghost predicate TerminatedBy(table: seq<Row>, run: Run, p: nat)
    requires ValidRun(run, table) && p < |table| <= |Sync(table, run).table|
  {
    table[p].status != Terminated && Sync(table, run).table[p].status == Terminated
  }

  /**
   * A record is terminated only if its account was not seen in the run and its last recorded usage is at
   * least 60 days old: a record that was seen has been refreshed before the terminating pass looks at it.
   */
  lemma TerminationNeedsSilence(table: seq<Row>, run: Run, p: nat)
    requires ValidRun(run, table) && NoDuplicates(run.accounts) && OnePerAccount(table) && Brisk(run)
    requires p < |table| <= |Sync(table, run).table| && TerminatedBy(table, run, p)
    ensures table[p].account !in run.accounts
    ensures table[p].status == Active && table[p].lastUsage <= run.expiring[p].now - SIXTY_DAYS
  {
    var touched := TouchTo(Books(table, table, false), run, |run.accounts|);
    TouchFollows(table, run, |run.accounts|, p);
    assert run.accounts[..|run.accounts|] == run.accounts;
    ExpireAt(touched, run, |table|, p);
  }

  /** A run that is not cut short leaves the record of every account it saw active, at the time it was seen. */
  lemma SeenIsRecorded(table: seq<Row>, run: Run, p: nat)
    requires ValidRun(run, table) && NoDuplicates(run.accounts) && OnePerAccount(table) && Brisk(run)
    requires p < |table| <= |Sync(table, run).table| && !Sync(table, run).stopped
    requires table[p].account in run.accounts
    ensures Sync(table, run).table[p].status == Active
    ensures exists i :: 0 <= i < |run.accounts| && run.accounts[i] == table[p].account
                     && Sync(table, run).table[p].lastUsage == run.seen[i].now
  {
    var touched := TouchTo(Books(table, table, false), run, |run.accounts|);
    TouchFollows(table, run, |run.accounts|, p);
    assert run.accounts[..|run.accounts|] == run.accounts;
    ExpireAt(touched, run, |table|, p);
    var i :| 0 <= i < |run.accounts| && run.accounts[i] == table[p].account
          && touched.memory[p].lastUsage == run.seen[i].now;
    assert run.expiring[p].now < run.seen[i].now + SIXTY_DAYS;
  }

  /** The table after the first `n` runs. */
  function After(start: seq<Row>, runs: seq<Run>, n: nat): seq<Row>
    requires n <= |runs|
  {
    if n == 0 then start
    else
      var before := After(start, runs, n - 1);
      if ValidRun(runs[n - 1], before) then Sync(before, runs[n - 1]).table else before
  }

  /** The first `n` runs fit the tables they find, see each account once and take less than 60 days. */
  ghost predicate ValidRuns(start: seq<Row>, runs: seq<Run>, n: nat)
    requires n <= |runs|
  {
    n == 0
    || (&& ValidRuns(start, runs, n - 1)
        && ValidRun(runs[n - 1], After(start, runs, n - 1))
        && NoDuplicates(runs[n - 1].accounts)
        && Brisk(runs[n - 1]))
  }

  /** At most one record per account over all runs, and records keep their places. */
  lemma {:induction false} AlwaysOnePerAccount(start: seq<Row>, runs: seq<Run>, n: nat)
    requires n <= |runs| && ValidRuns(start, runs, n) && OnePerAccount(start)
    ensures OnePerAccount(After(start, runs, n)) && |start| <= |After(start, runs, n)|
  {
    if n > 0 {
      AlwaysOnePerAccount(start, runs, n - 1);
      SyncKeepsOnePerAccount(After(start, runs, n - 1), runs[n - 1]);
    }
  }

  /** The clock does not run backwards: run `k` begins no earlier than at `t`. */
  ghost predicate NotBefore(run: Run, t: int) {
    (forall i :: 0 <= i < |run.seen| ==> t <= run.seen[i].now)
    && (forall p :: 0 <= p < |run.expiring| ==> t <= run.expiring[p].now)
  }

  lemma {:induction false} TouchKeepsTime(start: seq<Row>, run: Run, n: nat, p: nat, t: int)
    requires ValidRun(run, start) && n <= |run.accounts| && p < |start|
    requires t <= start[p].lastUsage && NotBefore(run, t)
    ensures
      var b := TouchTo(Books(start, start, false), run, n);
      t <= b.memory[p].lastUsage && t <= b.table[p].lastUsage
  {
    if n > 0 {
      TouchKeepsTime(start, run, n - 1, p, t);
    }
  }

  lemma {:induction false} ExpireKeepsTime(b: Books, run: Run, n: nat, p: nat, t: int)
    requires n <= |b.memory| <= |b.table| && |run.expiring| == |b.memory| && p < |b.memory|
    requires t <= b.memory[p].lastUsage && t <= b.table[p].lastUsage && NotBefore(run, t)
    ensures t <= ExpireTo(b, run, n).memory[p].lastUsage && t <= ExpireTo(b, run, n).table[p].lastUsage
  {
    if n > 0 {
      ExpireKeepsTime(b, run, n - 1, p, t);
    }
  }

  /** A recorded usage time is never followed by an earlier one. */
  lemma {:induction false} UsageTimesAdvance(start: seq<Row>, runs: seq<Run>, i: nat, n: nat, p: nat, t: int)
    requires i <= n <= |runs| && ValidRuns(start, runs, n) && OnePerAccount(start)
    requires p < |After(start, runs, i)| && t <= After(start, runs, i)[p].lastUsage
    requires forall k :: i <= k < n ==> NotBefore(runs[k], t)
    ensures p < |After(start, runs, n)| && t <= After(start, runs, n)[p].lastUsage
    decreases n - i
  {
    if i < n {
      var before, run := After(start, runs, n - 1), runs[n - 1];
      UsageTimesAdvance(start, runs, i, n - 1, p, t);
      AlwaysOnePerAccount(start, runs, n - 1);
      SyncKeepsOnePerAccount(before, run);
      TouchKeepsTime(before, run, |run.accounts|, p, t);
      ExpireKeepsTime(TouchTo(Books(before, before, false), run, |run.accounts|), run, |before|, p, t);
    }
  }

  /** Over all runs, a record is terminated only 60 days after every usage time it has ever carried. */
  lemma TerminationHistory(start: seq<Row>, runs: seq<Run>, j: nat, p: nat, i: nat)
    requires i <= j < |runs| && ValidRuns(start, runs, j + 1) && OnePerAccount(start)
    requires p < |After(start, runs, i)|
    requires forall k :: i <= k < j ==> NotBefore(runs[k], After(start, runs, i)[p].lastUsage)
    requires p < |After(start, runs, j)| <= |Sync(After(start, runs, j), runs[j]).table|
    requires TerminatedBy(After(start, runs, j), runs[j], p)
    ensures After(start, runs, j)[p].account !in runs[j].accounts
    ensures After(start, runs, i)[p].lastUsage <= runs[j].expiring[p].now - SIXTY_DAYS
  {
    AlwaysOnePerAccount(start, runs, j);
    UsageTimesAdvance(start, runs, i, j, p, After(start, runs, i)[p].lastUsage);
    TerminationNeedsSilence(After(start, runs, j), runs[j], p);
  }

  /** The entitlement that FinOps has or makes for an account with usage, unless one of its calls fails. */
  function Provided(a: Answer): Option<string> {
    match a.found
    case Entitlement(id, New) => Some(id)
    case Entitlement(id, InUse) => Some(id)
    case Entitlement(_, Ended) => a.created
    case Missing => a.created
    case LookupError => None
  }

  /** FinOps has no entitlement that runs on: it knows none, it has ended, or it could be ended now. */
  predicate Released(a: Answer) {
    match a.found
    case Missing => true
    case Entitlement(_, New) => a.ended
    case Entitlement(_, InUse) => a.ended
    case Entitlement(_, Ended) => true
    case LookupError => false
  }

  /** What a run makes of the record of an account that it saw, and of one that it did not see. */
  function Seen(row: Row, a: Answer): Row {
    row.(status := Active, lastUsage := a.now, entitlement := if Provided(a).Some? then Provided(a) else row.entitlement)
  }

  function Unseen(row: Row, a: Answer): Row {
    if row.status == Active && a.now - row.lastUsage >= 60 * 24 * 60 * 60 && Released(a)
    then row.(status := Terminated, lastUsage := a.now) else row
  }

  function NewRow(run: Run, i: nat): Row
    requires i < |run.accounts| == |run.seen|
  {
    Row(run.accounts[i], Active, run.seen[i].now, Provided(run.seen[i]))
  }

  /** Handling another account leaves record `p` as it is. */
  lemma OtherAccount(b: Books, account: string, a: Answer, p: nat)
    requires p < |b.memory| <= |b.table| && b.memory[p].account != account
    ensures Touch(b, account, a).memory[p] == b.memory[p] && Touch(b, account, a).table[p] == b.table[p]
  {
  }

  lemma OwnAccount(b: Books, start: seq<Row>, a: Answer, p: nat)
    requires |b.memory| == |start| <= |b.table| && p < |start| && OnePerAccount(start) && !b.stopped && a.saved
    requires forall q :: 0 <= q < |start| ==> b.memory[q].account == start[q].account
    ensures var r := Touch(b, start[p].account, a);
      r.memory[p] == r.table[p] == Seen(b.memory[p], a) && !r.stopped
  {
    var found := Find(b.memory, start[p].account, 0);
    assert found.Some? && start[found.value].account == start[p].account;
    assert found == Some(p);
  }

  lemma StoppedStays(b: Books, run: Run, n: nat)
    requires |b.memory| <= |b.table| && 0 < n <= |run.accounts| == |run.seen| && !TouchTo(b, run, n).stopped
    ensures !TouchTo(b, run, n - 1).stopped && run.seen[n - 1].saved
  {
  }

  /** A first pass that no failed save ends leaves every account it saw active and refreshed. */
  lemma {:induction false} TouchSeen(start: seq<Row>, run: Run, n: nat, p: nat, i: nat)
    requires ValidRun(run, start) && i < n <= |run.accounts| && NoDuplicates(run.accounts) && OnePerAccount(start)
    requires p < |start| && run.accounts[i] == start[p].account
    requires !TouchTo(Books(start, start, false), run, n).stopped
    ensures var b := TouchTo(Books(start, start, false), run, n);
      p < |b.memory| <= |b.table| && b.memory[p] == b.table[p] == Seen(start[p], run.seen[i])
  {
    var before := TouchTo(Books(start, start, false), run, n - 1);
    StoppedStays(Books(start, start, false), run, n);
    TouchGrows(start, run, n - 1);
    if i == n - 1 {
      TouchFollows(start, run, n - 1, p);
      forall k | 0 <= k < n - 1 ensures run.accounts[k] != start[p].account {
      }
      OwnAccount(before, start, run.seen[i], p);
    } else {
      TouchSeen(start, run, n - 1, p, i);
      OtherAccount(before, run.accounts[n - 1], run.seen[n - 1], p);
    }
  }

  lemma NewAccount(b: Books, start: seq<Row>, run: Run, i: nat)
    requires i < |run.accounts| == |run.seen| && |b.memory| == |start| <= |b.table| && !b.stopped && run.seen[i].saved
    requires forall p :: 0 <= p < |start| ==> b.memory[p].account == start[p].account != run.accounts[i]
    ensures Touch(b, run.accounts[i], run.seen[i]).table == b.table + [NewRow(run, i)]
  {
    assert Find(b.memory, run.accounts[i], 0).None?;
  }

  lemma LaterRowsStay(b: Books, account: string, a: Answer, q: nat)
    requires |b.memory| <= q < |b.table|
    ensures q < |Touch(b, account, a).table| && Touch(b, account, a).table[q] == b.table[q]
  {
  }

  /** And every account without a record has got one. */
  lemma {:induction false} TouchCreates(start: seq<Row>, run: Run, n: nat, i: nat)
    requires ValidRun(run, start) && i < n <= |run.accounts| && NoDuplicates(run.accounts) && OnePerAccount(start)
    requires forall p :: 0 <= p < |start| ==> start[p].account != run.accounts[i]
    requires !TouchTo(Books(start, start, false), run, n).stopped
    ensures exists q :: |start| <= q < |TouchTo(Books(start, start, false), run, n).table|
                     && TouchTo(Books(start, start, false), run, n).table[q] == NewRow(run, i)
  {
    var before, after := TouchTo(Books(start, start, false), run, n - 1), TouchTo(Books(start, start, false), run, n);
    StoppedStays(Books(start, start, false), run, n);
    TouchGrows(start, run, n - 1);
    if i == n - 1 {
      NewAccount(before, start, run, i);
      assert after.table[|before.table|] == NewRow(run, i);
    } else {
      TouchCreates(start, run, n - 1, i);
      var q :| |start| <= q < |before.table| && before.table[q] == NewRow(run, i);
      LaterRowsStay(before, run.accounts[n - 1], run.seen[n - 1], q);
    }
  }

  /** The second pass, where no failed save ends it, decides on every record by itself. */
  lemma {:induction false} ExpireSettles(b: Books, run: Run, n: nat, p: nat)
    requires n <= |b.memory| <= |b.table| && |run.expiring| == |b.memory| && p < |b.memory|
    requires !ExpireTo(b, run, n).stopped && b.table[p] == b.memory[p]
    ensures var r := ExpireTo(b, run, n);
      r.table[p] == r.memory[p] == if p < n then Unseen(b.memory[p], run.expiring[p]) else b.memory[p]
  {
    if n > 0 {
      ExpireSettles(b, run, n - 1, p);
    }
  }

  lemma {:induction false} ExpireKeepsRest(b: Books, run: Run, n: nat, q: nat)
    requires n <= |b.memory| <= |b.table| && |run.expiring| == |b.memory| && |b.memory| <= q < |b.table|
    ensures ExpireTo(b, run, n).table[q] == b.table[q]
    ensures ExpireTo(b, run, n).stopped || !b.stopped
  {
    if n > 0 {
      ExpireKeepsRest(b, run, n - 1, q);
    }
  }

  lemma {:induction false} ExpireKeepsStopped(b: Books, run: Run, n: nat)
    requires n <= |b.memory| <= |b.table| && |run.expiring| == |b.memory| && b.stopped
    ensures ExpireTo(b, run, n).stopped
  {
    if n > 0 {
      ExpireKeepsStopped(b, run, n - 1);
    }
  }

  /**
   * What a sync that is not cut short makes of every record: an account that was seen is active and
   * refreshed, with the entitlement that FinOps provides; one that was not is terminated exactly if it was
   * active, has been idle for 60 days, and FinOps has released it; and nothing else changes.
   */
  lemma SyncSettles(table: seq<Row>, run: Run, p: nat)
    requires ValidRun(run, table) && NoDuplicates(run.accounts) && OnePerAccount(table) && Brisk(run)
    requires p < |table| <= |Sync(table, run).table| && !Sync(table, run).stopped
    ensures table[p].account !in run.accounts ==> Sync(table, run).table[p] == Unseen(table[p], run.expiring[p])
    ensures forall i :: 0 <= i < |run.accounts| && run.accounts[i] == table[p].account ==>
              Sync(table, run).table[p] == Seen(table[p], run.seen[i])
  {
    var touched := TouchTo(Books(table, table, false), run, |run.accounts|);
    if touched.stopped {
      ExpireKeepsStopped(touched, run, |table|);
    }
    TouchFollows(table, run, |run.accounts|, p);
    assert run.accounts[..|run.accounts|] == run.accounts;
    ExpireSettles(touched, run, |table|, p);
    forall i | 0 <= i < |run.accounts| && run.accounts[i] == table[p].account
      ensures Sync(table, run).table[p] == Seen(table[p], run.seen[i])
    {
      TouchSeen(table, run, |run.accounts|, p, i);
      assert run.expiring[p].now < run.seen[i].now + SIXTY_DAYS;
    }
  }

  /** Every account that was seen for the first time has an active record, with its entitlement. */
  lemma SyncCreates(table: seq<Row>, run: Run, i: nat)
    requires ValidRun(run, table) && NoDuplicates(run.accounts) && OnePerAccount(table)
    requires !Sync(table, run).stopped && i < |run.accounts|
    requires forall p :: 0 <= p < |table| ==> table[p].account != run.accounts[i]
    ensures exists q :: |table| <= q < |Sync(table, run).table| && Sync(table, run).table[q] == NewRow(run, i)
  {
    var touched := TouchTo(Books(table, table, false), run, |run.accounts|);
    if touched.stopped {
      ExpireKeepsStopped(touched, run, |table|);
    }
    TouchCreates(table, run, |run.accounts|, i);
    var q :| |table| <= q < |touched.table| && touched.table[q] == NewRow(run, i);
    ExpireKeepsRest(touched, run, |table|, q);
  }

  /** The first save that fails ends the sync: the table stays as the accounts before it have left it. */
  lemma FailedSaveEndsSync(table: seq<Row>, run: Run, i: nat)
    requires ValidRun(run, table) && i < |run.accounts| && !run.seen[i].saved
    requires !TouchTo(Books(table, table, false), run, i).stopped
    ensures Sync(table, run).stopped
    ensures Sync(table, run).table == TouchTo(Books(table, table, false), run, i).table
  {
    var b := Books(table, table, false);
    assert TouchTo(b, run, i + 1).stopped && TouchTo(b, run, i + 1).table == TouchTo(b, run, i).table;
    StopsTouching(b, run, i + 1, |run.accounts|);
    var touched := TouchTo(b, run, |run.accounts|);
    assert ExpireTo(touched, run, 0) == touched;
    StopsExpiring(touched, run, 0, |table|);
  }
}
