/** The billing report: the same metrics grouped over the organisation and by account. */
module Report {
  import opened Money
  import opened Usage
  import opened Lines

  datatype Key = Key(service: string, invoiceId: string, entity: string)

  datatype Amounts = Amounts(amount: real, spp: real)

  datatype Row = Row(
    key: Key,
    account: string,
    pp: real,
    sp: real,
    rate: real,
    sppDiscount: real,
    sppShare: real)

  const NOTHING := Amounts(0.0, 0.0)

  function KeyOf(m: Metric): Key {
    Key(m.service, m.invoiceId, m.entity)
  }

  /** `_resolve_exchange_rate`. */
  function RateOf(entity: string, invoice: Invoice): (r: real)
    ensures r > 0.0
  {
    if entity != "" && entity in invoice.entities && invoice.entities[entity].rate > 0.0
    then invoice.entities[entity].rate
    else 1.0
  }

  /** `_to_row`. */
  function ToRow(key: Key, a: Amounts, invoice: Invoice, account: string): Row {
    var rate := RateOf(key.entity, invoice);
    Row(key, account, AtRate(a.amount - Abs(a.spp), rate), AtRate(a.amount, rate), rate, AtRate(a.spp, rate),
        if a.amount == 0.0 then 0.0 else Abs(a.spp) / a.amount)
  }

  /** `_accumulate` on the dictionary of groups. */
  function Accumulate<K>(groups: map<K, Amounts>, key: K, m: Metric): map<K, Amounts> {
    var a := Lookup(groups, key);
    groups[key := if m.recordType == SppDiscount then a.(spp := a.spp + m.amount)
                  else a.(amount := a.amount + m.amount)]
  }

  function Lookup<K>(groups: map<K, Amounts>, key: K): Amounts {
    if key in groups then groups[key] else NOTHING
  }

  function NonSpp(key: Key): Amount {
    (usage: Metrics, m: Metric) => if KeyOf(m) == key && m.recordType != SppDiscount then m.amount else 0.0
  }

  function Spp(key: Key): Amount {
    (usage: Metrics, m: Metric) => if KeyOf(m) == key && m.recordType == SppDiscount then m.amount else 0.0
  }

  function AccountAmounts(usage: Metrics, n: nat, key: Key): Amounts
    requires n <= |usage|
  {
    Amounts(Sum(usage, n, NonSpp(key)), Sum(usage, n, Spp(key)))
  }

  function GroupAmounts(accounts: Accounts, n: nat, key: Key): Amounts
    requires n <= |accounts|
  {
    Amounts(SumAccounts(accounts, n, NonSpp(key)), SumAccounts(accounts, n, Spp(key)))
  }

  predicate OccursTo(usage: Metrics, n: nat, key: Key)
    requires n <= |usage|
  {
    exists j :: 0 <= j < n && KeyOf(usage[j]) == key
  }

  predicate Occurs(usage: Metrics, key: Key) {
    OccursTo(usage, |usage|, key)
  }

  predicate OccursInSome(accounts: Accounts, n: nat, key: Key)
    requires n <= |accounts|
  {
    exists i :: 0 <= i < n && Occurs(accounts[i].1, key)
  }

  /** `build`: one row for every key that occurs, with the totals of its metrics. */
  method Build(accounts: Accounts, invoice: Invoice) returns (rows: map<Key, Row>)
    ensures forall key :: key in rows <==> OccursInSome(accounts, |accounts|, key)
    ensures forall key <- rows :: rows[key] == ToRow(key, GroupAmounts(accounts, |accounts|, key), invoice, "")
  {
    var groups: map<Key, Amounts> := map[];
    for i := 0 to |accounts|
      invariant forall key :: key in groups <==> OccursInSome(accounts, i, key)
      invariant forall key :: Lookup(groups, key) == GroupAmounts(accounts, i, key)
    {
      groups := AddAccount(groups, accounts[i].1);
      forall key ensures Lookup(groups, key) == GroupAmounts(accounts, i + 1, key) {
      }
      forall key ensures key in groups <==> OccursInSome(accounts, i + 1, key) {
        assert OccursInSome(accounts, i + 1, key) <==> OccursInSome(accounts, i, key) || Occurs(accounts[i].1, key);
      }
    }
    rows := map key <- groups :: ToRow(key, groups[key], invoice, "");
    forall key <- rows ensures rows[key] == ToRow(key, GroupAmounts(accounts, |accounts|, key), invoice, "") {
      assert groups[key] == Lookup(groups, key);
    }
  }

  /** The inner loop of `build`. */
  method AddAccount(before: map<Key, Amounts>, usage: Metrics) returns (groups: map<Key, Amounts>)
    ensures forall key :: key in groups <==> key in before || Occurs(usage, key)
    ensures forall key ::
              && Lookup(groups, key).amount == Lookup(before, key).amount + Sum(usage, |usage|, NonSpp(key))
              && Lookup(groups, key).spp == Lookup(before, key).spp + Sum(usage, |usage|, Spp(key))
  {
    groups := before;
    for j := 0 to |usage|
      invariant forall key :: key in groups <==> key in before || OccursTo(usage, j, key)
      invariant forall key ::
                  && Lookup(groups, key).amount == Lookup(before, key).amount + Sum(usage, j, NonSpp(key))
                  && Lookup(groups, key).spp == Lookup(before, key).spp + Sum(usage, j, Spp(key))
    {
      groups := Accumulate(groups, KeyOf(usage[j]), usage[j]);
    }
  }

  type AccountKey = (string, Key)

  /** `_group_by_account`: one group for every account and key that occurs in it. */
  method GroupByAccount(accounts: Accounts) returns (groups: map<AccountKey, Amounts>)
    requires Distinct(accounts)
    ensures forall i, key :: 0 <= i < |accounts| ==>
              ((accounts[i].0, key) in groups <==> Occurs(accounts[i].1, key))
    ensures forall i, key :: 0 <= i < |accounts| ==>
              Lookup(groups, (accounts[i].0, key)) == AccountAmounts(accounts[i].1, |accounts[i].1|, key)
  {
    groups := map[];
    for i := 0 to |accounts|
      invariant forall k <- groups :: exists h :: 0 <= h < i && accounts[h].0 == k.0
      invariant forall h, key :: 0 <= h < i ==> ((accounts[h].0, key) in groups <==> Occurs(accounts[h].1, key))
      invariant forall h, key :: 0 <= h < i ==>
                  Lookup(groups, (accounts[h].0, key)) == AccountAmounts(accounts[h].1, |accounts[h].1|, key)
    {
      ghost var before := groups;
      var id := accounts[i].0;
      assert forall h :: 0 <= h < i ==> accounts[h].0 != id;
      forall k <- before ensures k.0 != id {
      }
      groups := AddLinked(groups, id, accounts[i].1);
      forall k <- groups ensures exists h :: 0 <= h < i + 1 && accounts[h].0 == k.0 {
        if k in before {
        } else {
          assert accounts[i].0 == k.0;
        }
      }
      forall h, key | 0 <= h < i + 1
        ensures Lookup(groups, (accounts[h].0, key)) == AccountAmounts(accounts[h].1, |accounts[h].1|, key)
        ensures (accounts[h].0, key) in groups <==> Occurs(accounts[h].1, key)
      {
        if h < i {
          assert accounts[h].0 != id;
        } else {
          assert accounts[h] == accounts[i];
        }
      }
    }
  }

  /** `build_by_account`: one row for every account and key that occurs in it. */
  method BuildByAccount(accounts: Accounts, invoice: Invoice) returns (rows: map<AccountKey, Row>)
    requires Distinct(accounts)
    ensures forall i, key :: 0 <= i < |accounts| ==>
              ((accounts[i].0, key) in rows <==> Occurs(accounts[i].1, key))
    ensures forall i, key :: 0 <= i < |accounts| && (accounts[i].0, key) in rows ==>
              rows[(accounts[i].0, key)] == AccountRow(accounts[i], key, invoice)
  {
    var groups := GroupByAccount(accounts);
    rows := map k <- groups :: ToRow(k.1, groups[k], invoice, k.0);
    forall i, key | 0 <= i < |accounts| && (accounts[i].0, key) in rows
      ensures rows[(accounts[i].0, key)] == AccountRow(accounts[i], key, invoice)
    {
      RowOfGroup(groups, accounts[i], key, invoice);
    }
  }

  lemma RowOfGroup(groups: map<AccountKey, Amounts>, account: (string, Metrics), key: Key, invoice: Invoice)
    requires (account.0, key) in groups
    requires Lookup(groups, (account.0, key)) == AccountAmounts(account.1, |account.1|, key)
    ensures ToRow(key, groups[(account.0, key)], invoice, account.0) == AccountRow(account, key, invoice)
  {
  }

  method AddLinked(before: map<AccountKey, Amounts>, account: string, usage: Metrics)
    returns (groups: map<AccountKey, Amounts>)
    requires forall k <- before :: k.0 != account
    ensures forall k: AccountKey :: k in groups <==> k in before || (k.0 == account && Occurs(usage, k.1))
    ensures forall k: AccountKey :: Lookup(groups, k) ==
              if k.0 == account then AccountAmounts(usage, |usage|, k.1) else Lookup(before, k)
  {
    groups := before;
    for j := 0 to |usage|
      invariant forall k: AccountKey :: k in groups <==> k in before || (k.0 == account && OccursTo(usage, j, k.1))
      invariant forall k: AccountKey :: Lookup(groups, k) ==
                  if k.0 == account then AccountAmounts(usage, j, k.1) else Lookup(before, k)
    {
      groups := Accumulate(groups, (account, KeyOf(usage[j])), usage[j]);
    }
  }

  function AccountRow(account: (string, Metrics), key: Key, invoice: Invoice): Row {
    ToRow(key, AccountAmounts(account.1, |account.1|, key), invoice, account.0)
  }

  function GroupRow(accounts: Accounts, key: Key, invoice: Invoice): Row {
    ToRow(key, GroupAmounts(accounts, |accounts|, key), invoice, "")
  }

  /** The sum of a column over the rows of the first `n` accounts that have one for the key. */
  function Column(accounts: Accounts, n: nat, key: Key, invoice: Invoice, column: Row -> real): real
    requires n <= |accounts|
  {
    if n == 0 then 0.0
    else
      Column(accounts, n - 1, key, invoice, column)
      + if Occurs(accounts[n - 1].1, key) then column(AccountRow(accounts[n - 1], key, invoice)) else 0.0
  }

  function SpColumn(): Row -> real { (r: Row) => r.sp }
  function SppColumn(): Row -> real { (r: Row) => r.sppDiscount }
  function PpColumn(): Row -> real { (r: Row) => r.pp }

  lemma {:induction false} AbsentIsNothing(usage: Metrics, n: nat, key: Key)
    requires n <= |usage| && !OccursTo(usage, n, key)
    ensures AccountAmounts(usage, n, key) == NOTHING
  {
    if n > 0 {
      assert KeyOf(usage[n - 1]) != key;
      assert !OccursTo(usage, n - 1, key);
      AbsentIsNothing(usage, n - 1, key);
    }
  }

  /** The sum of the accounts' absolute SPP sums. */
  function AbsSpp(accounts: Accounts, n: nat, key: Key): real
    requires n <= |accounts|
  {
    if n == 0 then 0.0
    else AbsSpp(accounts, n - 1, key) + Abs(AccountAmounts(accounts[n - 1].1, |accounts[n - 1].1|, key).spp)
  }

  /** The amount, the SPP discount and the partner price of an account, before conversion. */
  function Part(account: (string, Metrics), key: Key): (real, real, real) {
    var a := AccountAmounts(account.1, |account.1|, key);
    (a.amount, a.spp, a.amount - Abs(a.spp))
  }

  /** A column whose cells are parts at the group's rate. */
  ghost predicate Scales(key: Key, invoice: Invoice, column: Row -> real, part: ((string, Metrics)) -> real) {
    forall account: (string, Metrics) ::
      if Occurs(account.1, key) then column(AccountRow(account, key, invoice)) == AtRate(part(account), RateOf(key.entity, invoice))
      else part(account) == 0.0
  }

  function SumParts(accounts: Accounts, n: nat, part: ((string, Metrics)) -> real): real
    requires n <= |accounts|
  {
    if n == 0 then 0.0 else SumParts(accounts, n - 1, part) + part(accounts[n - 1])
  }

  lemma {:induction false} ColumnAddsUp(accounts: Accounts, n: nat, key: Key, invoice: Invoice, column: Row -> real,
                                        part: ((string, Metrics)) -> real)
    requires n <= |accounts| && Scales(key, invoice, column, part)
    ensures Column(accounts, n, key, invoice, column) == AtRate(SumParts(accounts, n, part), RateOf(key.entity, invoice))
  {
    if n > 0 {
      ColumnAddsUp(accounts, n - 1, key, invoice, column, part);
      Distribute(SumParts(accounts, n - 1, part), part(accounts[n - 1]), RateOf(key.entity, invoice));
    }
  }

  function AmountPart(key: Key): ((string, Metrics)) -> real { (a: (string, Metrics)) => Part(a, key).0 }
  function SppPart(key: Key): ((string, Metrics)) -> real { (a: (string, Metrics)) => Part(a, key).1 }
  function PpPart(key: Key): ((string, Metrics)) -> real { (a: (string, Metrics)) => Part(a, key).2 }

  lemma ColumnsScale(key: Key, invoice: Invoice)
    ensures Scales(key, invoice, SpColumn(), AmountPart(key))
    ensures Scales(key, invoice, SppColumn(), SppPart(key))
    ensures Scales(key, invoice, PpColumn(), PpPart(key))
  {
    forall account: (string, Metrics)
      ensures !Occurs(account.1, key) ==> AccountAmounts(account.1, |account.1|, key) == NOTHING
    {
      if !Occurs(account.1, key) {
        AbsentIsNothing(account.1, |account.1|, key);
      }
    }
  }

  lemma {:induction false} PartsAddUp(accounts: Accounts, n: nat, key: Key)
    requires n <= |accounts|
    ensures SumParts(accounts, n, AmountPart(key)) == GroupAmounts(accounts, n, key).amount
    ensures SumParts(accounts, n, SppPart(key)) == GroupAmounts(accounts, n, key).spp
    ensures SumParts(accounts, n, PpPart(key)) == GroupAmounts(accounts, n, key).amount - AbsSpp(accounts, n, key)
  {
    if n > 0 {
      PartsAddUp(accounts, n - 1, key);
    }
  }

  lemma Distribute(a: real, b: real, rate: real)
    ensures AtRate(a + b, rate) == AtRate(a, rate) + AtRate(b, rate)
  {
  }

  /** Whether the SPP sums of the first `n` accounts are all non-negative, or all non-positive. */
  ghost predicate ShareSign(accounts: Accounts, n: nat, key: Key)
    requires n <= |accounts|
  {
    (forall i :: 0 <= i < n ==> SppOf(accounts[i], key) >= 0.0)
    || (forall i :: 0 <= i < n ==> SppOf(accounts[i], key) <= 0.0)
  }

  function SppOf(account: (string, Metrics), key: Key): real {
    AccountAmounts(account.1, |account.1|, key).spp
  }

  lemma {:induction false} SignOfSum(accounts: Accounts, n: nat, key: Key)
    requires n <= |accounts|
    ensures (forall i :: 0 <= i < n ==> SppOf(accounts[i], key) >= 0.0) ==>
              AbsSpp(accounts, n, key) == GroupAmounts(accounts, n, key).spp
    ensures (forall i :: 0 <= i < n ==> SppOf(accounts[i], key) <= 0.0) ==>
              AbsSpp(accounts, n, key) == -GroupAmounts(accounts, n, key).spp
  {
    if n > 0 {
      SignOfSum(accounts, n - 1, key);
      assert SppOf(accounts[n - 1], key) == AccountAmounts(accounts[n - 1].1, |accounts[n - 1].1|, key).spp;
    }
  }

  lemma {:induction false} AbsDominates(accounts: Accounts, n: nat, key: Key)
    requires n <= |accounts|
    ensures Abs(GroupAmounts(accounts, n, key).spp) <= AbsSpp(accounts, n, key)
    ensures AbsSpp(accounts, n, key) == GroupAmounts(accounts, n, key).spp ==>
              forall i :: 0 <= i < n ==> SppOf(accounts[i], key) >= 0.0
    ensures AbsSpp(accounts, n, key) == -GroupAmounts(accounts, n, key).spp ==>
              forall i :: 0 <= i < n ==> SppOf(accounts[i], key) <= 0.0
  {
    if n > 0 {
      AbsDominates(accounts, n - 1, key);
      assert SppOf(accounts[n - 1], key) == AccountAmounts(accounts[n - 1].1, |accounts[n - 1].1|, key).spp;
    }
  }

  /** Splitting a sum of discounts by account loses nothing exactly when the parts share a sign. */
  lemma AbsExact(accounts: Accounts, key: Key)
    ensures
      var n := |accounts|;
      AbsSpp(accounts, n, key) == Abs(GroupAmounts(accounts, n, key).spp) <==> ShareSign(accounts, n, key)
  {
    SignOfSum(accounts, |accounts|, key);
    AbsDominates(accounts, |accounts|, key);
  }

  /**
   * For every key the rows by account add up to the overall row in sp and in the SPP discount; their pp
   * adds up to at most the overall pp, and to exactly it if and only if the accounts' SPP sums share a sign.
   */
  lemma GroupingsAgree(accounts: Accounts, key: Key, invoice: Invoice)
    ensures
      var n, row := |accounts|, GroupRow(accounts, key, invoice);
      && Column(accounts, n, key, invoice, SpColumn()) == row.sp
      && Column(accounts, n, key, invoice, SppColumn()) == row.sppDiscount
      && Column(accounts, n, key, invoice, PpColumn()) <= row.pp
      && (Column(accounts, n, key, invoice, PpColumn()) == row.pp <==> ShareSign(accounts, n, key))
  {
    ColumnsScale(key, invoice);
    ExactColumns(accounts, key, invoice);
    PpAgrees(accounts, key, invoice);
  }

  lemma ExactColumns(accounts: Accounts, key: Key, invoice: Invoice)
    requires Scales(key, invoice, SpColumn(), AmountPart(key)) && Scales(key, invoice, SppColumn(), SppPart(key))
    ensures Column(accounts, |accounts|, key, invoice, SpColumn()) == GroupRow(accounts, key, invoice).sp
    ensures Column(accounts, |accounts|, key, invoice, SppColumn()) == GroupRow(accounts, key, invoice).sppDiscount
  {
    PartsAddUp(accounts, |accounts|, key);
    ColumnAddsUp(accounts, |accounts|, key, invoice, SpColumn(), AmountPart(key));
    ColumnAddsUp(accounts, |accounts|, key, invoice, SppColumn(), SppPart(key));
  }

  lemma PpAgrees(accounts: Accounts, key: Key, invoice: Invoice)
    requires Scales(key, invoice, PpColumn(), PpPart(key))
    ensures
      var n, pp := |accounts|, GroupRow(accounts, key, invoice).pp;
      && Column(accounts, n, key, invoice, PpColumn()) <= pp
      && (Column(accounts, n, key, invoice, PpColumn()) == pp <==> ShareSign(accounts, n, key))
  {
    var n := |accounts|;
    var parts, whole := SumParts(accounts, n, PpPart(key)), GroupAmounts(accounts, n, key);
    ColumnAddsUp(accounts, n, key, invoice, PpColumn(), PpPart(key));
    PartsBelowWhole(accounts, key);
    Scaled(parts, whole.amount - Abs(whole.spp), RateOf(key.entity, invoice));
  }

  lemma PartsBelowWhole(accounts: Accounts, key: Key)
    ensures
      var parts, whole := SumParts(accounts, |accounts|, PpPart(key)), GroupAmounts(accounts, |accounts|, key);
      && parts <= whole.amount - Abs(whole.spp)
      && (parts == whole.amount - Abs(whole.spp) <==> ShareSign(accounts, |accounts|, key))
  {
    PartsAddUp(accounts, |accounts|, key);
    AbsExact(accounts, key);
    AbsDominates(accounts, |accounts|, key);
  }

  lemma Scaled(a: real, b: real, rate: real)
    requires a <= b && rate > 0.0
    ensures AtRate(a, rate) <= AtRate(b, rate) && (AtRate(a, rate) == AtRate(b, rate) <==> a == b)
  {
    assert AtRate(b, rate) - AtRate(a, rate) == (b - a) * rate;
  }

  /** The columns of a row fit together: pp is sp less the discount, and the share is of sp. */
  lemma RowConsistent(key: Key, a: Amounts, invoice: Invoice, account: string)
    ensures
      var row := ToRow(key, a, invoice, account);
      && row.key == key && row.account == account
      && row.sp == AtRate(a.amount, row.rate) && row.sppDiscount == AtRate(a.spp, row.rate)
      && row.rate == (if key.entity != "" && key.entity in invoice.entities && invoice.entities[key.entity].rate > 0.0
                      then invoice.entities[key.entity].rate else 1.0)
      && row.pp == row.sp - Abs(row.sppDiscount)
      && (row.sp == 0.0 ==> row.sppShare == 0.0)
      && (row.sp != 0.0 ==> AtRate(row.sppShare, row.sp) == Abs(row.sppDiscount))
  {
    var rate := RateOf(key.entity, invoice);
    var spp := Abs(a.spp);
    Distribute(a.amount, -spp, rate);
    assert AtRate(-spp, rate) == -AtRate(spp, rate);
    AbsAtRate(a.spp, rate);
    if a.amount == 0.0 {
      assert AtRate(a.amount, rate) == 0.0;
    } else {
      ShareOfRow(spp, a.amount, rate);
    }
  }

  lemma AbsAtRate(x: real, rate: real)
    requires rate > 0.0
    ensures Abs(AtRate(x, rate)) == AtRate(Abs(x), rate)
  {
    if x < 0.0 {
      assert AtRate(-x, rate) == -AtRate(x, rate);
      Scaled(x, 0.0, rate);
    } else {
      Scaled(0.0, x, rate);
    }
    assert AtRate(0.0, rate) == 0.0;
  }

  lemma ShareOfRow(part: real, whole: real, rate: real)
    requires whole != 0.0 && rate > 0.0
    ensures AtRate(whole, rate) != 0.0
    ensures AtRate(part / whole, AtRate(whole, rate)) == AtRate(part, rate)
  {
    assert (part / whole) * (whole * rate) == ((part / whole) * whole) * rate;
  }

  /** One more metric of an account counts for the row of its service, invoice and entity alone: an SPP
      discount for the discount, any other for the amount. */
  lemma MetricCounts(usage: Metrics, m: Metric, key: Key)
    ensures
      var before := AccountAmounts(usage, |usage|, key);
      AccountAmounts(usage + [m], |usage| + 1, key) ==
        if m.service != key.service || m.invoiceId != key.invoiceId || m.entity != key.entity then before
        else if m.recordType == SppDiscount then Amounts(before.amount, before.spp + m.amount)
        else Amounts(before.amount + m.amount, before.spp)
  {
    PrefixSums(usage, m, |usage|, key);
  }

  lemma {:induction false} PrefixSums(usage: Metrics, m: Metric, n: nat, key: Key)
    requires n <= |usage|
    ensures AccountAmounts(usage + [m], n, key) == AccountAmounts(usage, n, key)
  {
    if n > 0 {
      PrefixSums(usage, m, n - 1, key);
    }
  }

  /** Over accounts the amounts of a row add up. */
  lemma AccountCounts(accounts: Accounts, account: (string, Metrics), key: Key)
    ensures
      var before, own := GroupAmounts(accounts, |accounts|, key), AccountAmounts(account.1, |account.1|, key);
      GroupAmounts(accounts + [account], |accounts| + 1, key) == Amounts(before.amount + own.amount, before.spp + own.spp)
  {
    PrefixGroups(accounts, account, |accounts|, key);
  }

  lemma {:induction false} PrefixGroups(accounts: Accounts, account: (string, Metrics), n: nat, key: Key)
    requires n <= |accounts|
    ensures GroupAmounts(accounts + [account], n, key) == GroupAmounts(accounts, n, key)
  {
    if n > 0 {
      PrefixGroups(accounts, account, n - 1, key);
    }
  }
}
