/** The linked accounts with usage: the keys of all readable billing views, each account once. */
module LinkedAccounts {
  datatype Account = Account(id: string, name: string)

  /** The answer for one billing view: its account keys in order and the known names, or an AWS error. */
  datatype View = View(keys: seq<string>, names: map<string, string>) | Failed

  /** The account bears the name that the view knows it by, or else its own id. */
  predicate NamedIn(view: View, a: Account)
    requires view.View?
  {
    a.name == if a.id in view.names then view.names[a.id] else a.id
  }

  function Ids(accounts: seq<Account>): (ids: seq<string>)
    ensures |ids| == |accounts|
    ensures forall i :: 0 <= i < |ids| ==> ids[i] == accounts[i].id
  {
    seq(|accounts|, i requires 0 <= i < |accounts| => accounts[i].id)
  }

  ghost predicate NoDuplicates(ids: seq<string>) {
    forall i, j :: 0 <= i < j < |ids| ==> ids[i] != ids[j]
  }

  /** Whether one of the first `n` views is readable and lists the account. */
  ghost predicate Listed(views: seq<View>, n: nat, id: string)
    requires n <= |views|
  {
    exists v :: 0 <= v < n && views[v].View? && id in views[v].keys
  }

  /** The account bears the name that the first view listing it gives. */
  ghost predicate NamedByFirst(views: seq<View>, n: nat, a: Account)
    requires n <= |views|
  {
    exists v :: 0 <= v < n && views[v].View? && a.id in views[v].keys && !Listed(views, v, a.id)
             && NamedIn(views[v], a)
  }

  /** `_collect_new_accounts`: the keys that were not seen before, in order, and the larger set. */
  method CollectNewAccounts(view: View, before: set<string>) returns (accounts: seq<Account>, seen: set<string>)
    requires view.View?
    ensures NoDuplicates(Ids(accounts))
    ensures forall id :: id in Ids(accounts) <==> id in view.keys && id !in before
    ensures forall a <- accounts :: NamedIn(view, a)
    ensures forall id :: id in seen <==> id in before || id in view.keys
  {
    accounts, seen := [], before;
    for i := 0 to |view.keys|
      invariant NoDuplicates(Ids(accounts))
      invariant forall id :: id in Ids(accounts) <==> id in view.keys[..i] && id !in before
      invariant forall a <- accounts :: NamedIn(view, a)
      invariant forall id :: id in seen <==> id in before || id in view.keys[..i]
    {
      var id := view.keys[i];
      assert view.keys[..i + 1] == view.keys[..i] + [id];
      if id !in seen {
        seen := seen + {id};
        var account := Account(id, if id in view.names then view.names[id] else id);
        assert Ids(accounts + [account]) == Ids(accounts) + [id];
        accounts := accounts + [account];
      }
    }
    assert view.keys[..|view.keys|] == view.keys;
  }

  /** `get_linked_accounts_with_usage`: a view that cannot be read is passed over. */
  method GetLinkedAccountsWithUsage(views: seq<View>) returns (accounts: seq<Account>)
    ensures NoDuplicates(Ids(accounts))
    ensures forall id :: id in Ids(accounts) <==> Listed(views, |views|, id)
    ensures forall a <- accounts :: NamedByFirst(views, |views|, a)
  {
    accounts := [];
    var seen: set<string> := {};
    for v := 0 to |views|
      invariant NoDuplicates(Ids(accounts))
      invariant forall id :: id in Ids(accounts) <==> Listed(views, v, id)
      invariant forall a <- accounts :: NamedByFirst(views, v, a)
      invariant forall id :: id in seen <==> Listed(views, v, id)
    {
      forall id ensures Listed(views, v + 1, id) <==>
                        Listed(views, v, id) || (views[v].View? && id in views[v].keys) {
        ListedStep(views, v, id);
      }
      forall a | NamedByFirst(views, v, a) ensures NamedByFirst(views, v + 1, a) {
        NamedStep(views, v, a);
      }
      if views[v].Failed? {
        continue;
      }
      var more: seq<Account>;
      more, seen := CollectNewAccounts(views[v], seen);
      forall a <- more ensures NamedByFirst(views, v + 1, a) {
        var i :| 0 <= i < |more| && more[i] == a;
        assert Ids(more)[i] == a.id;
        assert NamedIn(views[v], a) && !Listed(views, v, a.id);
      }
      assert Ids(accounts + more) == Ids(accounts) + Ids(more);
      DistinctTogether(Ids(accounts), Ids(more));
      accounts := accounts + more;
    }
  }

  lemma DistinctTogether(a: seq<string>, b: seq<string>)
    requires NoDuplicates(a) && NoDuplicates(b) && forall id :: id in b ==> id !in a
    ensures NoDuplicates(a + b)
  {
    forall i, j | 0 <= i < j < |a + b| ensures (a + b)[i] != (a + b)[j] {
      if j >= |a| {
        assert (a + b)[j] == b[j - |a|] && b[j - |a|] in b;
      }
    }
  }

  lemma ListedStep(views: seq<View>, v: nat, id: string)
    requires v < |views|
    ensures Listed(views, v + 1, id) <==> Listed(views, v, id) || (views[v].View? && id in views[v].keys)
  {
  }

  lemma NamedStep(views: seq<View>, v: nat, a: Account)
    requires v < |views| && NamedByFirst(views, v, a)
    ensures NamedByFirst(views, v + 1, a)
  {
    var w :| 0 <= w < v && views[w].View? && a.id in views[w].keys && !Listed(views, w, a.id)
          && NamedIn(views[w], a);
    assert 0 <= w < v + 1;
  }
}
