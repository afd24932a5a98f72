/** Merging the ids of an entity's invoices into one short id, and building the entities. */
module InvoiceIds {
  import opened Usage

  const MAX_LENGTH := 20
  const SUFFIX_LENGTH := 4
  const MARKER := ".."
  const SEPARATOR := ','

  /** `id[-4:]` behind a dash. */
  function Suffix(id: string): (s: string)
    ensures 1 <= |s| <= 5
    ensures id != "" ==> |s| >= 2
    ensures SEPARATOR !in id ==> SEPARATOR !in s
  {
    "-" + if |id| <= SUFFIX_LENGTH then id else id[|id| - SUFFIX_LENGTH..]
  }

  function Join(a: string, b: string): (s: string)
    ensures |s| == |a| + 1 + |b| && SEPARATOR in s
  {
    var s := a + [SEPARATOR] + b;
    assert s[|a|] == SEPARATOR;
    s
  }

  /** `merge_invoice_ids`. */
  function Merge(existing: string, newId: string): string {
    if newId == "" then existing
    else
      var head := if SEPARATOR in existing then existing else Suffix(existing);
      if |Join(head, Suffix(newId))| <= MAX_LENGTH then Join(head, Suffix(newId))
      else if |Join(head, MARKER)| <= MAX_LENGTH then Join(head, MARKER)
      else head
  }

  /** All ids merged into the first, in order. */
  function Fold(first: string, ids: seq<string>): string {
    if ids == [] then first else Merge(Fold(first, ids[..|ids| - 1]), ids[|ids| - 1])
  }

  ghost predicate MergesSome(ids: seq<string>) {
    exists i :: 0 <= i < |ids| && ids[i] != ""
  }

  lemma {:induction false} FoldKeepsShape(first: string, ids: seq<string>)
    requires SEPARATOR !in first
    ensures MergesSome(ids) ==> SEPARATOR in Fold(first, ids) && |Fold(first, ids)| <= MAX_LENGTH
    ensures !MergesSome(ids) ==> Fold(first, ids) == first
  {
    if ids != [] {
      var front, last := ids[..|ids| - 1], ids[|ids| - 1];
      FoldKeepsShape(first, front);
      assert MergesSome(ids) <==> MergesSome(front) || last != "" by {
        if MergesSome(front) {
          var i :| 0 <= i < |front| && front[i] != "";
          assert ids[i] != "";
        }
        if last != "" {
          assert ids[|ids| - 1] != "";
        }
        if MergesSome(ids) && last == "" {
          var i :| 0 <= i < |ids| && ids[i] != "";
          assert front[i] != "";
        }
      }
    }
  }

  /** The merged id fits exactly when something was merged or the first id fits by itself. */
  lemma FoldFits(first: string, ids: seq<string>)
    requires SEPARATOR !in first
    ensures |Fold(first, ids)| <= MAX_LENGTH <==> MergesSome(ids) || |first| <= MAX_LENGTH
  {
    FoldKeepsShape(first, ids);
  }

  /** A merged id that has no room left, not even for the marker. */
  predicate Full(id: string) {
    SEPARATOR in id && MAX_LENGTH - 3 < |id|
  }

  /** A merged id stays as it is under every further id exactly when it is full. */
  lemma FixedIffFull(id: string, newId: string)
    requires SEPARATOR in id && newId != ""
    ensures Merge(id, newId) == id <==> Full(id)
  {
  }

  lemma {:induction false} FullIsFinal(id: string, more: seq<string>)
    requires Full(id)
    ensures Fold(id, more) == id
  {
    if more != [] {
      FullIsFinal(id, more[..|more| - 1]);
      if more[|more| - 1] != "" {
        FixedIffFull(id, more[|more| - 1]);
      }
    }
  }

  /** Merging this id overflows, and the marker takes its place. */
  predicate Overflows(id: string, newId: string) {
    var head := if SEPARATOR in id then id else Suffix(id);
    newId != "" && |Join(head, Suffix(newId))| > MAX_LENGTH && |Join(head, MARKER)| <= MAX_LENGTH
  }

  /** Once the marker appears it is the last component, and the value never changes again. */
  lemma MarkerIsFinal(id: string, newId: string, more: seq<string>)
    requires Overflows(id, newId)
    ensures
      var marked := Merge(id, newId);
      && marked[|marked| - 3..] == [SEPARATOR] + MARKER
      && |marked| <= MAX_LENGTH
      && Fold(marked, more) == marked
  {
    FullIsFinal(Merge(id, newId), more);
  }

  lemma {:induction false} FoldConcat(first: string, a: seq<string>, b: seq<string>)
    ensures Fold(first, a + b) == Fold(Fold(first, a), b)
  {
    if b == [] {
      assert a + b == a;
    } else {
      FoldConcat(first, a, b[..|b| - 1]);
      assert (a + b)[..|a + b| - 1] == a + b[..|b| - 1];
    }
  }

  predicate Marked(id: string) {
    |id| >= 3 && id[|id| - 3..] == [SEPARATOR] + MARKER
  }

  /**
   * Over a whole fold: once an id has overflowed, at any position, every longer fold has the value that it
   * had there, and that value ends in the marker.
   */
  lemma FoldMarkerIsFinal(first: string, ids: seq<string>, k: nat, n: nat)
    requires k < n <= |ids| && Overflows(Fold(first, ids[..k]), ids[k])
    ensures Fold(first, ids[..n]) == Fold(first, ids[..k + 1])
    ensures Marked(Fold(first, ids[..n])) && |Fold(first, ids[..n])| <= MAX_LENGTH
  {
    FoldSnoc(first, ids[..k], ids[k]);
    assert ids[..k] + [ids[k]] == ids[..k + 1];
    MarkerIsFinal(Fold(first, ids[..k]), ids[k], ids[k + 1..n]);
    FoldConcat(first, ids[..k + 1], ids[k + 1..n]);
    assert ids[..k + 1] + ids[k + 1..n] == ids[..n];
  }

  /** Merging a comma-free id brings in the marker exactly by overflowing. */
  lemma MarkerMeansOverflow(id: string, newId: string)
    requires newId != "" && SEPARATOR !in newId && !Marked(id)
    ensures Marked(Merge(id, newId)) <==> Overflows(id, newId)
  {
    var head := if SEPARATOR in id then id else Suffix(id);
    JoinUnmarked(head, Suffix(newId));
    assert |head| >= 3 ==> head[|head| - 3..][0] == head[|head| - 3];
    if Overflows(id, newId) {
      assert Join(head, MARKER)[|head|..] == [SEPARATOR] + MARKER;
    }
  }

  lemma JoinUnmarked(head: string, tail: string)
    requires SEPARATOR !in tail && |tail| >= 2 && tail[0] == '-'
    ensures !Marked(Join(head, tail))
  {
    var s := Join(head, tail);
    assert s[|head| + 1..] == tail;
    assert |tail| == 2 ==> s[|s| - 2] == '-';
    assert |tail| > 2 ==> s[|s| - 3] == tail[|tail| - 3];
    assert s[|s| - 3..][0] == s[|s| - 3] && s[|s| - 3..][1] == s[|s| - 2];
  }

  /** The first three suffixes, and the marker for the rest. */
  function Abbreviation(first: string, ids: seq<string>): string {
    if ids == [] then first
    else
      var two := Join(Suffix(first), Suffix(ids[0]));
      if |ids| == 1 then two
      else
        var three := Join(two, Suffix(ids[1]));
        if |ids| == 2 then three else Join(three, MARKER)
  }

  lemma SuffixLength(id: string)
    requires |id| >= SUFFIX_LENGTH
    ensures |Suffix(id)| == 5
  {
  }

  lemma MergeFits(head: string, newId: string)
    requires SEPARATOR in head && |newId| >= SUFFIX_LENGTH
    ensures |head| <= 14 ==> Merge(head, newId) == Join(head, Suffix(newId))
    ensures 14 < |head| <= 17 ==> Merge(head, newId) == Join(head, MARKER)
    ensures 17 < |head| ==> Merge(head, newId) == head
  {
    SuffixLength(newId);
  }

  lemma AbbreviationGrows(first: string, ids: seq<string>, last: string)
    requires SEPARATOR !in first && |first| >= SUFFIX_LENGTH && |last| >= SUFFIX_LENGTH
    requires forall i :: 0 <= i < |ids| ==> |ids[i]| >= SUFFIX_LENGTH
    ensures Merge(Abbreviation(first, ids), last) == Abbreviation(first, ids + [last])
  {
    SuffixLength(first);
    SuffixLength(last);
    if |ids| == 0 {
    } else {
      SuffixLength(ids[0]);
      assert (ids + [last])[0] == ids[0];
      if |ids| == 1 {
        MergeFits(Abbreviation(first, ids), last);
      } else {
        SuffixLength(ids[1]);
        assert (ids + [last])[1] == ids[1];
        MergeFits(Abbreviation(first, ids), last);
      }
    }
  }

  /** Ids of at least four characters: three suffixes at most, then the marker exactly when there were more. */
  lemma {:induction false} FoldAbbreviates(first: string, ids: seq<string>)
    requires SEPARATOR !in first && |first| >= SUFFIX_LENGTH
    requires forall i :: 0 <= i < |ids| ==> |ids[i]| >= SUFFIX_LENGTH
    ensures Fold(first, ids) == Abbreviation(first, ids)
  {
    if ids != [] {
      var front, last := ids[..|ids| - 1], ids[|ids| - 1];
      assert front + [last] == ids;
      FoldAbbreviates(first, front);
      AbbreviationGrows(first, front, last);
      FoldSnoc(first, front, last);
    }
  }

  lemma FoldSnoc(first: string, ids: seq<string>, id: string)
    ensures Fold(first, ids + [id]) == Merge(Fold(first, ids), id)
  {
    assert (ids + [id])[..|ids + [id]| - 1] == ids;
  }

  /** An invoice summary; absent fields have been replaced by their defaults. */
  datatype Summary = Summary(
    invoicing: string,
    billing: string,
    id: string,
    base: string,
    payment: string,
    rate: real,
    primary: bool)

  function EntityKey(s: Summary): string {
    s.invoicing + ":" + s.billing
  }

  /** The rates of the first `n` summaries paid in the currency, of one invoicing entity unless it is "". */
  function RatesTo(summaries: seq<Summary>, n: nat, currency: string, invoicing: string): seq<real>
    requires n <= |summaries|
  {
    if n == 0 then []
    else
      var s := summaries[n - 1];
      RatesTo(summaries, n - 1, currency, invoicing)
      + if s.payment == currency && (invoicing == "" || s.invoicing == invoicing) then [s.rate] else []
  }

  function Max(rates: seq<real>): (r: real)
    requires rates != []
    ensures r in rates && forall i :: 0 <= i < |rates| ==> rates[i] <= r
  {
    if |rates| == 1 then rates[0]
    else
      var r := Max(rates[1..]);
      assert forall i :: 0 < i < |rates| ==> rates[i] == rates[1..][i - 1];
      if rates[0] >= r then rates[0] else r
  }

  /** `get_rate`. */
  function RateOf(summaries: seq<Summary>, invoicing: string, currency: string): real {
    var own := RatesTo(summaries, |summaries|, currency, invoicing);
    var all := RatesTo(summaries, |summaries|, currency, "");
    if own != [] then Max(own) else if all != [] then Max(all) else 0.0
  }

  /** `get_payment_currency`: of the first summary with that rate. */
  function PaymentCurrency(summaries: seq<Summary>, rate: real, i: nat): string
    requires i <= |summaries|
    decreases |summaries| - i
  {
    if i == |summaries| then "USD"
    else if summaries[i].rate == rate then summaries[i].payment
    else PaymentCurrency(summaries, rate, i + 1)
  }

  /** `_extract_rates`. */
  method ExtractRates(summaries: seq<Summary>, currency: string, invoicing: string) returns (rates: seq<real>)
    ensures rates == RatesTo(summaries, |summaries|, currency, invoicing)
  {
    rates := [];
    for i := 0 to |summaries|
      invariant rates == RatesTo(summaries, i, currency, invoicing)
    {
      if summaries[i].payment != currency {
        continue;
      }
      if invoicing != "" && summaries[i].invoicing != invoicing {
        continue;
      }
      rates := rates + [summaries[i].rate];
    }
  }

  method GetRate(summaries: seq<Summary>, invoicing: string, currency: string) returns (rate: real)
    ensures rate == RateOf(summaries, invoicing, currency)
  {
    var own := ExtractRates(summaries, currency, invoicing);
    if own != [] {
      return Max(own);
    }
    var all := ExtractRates(summaries, currency, "");
    rate := if all == [] then 0.0 else Max(all);
  }

  /** The ids of the first `n` summaries of the entity, in order. */
  function IdsTo(summaries: seq<Summary>, n: nat, key: string): seq<string>
    requires n <= |summaries|
  {
    if n == 0 then []
    else IdsTo(summaries, n - 1, key) + if EntityKey(summaries[n - 1]) == key then [summaries[n - 1].id] else []
  }

  function FirstTo(summaries: seq<Summary>, n: nat, key: string): Option<Summary>
    requires n <= |summaries|
  {
    if n == 0 then None
    else
      var before := FirstTo(summaries, n - 1, key);
      if before.None? && EntityKey(summaries[n - 1]) == key then Some(summaries[n - 1]) else before
  }

  predicate AnyPrimary(summaries: seq<Summary>, n: nat, key: string)
    requires n <= |summaries|
  {
    exists i :: 0 <= i < n && EntityKey(summaries[i]) == key && summaries[i].primary
  }

  /** The entity of a key: all of its ids folded, the currencies of its first summary, any primary flag. */
  function Described(summaries: seq<Summary>, n: nat, key: string, currency: string): Option<Entity>
    requires n <= |summaries|
  {
    var ids, first := IdsTo(summaries, n, key), FirstTo(summaries, n, key);
    if ids == [] || first.None? then None
    else
      var rate := RateOf(summaries, first.value.invoicing, currency);
      Some(Entity(Fold(ids[0], ids[1..]), first.value.base, PaymentCurrency(summaries, rate, 0), rate,
                  AnyPrimary(summaries, n, key)))
  }

  lemma {:induction false} IdsOccur(summaries: seq<Summary>, n: nat, key: string)
    requires n <= |summaries|
    ensures IdsTo(summaries, n, key) != [] <==> FirstTo(summaries, n, key).Some?
    ensures IdsTo(summaries, n, key) == [] ==> !AnyPrimary(summaries, n, key)
  {
    if n > 0 {
      IdsOccur(summaries, n - 1, key);
    }
  }

  lemma FoldOneMore(ids: seq<string>, id: string)
    requires ids != []
    ensures Fold((ids + [id])[0], (ids + [id])[1..]) == Merge(Fold(ids[0], ids[1..]), id)
  {
    var more := (ids + [id])[1..];
    assert more == ids[1..] + [id];
    assert more[..|more| - 1] == ids[1..];
  }

  lemma AnyPrimaryStep(summaries: seq<Summary>, n: nat, key: string)
    requires n < |summaries|
    ensures AnyPrimary(summaries, n + 1, key) <==>
            AnyPrimary(summaries, n, key) || (EntityKey(summaries[n]) == key && summaries[n].primary)
  {
  }

  /** How one more summary changes the description: it merges its id, starts an entity, or has no effect. */
  lemma DescribedStep(summaries: seq<Summary>, n: nat, key: string, currency: string)
    requires n < |summaries|
    ensures
      var s, before := summaries[n], Described(summaries, n, key, currency);
      var rate := RateOf(summaries, s.invoicing, currency);
      Described(summaries, n + 1, key, currency) ==
        if EntityKey(s) != key then before
        else if before.None? then
          Some(Entity(s.id, s.base, PaymentCurrency(summaries, rate, 0), rate, s.primary))
        else
          Some(before.value.(invoiceId := Merge(before.value.invoiceId, s.id),
                             primary := s.primary || before.value.primary))
  {
    IdsOccur(summaries, n, key);
    AnyPrimaryStep(summaries, n, key);
    if EntityKey(summaries[n]) != key {
      SameIds(summaries, n, key);
    } else if IdsTo(summaries, n, key) == [] {
      FirstId(summaries, n, key);
    } else {
      LaterId(summaries, n, key);
    }
  }

  lemma SameIds(summaries: seq<Summary>, n: nat, key: string)
    requires n < |summaries| && EntityKey(summaries[n]) != key
    ensures IdsTo(summaries, n + 1, key) == IdsTo(summaries, n, key)
    ensures FirstTo(summaries, n + 1, key) == FirstTo(summaries, n, key)
  {
  }

  lemma FirstId(summaries: seq<Summary>, n: nat, key: string)
    requires n < |summaries| && EntityKey(summaries[n]) == key && IdsTo(summaries, n, key) == []
    ensures IdsTo(summaries, n + 1, key) == [summaries[n].id]
    ensures FirstTo(summaries, n + 1, key) == Some(summaries[n])
    ensures Fold(IdsTo(summaries, n + 1, key)[0], IdsTo(summaries, n + 1, key)[1..]) == summaries[n].id
  {
    IdsOccur(summaries, n, key);
    assert [summaries[n].id][1..] == [];
  }

  lemma LaterId(summaries: seq<Summary>, n: nat, key: string)
    requires n < |summaries| && EntityKey(summaries[n]) == key && IdsTo(summaries, n, key) != []
    ensures
      var ids, more := IdsTo(summaries, n, key), IdsTo(summaries, n + 1, key);
      && more != []
      && Fold(more[0], more[1..]) == Merge(Fold(ids[0], ids[1..]), summaries[n].id)
      && FirstTo(summaries, n + 1, key) == FirstTo(summaries, n, key)
  {
    IdsOccur(summaries, n, key);
    FoldOneMore(IdsTo(summaries, n, key), summaries[n].id);
  }

  function At(entities: map<string, Entity>, key: string): Option<Entity> {
    if key in entities then Some(entities[key]) else None
  }

  /** `_build_entities`: exactly the entities that occur, each described by all of its summaries. */
  method BuildEntities(summaries: seq<Summary>, currency: string) returns (entities: map<string, Entity>)
    ensures forall key :: At(entities, key) == Described(summaries, |summaries|, key, currency)
  {
    entities := map[];
    for i := 0 to |summaries|
      invariant forall key :: At(entities, key) == Described(summaries, i, key, currency)
    {
      ghost var before := entities;
      entities := AddSummary(entities, summaries, i, currency);
      forall key ensures At(entities, key) == Described(summaries, i + 1, key, currency) {
        DescribedStep(summaries, i, key, currency);
        assert At(before, key) == Described(summaries, i, key, currency);
      }
    }
  }

  /** One iteration, with `_build_invoice_entity`. */
  method AddSummary(before: map<string, Entity>, summaries: seq<Summary>, i: nat, currency: string)
    returns (entities: map<string, Entity>)
    requires i < |summaries|
    ensures
      var s := summaries[i];
      var own, rate := EntityKey(s), RateOf(summaries, s.invoicing, currency);
      && (forall key :: key != own ==> At(entities, key) == At(before, key))
      && At(entities, own) ==
           match At(before, own)
           case None => Some(Entity(s.id, s.base, PaymentCurrency(summaries, rate, 0), rate, s.primary))
           case Some(e) => Some(e.(invoiceId := Merge(e.invoiceId, s.id), primary := s.primary || e.primary))
  {
    var s := summaries[i];
    var own := EntityKey(s);
    if own in before {
      var e := before[own];
      return before[own := e.(invoiceId := Merge(e.invoiceId, s.id), primary := s.primary || e.primary)];
    }
    var rate := GetRate(summaries, s.invoicing, currency);
    return before[own := Entity(s.id, s.base, PaymentCurrency(summaries, rate, 0), rate, s.primary)];
  }

  lemma {:induction false} RatesOccur(summaries: seq<Summary>, n: nat, currency: string, invoicing: string, rate: real)
    requires n <= |summaries|
    ensures rate in RatesTo(summaries, n, currency, invoicing) <==>
            exists i :: 0 <= i < n && summaries[i].payment == currency && summaries[i].rate == rate
                     && (invoicing == "" || summaries[i].invoicing == invoicing)
  {
    if n > 0 {
      RatesOccur(summaries, n - 1, currency, invoicing, rate);
    }
  }

  /** Whether some invoice of that entity, or of any if it is "", is paid in the currency. */
  ghost predicate Paid(summaries: seq<Summary>, invoicing: string, currency: string) {
    exists i :: PaidAt(summaries, i, invoicing, currency)
  }

  predicate PaidAt(summaries: seq<Summary>, i: int, invoicing: string, currency: string) {
    && 0 <= i < |summaries| && summaries[i].payment == currency
    && (invoicing == "" || summaries[i].invoicing == invoicing)
  }

  /** The rate is the highest one paid in the currency, among the invoices of the entity if there are any,
      else among all, and zero if nothing is paid in the currency. */
  lemma RateIsHighest(summaries: seq<Summary>, invoicing: string, currency: string)
    ensures
      var rate := RateOf(summaries, invoicing, currency);
      var whose := if Paid(summaries, invoicing, currency) then invoicing else "";
      if Paid(summaries, "", currency)
      then
        && (exists i :: PaidAt(summaries, i, whose, currency) && summaries[i].rate == rate)
        && (forall i :: PaidAt(summaries, i, whose, currency) ==> summaries[i].rate <= rate)
      else rate == 0.0
  {
    RatesTell(summaries, currency, invoicing);
    RatesTell(summaries, currency, "");
    if i :| PaidAt(summaries, i, invoicing, currency) {
      assert PaidAt(summaries, i, "", currency);
    }
  }

  lemma RatesTell(summaries: seq<Summary>, currency: string, invoicing: string)
    ensures
      var rates := RatesTo(summaries, |summaries|, currency, invoicing);
      && (rates != [] <==> Paid(summaries, invoicing, currency))
      && (rates != [] ==>
            && (exists i :: PaidAt(summaries, i, invoicing, currency) && summaries[i].rate == Max(rates))
            && (forall i :: PaidAt(summaries, i, invoicing, currency) ==> summaries[i].rate <= Max(rates)))
  {
    var rates := RatesTo(summaries, |summaries|, currency, invoicing);
    forall rate ensures rate in rates <==>
      exists i :: PaidAt(summaries, i, invoicing, currency) && summaries[i].rate == rate
    {
      RatesOccur(summaries, |summaries|, currency, invoicing, rate);
    }
    if rates != [] {
      assert rates[0] in rates;
    }
    if i :| PaidAt(summaries, i, invoicing, currency) {
      assert summaries[i].rate in rates;
    }
    forall i | PaidAt(summaries, i, invoicing, currency) ensures rates != [] && summaries[i].rate <= Max(rates) {
      assert summaries[i].rate in rates;
    }
  }

  /** The payment currency is that of the first invoice with the rate, and US dollars without one. */
  lemma {:induction false} PaymentOfRate(summaries: seq<Summary>, rate: real, i: nat)
    requires i <= |summaries|
    ensures
      if exists k :: i <= k < |summaries| && summaries[k].rate == rate
      then exists k :: i <= k < |summaries| && summaries[k].rate == rate
                    && PaymentCurrency(summaries, rate, i) == summaries[k].payment
                    && forall j :: i <= j < k ==> summaries[j].rate != rate
      else PaymentCurrency(summaries, rate, i) == "USD"
    decreases |summaries| - i
  {
    if i < |summaries| && summaries[i].rate != rate {
      PaymentOfRate(summaries, rate, i + 1);
    }
  }

  /** Two summaries belong to one entity exactly if they name the same invoicing and billing entity, as long
      as the names of invoicing entities are free of colons. */
  lemma KeysTellApart(s: Summary, t: Summary)
    requires ':' !in s.invoicing && ':' !in t.invoicing
    ensures EntityKey(s) == EntityKey(t) <==> s.invoicing == t.invoicing && s.billing == t.billing
  {
    ColonAt(s);
    ColonAt(t);
    if EntityKey(s) == EntityKey(t) {
      assert |s.invoicing| == |t.invoicing|;
    }
  }

  lemma ColonAt(s: Summary)
    requires ':' !in s.invoicing
    ensures
      var key, n := EntityKey(s), |s.invoicing|;
      && |key| > n && key[n] == ':' && (forall k :: 0 <= k < n ==> key[k] != ':')
      && key[..n] == s.invoicing && key[n + 1..] == s.billing
  {
  }
}
