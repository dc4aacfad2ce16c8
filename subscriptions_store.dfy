// The subscriptions store: the in-memory list of subscriptions and the
// operations that edit it. Each operation is a method on the store, proved
// against a function of the old list; the properties the store promises are
// lemmas about those functions. The database writes that follow each edit
// are modelled in the Database module and not repeated here.

module SubscriptionsStore {
  import opened Common
  import opened Schema

  /** `subscriptions.find(s => s.id === id)`, as the index of the first match or -1. */
  function FindIndex(subs: seq<Subscription>, id: string): (r: int)
    ensures -1 <= r < |subs|
    ensures r == -1 <==> forall i :: 0 <= i < |subs| ==> subs[i].id != id
    ensures r >= 0 ==> subs[r].id == id && forall i :: 0 <= i < r ==> subs[i].id != id
  {
    if subs == [] then -1
    else if subs[0].id == id then 0
    else
      var k := FindIndex(subs[1..], id);
      if k < 0 then -1 else k + 1
  }

  /** Two lists with the same ids in the same places find the same index. */
  lemma FindIndexSameIds(a: seq<Subscription>, b: seq<Subscription>, id: string)
    requires |a| == |b| && forall i :: 0 <= i < |a| ==> a[i].id == b[i].id
    ensures FindIndex(a, id) == FindIndex(b, id)
  {
    var ka, kb := FindIndex(a, id), FindIndex(b, id);
    if ka >= 0 && kb >= 0 {
      if ka < kb {
        assert b[ka].id == id;
      }
    }
  }

  /** The first subscription with `id` replaced by `change` of itself. */
  function AtFirst(subs: seq<Subscription>, id: string, change: Subscription -> Subscription): (r: seq<Subscription>)
    ensures |r| == |subs|
  {
    var k := FindIndex(subs, id);
    if k < 0 then subs else subs[k := change(subs[k])]
  }

  /** Editing the first match changes that entry alone; an unknown id changes nothing. */
  lemma AtFirstChangesOne(subs: seq<Subscription>, id: string, change: Subscription -> Subscription)
    ensures (forall i :: 0 <= i < |subs| ==> subs[i].id != id) ==> AtFirst(subs, id, change) == subs
    ensures var k := FindIndex(subs, id);
      k >= 0 ==> (AtFirst(subs, id, change)[k] == change(subs[k])
        && forall i :: 0 <= i < |subs| && i != k ==> AtFirst(subs, id, change)[i] == subs[i])
  {
  }

  // ---------------------------------------------------------------------
  // Deleting subscriptions
  // ---------------------------------------------------------------------

  /** A subscription with its replacement link cleared when `gone` holds of it. */
  function UnlinkWhere(s: Subscription, gone: string -> bool): (r: Subscription)
    ensures r == s || r == s.(replacementSubscriptionId := None)
  {
    if s.replacementSubscriptionId.Some? && gone(s.replacementSubscriptionId.value)
    then s.(replacementSubscriptionId := None)
    else s
  }

  function UnlinkAll(subs: seq<Subscription>, gone: string -> bool): (r: seq<Subscription>)
    ensures |r| == |subs|
  {
    seq(|subs|, i requires 0 <= i < |subs| => UnlinkWhere(subs[i], gone))
  }

  /** deleteSubscription: drop every entry with the id, then clear links to it. */
  function WithoutOne(subs: seq<Subscription>, id: string): seq<Subscription>
  {
    UnlinkAll(Filter(subs, (s: Subscription) => s.id != id), (r: string) => r == id)
  }

  /** batchDelete: drop the listed ids, then clear truthy links to any of them. */
  function WithoutMany(subs: seq<Subscription>, ids: seq<string>): seq<Subscription>
  {
    UnlinkAll(Filter(subs, (s: Subscription) => s.id !in ids), (r: string) => r != "" && r in ids)
  }

  /** After deleteSubscription no entry has the id or links to it, and every
      other entry is still there with only that link cleared. */
  lemma DeleteOneSpec(subs: seq<Subscription>, id: string)
    ensures forall s :: s in WithoutOne(subs, id) ==> s.id != id && s.replacementSubscriptionId != Some(id)
    ensures forall s :: s in subs && s.id != id ==> UnlinkWhere(s, (r: string) => r == id) in WithoutOne(subs, id)
    ensures |WithoutOne(subs, id)| <= |subs|
  {
    var kept := Filter(subs, (s: Subscription) => s.id != id);
    forall s | s in subs && s.id != id
      ensures UnlinkWhere(s, (r: string) => r == id) in WithoutOne(subs, id)
    {
      var i :| 0 <= i < |kept| && kept[i] == s;
      assert WithoutOne(subs, id)[i] == UnlinkWhere(s, (r: string) => r == id);
    }
  }

  /** batchDelete removes exactly the listed ids and clears every non-empty
      link to them; the other entries stay. */
  lemma DeleteManySpec(subs: seq<Subscription>, ids: seq<string>)
    ensures forall s :: s in WithoutMany(subs, ids) ==>
      s.id !in ids && (s.replacementSubscriptionId.Some? && s.replacementSubscriptionId.value != "" ==> s.replacementSubscriptionId.value !in ids)
    ensures forall s :: s in subs && s.id !in ids ==>
      UnlinkWhere(s, (r: string) => r != "" && r in ids) in WithoutMany(subs, ids)
  {
    var kept := Filter(subs, (s: Subscription) => s.id !in ids);
    forall s | s in subs && s.id !in ids
      ensures UnlinkWhere(s, (r: string) => r != "" && r in ids) in WithoutMany(subs, ids)
    {
      var i :| 0 <= i < |kept| && kept[i] == s;
      assert WithoutMany(subs, ids)[i] == UnlinkWhere(s, (r: string) => r != "" && r in ids);
    }
  }

  /** A link of "" is falsy, so batchDelete keeps it even when "" is listed,
      while deleteSubscription("") clears it. */
  lemma EmptyLinkSurvivesBatch(s: Subscription)
    requires s.replacementSubscriptionId == Some("") && s.id != ""
    ensures WithoutMany([s], [""]) == [s]
    ensures WithoutOne([s], "") == [s.(replacementSubscriptionId := None)]
  {
    assert Filter([s], (x: Subscription) => x.id !in [""]) == [s];
    assert Filter([s], (x: Subscription) => x.id != "") == [s];
  }

  // ---------------------------------------------------------------------
  // Cloning and payments
  // ---------------------------------------------------------------------

  /** The copy cloneSubscription makes. */
  function Cloned(original: Subscription, newId: string, now: string): (c: Subscription)
    ensures c.name == original.name + " (copy)" && c.paymentHistory == [] && c.id == newId
    ensures c.(id := original.id, name := original.name, createdAt := original.createdAt,
               paymentHistory := original.paymentHistory) == original
  {
    original.(id := newId, name := original.name + " (copy)", createdAt := now, paymentHistory := [])
  }

  /** A fresh id gives the clone an id no other entry has. */
  lemma CloneIdIsFresh(subs: seq<Subscription>, original: Subscription, newId: string, now: string)
    requires forall s :: s in subs ==> s.id != newId
    ensures forall s :: s in subs ==> s.id != Cloned(original, newId, now).id
    ensures Cloned(original, newId, now) !in subs
  {
  }

  /** The record recordPayment makes: today, the given amount or the price,
      the subscription's currency, the note or "". */
  function NewRecord(s: Subscription, recordId: string, today: string, amount: Option<real>, note: Option<string>): (r: PaymentRecord)
    ensures r.amount == (if amount.Some? then amount.value else s.price)
    ensures r.note == (if note.Some? then note.value else "") && r.currencyId == s.currencyId && r.date == today
  {
    PaymentRecord(recordId, today, if amount.Some? then amount.value else s.price, s.currencyId,
                  if note.Some? then note.value else "")
  }

  /** recordPayment's edit: the record in front of the history, then the
      next payment date moved on (`advance` is the calendar walk). */
  function Paid(s: Subscription, record: PaymentRecord, advance: Subscription -> string): Subscription
  {
    var withRecord := s.(paymentHistory := [record] + s.paymentHistory);
    withRecord.(nextPayment := advance(withRecord))
  }

  /** recordPayment prepends exactly one record and keeps the older ones. */
  lemma PaidPrepends(s: Subscription, record: PaymentRecord, advance: Subscription -> string)
    ensures var p := Paid(s, record, advance);
      |p.paymentHistory| == |s.paymentHistory| + 1 && p.paymentHistory[0] == record
      && p.paymentHistory[1..] == s.paymentHistory && p.id == s.id && p.price == s.price
  {
  }

  /** addPaymentRecord's edit: the record at the end of the history. */
  function WithRecord(s: Subscription, record: PaymentRecord): (r: Subscription)
    ensures |r.paymentHistory| == |s.paymentHistory| + 1
    ensures r.paymentHistory[..|s.paymentHistory|] == s.paymentHistory
    ensures r.paymentHistory[|s.paymentHistory|] == record
  {
    s.(paymentHistory := s.paymentHistory + [record])
  }

  /** deletePaymentRecord's edit: every record with that id dropped. */
  function WithoutRecord(s: Subscription, recordId: string): (r: Subscription)
    ensures forall p :: p in r.paymentHistory <==> p in s.paymentHistory && p.id != recordId
    ensures r.(paymentHistory := s.paymentHistory) == s
  {
    s.(paymentHistory := Filter(s.paymentHistory, (p: PaymentRecord) => p.id != recordId))
  }

  function ToggledFavorite(s: Subscription): Subscription
  {
    s.(favorite := !s.favorite)
  }

  /** toggleFavorite twice restores the list. */
  lemma ToggleTwiceRestores(subs: seq<Subscription>, id: string)
    ensures AtFirst(AtFirst(subs, id, ToggledFavorite), id, ToggledFavorite) == subs
  {
    var once := AtFirst(subs, id, ToggledFavorite);
    FindIndexSameIds(subs, once, id);
  }

  // ---------------------------------------------------------------------
  // Batch edits
  // ---------------------------------------------------------------------

  /** `ids.includes(s.id) ? change(s) : s` over the list. */
  function ForListed(subs: seq<Subscription>, ids: seq<string>, change: Subscription -> Subscription): (r: seq<Subscription>)
    ensures |r| == |subs|
  {
    seq(|subs|, i requires 0 <= i < |subs| => if subs[i].id in ids then change(subs[i]) else subs[i])
  }

  /** The tags batchSetTags gives a selected subscription. */
  function MergedTags(current: seq<string>, added: seq<string>): seq<string>
  {
    Dedup(current + added)
  }

  /** batchSetTags: a selected subscription's duplicate-free tags are kept
      in front, followed by the added tags it lacked, with no duplicates and
      every added tag present. */
  lemma MergedTagsSpec(current: seq<string>, added: seq<string>)
    requires NoDuplicates(current)
    ensures var r := MergedTags(current, added);
      && NoDuplicates(r) && |current| <= |r| && r[..|current|] == current
      && (forall i :: |current| <= i < |r| ==> r[i] in added && r[i] !in current)
      && (forall t :: t in added ==> t in r)
  {
    DedupOfDistinct(current);
    DedupAppend(current, added);
  }

  /** The batch setters change the listed subscriptions only. */
  lemma ForListedChangesListed(subs: seq<Subscription>, ids: seq<string>, change: Subscription -> Subscription)
    ensures forall i :: 0 <= i < |subs| && subs[i].id !in ids ==> ForListed(subs, ids, change)[i] == subs[i]
    ensures forall i :: 0 <= i < |subs| && subs[i].id in ids ==> ForListed(subs, ids, change)[i] == change(subs[i])
  {
  }

  function SetInactive(v: bool): Subscription -> Subscription
  {
    (s: Subscription) => s.(inactive := v)
  }

  function SetCategory(categoryId: string): Subscription -> Subscription
  {
    (s: Subscription) => s.(categoryId := categoryId)
  }

  function AddTags(tags: seq<string>): Subscription -> Subscription
  {
    (s: Subscription) => s.(tags := MergedTags(s.tags, tags))
  }

  // ---------------------------------------------------------------------
  // The store
  // ---------------------------------------------------------------------

  class Store {
    var subscriptions: seq<Subscription>

    constructor ()
      ensures subscriptions == []
    {
      subscriptions := [];
    }

    /** $hydrate: takes the list when the data carries one. */
    method Hydrate(data: Option<seq<Subscription>>)
      modifies this
      ensures subscriptions == if data.Some? then data.value else old(subscriptions)
    {
      if data.Some? {
        subscriptions := data.value;
      }
    }

    /** addSubscription: appends the parsed subscription. `valid` is whether
        parseSubscription accepts it; when it does not, the parse throws and
        nothing is appended (`ok` false). */
    method AddSubscription(sub: Subscription, valid: Subscription -> bool) returns (ok: bool)
      modifies this
      ensures ok <==> valid(sub)
      ensures ok ==> subscriptions == old(subscriptions) + [sub]
      ensures !ok ==> subscriptions == old(subscriptions)
    {
      if !valid(sub) {
        return false;
      }
      subscriptions := subscriptions + [sub];
      ok := true;
    }

    /** updateSubscription: `merge` spreads the patch over the old entry and
        `valid` is whether parseSubscription accepts the result; when it does
        not, the parse throws and nothing changes (`ok` false). */
    method UpdateSubscription(id: string, merge: Subscription -> Subscription, valid: Subscription -> bool)
      returns (ok: bool)
      modifies this
      ensures var k := FindIndex(old(subscriptions), id);
        ok <==> k < 0 || valid(merge(old(subscriptions)[k]))
      ensures ok ==> subscriptions == AtFirst(old(subscriptions), id, merge)
      ensures !ok ==> subscriptions == old(subscriptions)
    {
      ok := true;
      var idx := FindIndex(subscriptions, id);
      if idx != -1 {
        var updated := merge(subscriptions[idx]);
        if !valid(updated) {
          return false;
        }
        subscriptions := subscriptions[idx := updated];
      }
    }

    /** The `forEach` that clears links after a delete. */
    method UnlinkLoop(gone: string -> bool)
      modifies this`subscriptions
      ensures subscriptions == UnlinkAll(old(subscriptions), gone)
    {
      ghost var before := subscriptions;
      var i := 0;
      while i < |subscriptions|
        invariant 0 <= i <= |subscriptions| == |before|
        invariant forall j :: 0 <= j < i ==> subscriptions[j] == UnlinkWhere(before[j], gone)
        invariant forall j :: i <= j < |before| ==> subscriptions[j] == before[j]
      {
        var s := subscriptions[i];
        if s.replacementSubscriptionId.Some? && gone(s.replacementSubscriptionId.value) {
          subscriptions := subscriptions[i := s.(replacementSubscriptionId := None)];
        }
        assert subscriptions[i] == UnlinkWhere(before[i], gone);
        i := i + 1;
      }
      assert subscriptions == UnlinkAll(before, gone);
    }

    /** deleteSubscription. */
    method DeleteSubscription(id: string)
      modifies this
      ensures subscriptions == WithoutOne(old(subscriptions), id)
    {
      subscriptions := Filter(subscriptions, (s: Subscription) => s.id != id);
      UnlinkLoop((r: string) => r == id);
    }

    /** batchDelete. */
    method BatchDelete(ids: seq<string>)
      modifies this
      ensures subscriptions == WithoutMany(old(subscriptions), ids)
    {
      subscriptions := Filter(subscriptions, (s: Subscription) => s.id !in ids);
      UnlinkLoop((r: string) => r != "" && r in ids);
    }

    /** cloneSubscription: None for an unknown id; else the copy is appended
        and returned. */
    method CloneSubscription(id: string, newId: string, now: string) returns (r: Option<Subscription>)
      modifies this
      ensures FindIndex(old(subscriptions), id) == -1 <==> r.None?
      ensures r.None? ==> subscriptions == old(subscriptions)
      ensures r.Some? ==> (r.value == Cloned(old(subscriptions)[FindIndex(old(subscriptions), id)], newId, now)
                && subscriptions == old(subscriptions) + [r.value])
    {
      var idx := FindIndex(subscriptions, id);
      if idx == -1 {
        return None;
      }
      var cloned := Cloned(subscriptions[idx], newId, now);
      subscriptions := subscriptions + [cloned];
      r := Some(cloned);
    }

    /** recordPayment: a no-op for an unknown id. */
    method RecordPayment(id: string, amount: Option<real>, note: Option<string>, recordId: string, today: string,
                         advance: Subscription -> string)
      modifies this
      ensures var k := FindIndex(old(subscriptions), id);
        subscriptions == if k < 0 then old(subscriptions)
          else old(subscriptions)[k := Paid(old(subscriptions)[k], NewRecord(old(subscriptions)[k], recordId, today, amount, note), advance)]
    {
      var idx := FindIndex(subscriptions, id);
      if idx == -1 {
        return;
      }
      var sub := subscriptions[idx];
      var record := NewRecord(sub, recordId, today, amount, note);
      sub := sub.(paymentHistory := [record] + sub.paymentHistory);
      sub := sub.(nextPayment := advance(sub));
      subscriptions := subscriptions[idx := sub];
    }

    /** addPaymentRecord. */
    method AddPaymentRecord(subId: string, record: PaymentRecord)
      modifies this
      ensures subscriptions == AtFirst(old(subscriptions), subId, (s: Subscription) => WithRecord(s, record))
    {
      var idx := FindIndex(subscriptions, subId);
      if idx != -1 {
        subscriptions := subscriptions[idx := WithRecord(subscriptions[idx], record)];
      }
    }

    /** deletePaymentRecord. */
    method DeletePaymentRecord(subId: string, recordId: string)
      modifies this
      ensures subscriptions == AtFirst(old(subscriptions), subId, (s: Subscription) => WithoutRecord(s, recordId))
    {
      var idx := FindIndex(subscriptions, subId);
      if idx != -1 {
        subscriptions := subscriptions[idx := WithoutRecord(subscriptions[idx], recordId)];
      }
    }

    /** toggleFavorite. */
    method ToggleFavorite(id: string)
      modifies this
      ensures subscriptions == AtFirst(old(subscriptions), id, ToggledFavorite)
    {
      var idx := FindIndex(subscriptions, id);
      if idx != -1 {
        subscriptions := subscriptions[idx := ToggledFavorite(subscriptions[idx])];
      }
    }

    /** markNotified. */
    method MarkNotified(subId: string, date: string)
      modifies this
      ensures subscriptions == AtFirst(old(subscriptions), subId, (s: Subscription) => s.(lastNotifiedDate := date))
    {
      var idx := FindIndex(subscriptions, subId);
      if idx != -1 {
        subscriptions := subscriptions[idx := subscriptions[idx].(lastNotifiedDate := date)];
      }
    }

    /** The loop shared by batchSetInactive, batchSetCategory and batchSetTags. */
    method ForEachListed(ids: seq<string>, change: Subscription -> Subscription)
      modifies this
      ensures subscriptions == ForListed(old(subscriptions), ids, change)
    {
      ghost var before := subscriptions;
      var i := 0;
      while i < |subscriptions|
        invariant 0 <= i <= |subscriptions| == |before|
        invariant forall j :: 0 <= j < i ==> subscriptions[j] == if before[j].id in ids then change(before[j]) else before[j]
        invariant forall j :: i <= j < |before| ==> subscriptions[j] == before[j]
      {
        if subscriptions[i].id in ids {
          subscriptions := subscriptions[i := change(subscriptions[i])];
        }
        i := i + 1;
      }
    }

    method BatchSetInactive(ids: seq<string>, inactive: bool)
      modifies this
      ensures subscriptions == ForListed(old(subscriptions), ids, SetInactive(inactive))
    {
      ForEachListed(ids, SetInactive(inactive));
    }

    method BatchSetCategory(ids: seq<string>, categoryId: string)
      modifies this
      ensures subscriptions == ForListed(old(subscriptions), ids, SetCategory(categoryId))
    {
      ForEachListed(ids, SetCategory(categoryId));
    }

    method BatchSetTags(ids: seq<string>, tags: seq<string>)
      modifies this
      ensures subscriptions == ForListed(old(subscriptions), ids, AddTags(tags))
    {
      ForEachListed(ids, AddTags(tags));
    }
  }
}
