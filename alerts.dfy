// useAlerts: the shared list of in-app alerts, replaced wholesale by
// setAlerts, thinned by dismiss and emptied by dismissAll.

module Alerts {
  import opened Common
  import opened Notifications

  /** The alerts left after dismissing `id`. */
  function Dismissed(alerts: seq<InAppAlert>, id: string): (r: seq<InAppAlert>)
    ensures forall a :: a in r <==> a in alerts && a.id != id
    ensures |r| <= |alerts|
  {
    Filter(alerts, (a: InAppAlert) => a.id != id)
  }

  /** Dismissing an id no alert carries changes nothing. */
  lemma {:induction false} FilterKeepsAll(alerts: seq<InAppAlert>, id: string)
    requires forall a :: a in alerts ==> a.id != id
    ensures Dismissed(alerts, id) == alerts
  {
    if alerts != [] {
      FilterKeepsAll(alerts[1..], id);
      assert alerts == [alerts[0]] + alerts[1..];
    }
  }

  /** Dismissing keeps the other alerts in their order: what remains is an
      order-preserving selection of the list. */
  lemma {:induction false} DismissedIsSubsequence(alerts: seq<InAppAlert>, id: string)
    ensures IsSubsequence(Dismissed(alerts, id), alerts)
  {
    if alerts != [] {
      DismissedIsSubsequence(alerts[1..], id);
      assert alerts == [alerts[0]] + alerts[1..];
    }
  }

  /** `small` can be obtained from `big` by deleting elements. */
  predicate IsSubsequence(small: seq<InAppAlert>, big: seq<InAppAlert>)
  {
    if small == [] then true
    else if big == [] then false
    else if small[0] == big[0] then IsSubsequence(small[1..], big[1..])
    else IsSubsequence(small, big[1..])
  }

  class AlertList {
    var alerts: seq<InAppAlert>

    constructor ()
      ensures alerts == []
    {
      alerts := [];
    }

    /** setAlerts. */
    method SetAlerts(newAlerts: seq<InAppAlert>)
      modifies this
      ensures alerts == newAlerts
    {
      alerts := newAlerts;
    }

    /** dismiss. */
    method Dismiss(id: string)
      modifies this
      ensures alerts == Dismissed(old(alerts), id)
      ensures forall a :: a in alerts ==> a.id != id
      ensures (forall a :: a in old(alerts) ==> a.id != id) ==> alerts == old(alerts)
    {
      if forall a :: a in alerts ==> a.id != id {
        FilterKeepsAll(alerts, id);
      }
      alerts := Filter(alerts, (a: InAppAlert) => a.id != id);
    }

    /** dismissAll. */
    method DismissAll()
      modifies this
      ensures alerts == []
    {
      alerts := [];
    }
  }
}
