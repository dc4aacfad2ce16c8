// The converter store: the display order of currency ids, with moves one
// place up or down, and the amount being converted.

module Converter {
  import opened Common

  /** The swap moveUp performs: the id trades places with its predecessor
      when it is present and not first. */
  function MovedUp(order: seq<string>, id: string): (r: seq<string>)
    ensures |r| == |order|
  {
    var idx := IndexOf(order, id);
    if idx > 0 then order[idx - 1 := order[idx]][idx := order[idx - 1]] else order
  }

  /** The swap moveDown performs: the id trades places with its successor
      when it is present and not last. */
  function MovedDown(order: seq<string>, id: string): (r: seq<string>)
    ensures |r| == |order|
  {
    var idx := IndexOf(order, id);
    if 0 <= idx < |order| - 1 then order[idx := order[idx + 1]][idx + 1 := order[idx]] else order
  }

  /** moveUp swaps exactly the id's place and the one before it, and is a
      no-op for the first or an absent id. */
  lemma MovedUpSpec(order: seq<string>, id: string)
    ensures var idx := IndexOf(order, id); var r := MovedUp(order, id);
      && (idx <= 0 ==> r == order)
      && (idx > 0 ==> (r[idx - 1] == id && r[idx] == order[idx - 1]
            && forall j :: 0 <= j < |order| && j != idx - 1 && j != idx ==> r[j] == order[j]))
  {
  }

  /** moveDown swaps exactly the id's place and the one after it, and is a
      no-op for the last or an absent id. */
  lemma MovedDownSpec(order: seq<string>, id: string)
    ensures var idx := IndexOf(order, id); var r := MovedDown(order, id);
      && (idx < 0 || idx == |order| - 1 ==> r == order)
      && (0 <= idx < |order| - 1 ==> (r[idx + 1] == id && r[idx] == order[idx + 1]
            && forall j :: 0 <= j < |order| && j != idx && j != idx + 1 ==> r[j] == order[j]))
  {
  }

  /** Swapping two places keeps the multiset of ids. */
  lemma SwapKeepsIds(order: seq<string>, i: nat)
    requires i + 1 < |order|
    ensures multiset(order[i := order[i + 1]][i + 1 := order[i]]) == multiset(order)
  {
    var r := order[i := order[i + 1]][i + 1 := order[i]];
    assert order == order[..i] + [order[i], order[i + 1]] + order[i + 2..];
    assert r == order[..i] + [order[i + 1], order[i]] + order[i + 2..];
  }

  /** Both moves are permutations of the order. */
  lemma MovesKeepIds(order: seq<string>, id: string)
    ensures multiset(MovedUp(order, id)) == multiset(order)
    ensures multiset(MovedDown(order, id)) == multiset(order)
  {
    MovedUpKeepsIds(order, id);
    MovedDownKeepsIds(order, id);
  }

  lemma MovedUpKeepsIds(order: seq<string>, id: string)
    ensures multiset(MovedUp(order, id)) == multiset(order)
  {
    var idx := IndexOf(order, id);
    if idx > 0 {
      SwapKeepsIds(order, idx - 1);
      assert order[idx - 1 := order[idx]][idx := order[idx - 1]] == order[idx - 1 := order[idx]][idx - 1 + 1 := order[idx - 1]];
    }
  }

  lemma MovedDownKeepsIds(order: seq<string>, id: string)
    ensures multiset(MovedDown(order, id)) == multiset(order)
  {
    var idx := IndexOf(order, id);
    if 0 <= idx < |order| - 1 {
      SwapKeepsIds(order, idx);
    }
  }

  /** Moving an id that is not first up and then down restores the order
      (even with repeated ids, since both moves act on its first place). */
  lemma UpThenDownRestores(order: seq<string>, id: string)
    requires IndexOf(order, id) > 0
    ensures MovedDown(MovedUp(order, id), id) == order
  {
    var idx := IndexOf(order, id);
    var up := order[idx - 1 := order[idx]][idx := order[idx - 1]];
    assert MovedUp(order, id) == up;
    forall j | 0 <= j < idx - 1
      ensures up[j] != id
    {
      assert order[..idx][j] == order[j];
    }
    FirstPlace(up, id, idx - 1);
    var down := up[idx - 1 := up[idx]][idx := up[idx - 1]];
    assert MovedDown(up, id) == down;
    forall j | 0 <= j < |order|
      ensures down[j] == order[j]
    {
    }
  }

  /** The first place holding x is where IndexOf finds it. */
  lemma FirstPlace(s: seq<string>, x: string, k: nat)
    requires k < |s| && s[k] == x
    requires forall j :: 0 <= j < k ==> s[j] != x
    ensures IndexOf(s, x) == k
  {
    assert x !in s[..k];
  }

  class Store {
    var baseAmount: real
    var order: seq<string>

    constructor ()
      ensures baseAmount == 1.0 && order == []
    {
      baseAmount := 1.0;
      order := [];
    }

    /** setOrder. */
    method SetOrder(ids: seq<string>)
      modifies this`order
      ensures order == ids
    {
      order := ids;
    }

    /** moveUp. */
    method MoveUp(id: string)
      modifies this`order
      ensures order == MovedUp(old(order), id)
      ensures multiset(order) == multiset(old(order))
    {
      var idx := IndexOf(order, id);
      if idx > 0 {
        var arr := order;
        arr := arr[idx - 1 := order[idx]][idx := order[idx - 1]];
        order := arr;
      }
      MovedUpKeepsIds(old(order), id);
    }

    /** moveDown. */
    method MoveDown(id: string)
      modifies this`order
      ensures order == MovedDown(old(order), id)
      ensures multiset(order) == multiset(old(order))
    {
      var idx := IndexOf(order, id);
      if idx >= 0 && idx < |order| - 1 {
        var arr := order;
        arr := arr[idx := order[idx + 1]][idx + 1 := order[idx]];
        order := arr;
      }
      MovedDownKeepsIds(old(order), id);
    }

    /** reset: the amount goes back to 1; the order stays. */
    method Reset()
      modifies this`baseAmount
      ensures baseAmount == 1.0
    {
      baseAmount := 1.0;
    }
  }
}
