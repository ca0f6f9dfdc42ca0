/**
 * src/context/NotificationContext.js: the provider's notification list. It starts empty;
 * adding appends, removing drops every entry with the id, and a 1000 ms interval replaces
 * the list by its unexpired entries.
 */
module Notifications {
  import opened Lists

  datatype Notification = Notification(id: int, kind: string, message: string)

  function IdIsNot(id: int): Notification -> bool { (n: Notification) => n.id != id }

  /** The updater of `addNotification`: the new entry after all existing ones. */
  function Added(list: seq<Notification>, n: Notification): (r: seq<Notification>)
    ensures |r| == |list| + 1 && r[..|list|] == list && r[|list|] == n
  {
    list + [n]
  }

  /** The updater of `removeNotification`: the entries whose id differs, in order. */
  function Removed(list: seq<Notification>, id: int): (r: seq<Notification>)
    ensures forall n :: n in r <==> n in list && n.id != id
    ensures forall n :: multiset(r)[n] == if n.id == id then 0 else multiset(list)[n]
  {
    var r := Filter(list, IdIsNot(id));
    forall n ensures multiset(r)[n] == if n.id == id then 0 else multiset(list)[n] {
      FilterCount(list, IdIsNot(id), n);
    }
    r
  }

  /**
   * Removal keeps the order of what stays: it distributes over concatenation, and a single
   * entry stays exactly when its id differs.
   */
  lemma RemovedKeepsOrder(a: seq<Notification>, b: seq<Notification>, n: Notification, id: int)
    ensures Removed(a + b, id) == Removed(a, id) + Removed(b, id)
    ensures Removed([n], id) == if n.id == id then [] else [n]
  {
    FilterAppend(a, b, IdIsNot(id));
  }

  /** Removing an id no entry has changes nothing. */
  lemma RemoveAbsent(list: seq<Notification>, id: int)
    requires forall i :: 0 <= i < |list| ==> list[i].id != id
    ensures Removed(list, id) == list
  {
    FilterKeepsAll(list, IdIsNot(id));
  }

  /** Removing the same id twice is removing it once. */
  lemma RemoveIdempotent(list: seq<Notification>, id: int)
    ensures Removed(Removed(list, id), id) == Removed(list, id)
  {
    FilterIdempotent(list, IdIsNot(id));
  }

  /** Removing what was just added under a fresh id restores the list. */
  lemma RemoveUndoesAdd(list: seq<Notification>, n: Notification)
    requires forall i :: 0 <= i < |list| ==> list[i].id != n.id
    ensures Removed(Added(list, n), n.id) == list
  {
    FilterAppend(list, [n], IdIsNot(n.id));
    FilterKeepsAll(list, IdIsNot(n.id));
    assert Filter([n], IdIsNot(n.id)) == [];
  }

  /** Removal commutes with appending an entry of another id. */
  lemma RemoveOtherKeepsAdd(list: seq<Notification>, n: Notification, id: int)
    requires n.id != id
    ensures Removed(Added(list, n), id) == Added(Removed(list, id), n)
  {
    FilterAppend(list, [n], IdIsNot(id));
    assert Filter([n], IdIsNot(id)) == [n];
  }

  class NotificationProvider {
    var notifications: seq<Notification>

    constructor()
      ensures notifications == []
    {
      notifications := [];
    }

    method AddNotification(n: Notification)
      modifies this
      ensures notifications == Added(old(notifications), n)
    {
      notifications := notifications + [n];
    }

    method RemoveNotification(id: int)
      modifies this
      ensures notifications == Removed(old(notifications), id)
    {
      notifications := Removed(notifications, id);
    }

    /**
     * One interval tick. The expiry rule lives in a service outside this model; it is
     * taken as a predicate `live`, and the tick keeps the live entries in order.
     */
    method Tick(live: Notification -> bool)
      modifies this
      ensures notifications == Filter(old(notifications), live)
    {
      notifications := Filter(notifications, live);
    }
  }
}
