/**
 The order store as a file that several processes change: the broker, the alerting
 calls and reconciliation each load the whole list, change their copy and save it,
 without a lock.
 */
module StoreFile {
  import opened OrderStore
  import opened Wrappers

  /** The saved list, and the copies that writers hold. */
  datatype Disk = Disk(orders: seq<Order>, copies: map<int, seq<Order>>)

  datatype Access =
    | Load(writer: int)
    | Write(writer: int, order: Order)
    | Save(writer: int)
    | Drop(writer: int)

  /** One order of a list is replaced, or a new one is appended. */
  function Put(orders: seq<Order>, order: Order): seq<Order> {
    var i := Place(orders, order.key.logical);
    if i < |orders| then orders[i := order] else orders + [order]
  }

  /** Every upsert and every update of the store is such a change, or none. */
  lemma ChangeIsPut(orders: seq<Order>, change: Change) returns (order: Option<Order>)
    ensures Changed(orders, change) == if order.Some? then Put(orders, order.value) else orders
  {
    match change
    case Upsert(intent, status, reason, now) =>
      var i := Place(orders, LogicalOf(intent));
      order := Some(if i < |orders| then Refresh(orders[i], intent, status, reason, now)
                    else NewOrder(intent, status, reason, now));
    case Update(key, status, report, now) =>
      var i := Place(orders, key.logical);
      order := if i < |orders| && orders[i].key == key then Some(Reported(orders[i], status, report, now)) else None;
  }

  function Accessed(d: Disk, a: Access): Disk {
    match a
    case Load(w) => d.(copies := d.copies[w := d.orders])
    case Write(w, order) => if w in d.copies then d.(copies := d.copies[w := Put(d.copies[w], order)]) else d
    case Save(w) => if w in d.copies then Disk(d.copies[w], d.copies - {w}) else d
    case Drop(w) => d.(copies := d.copies - {w})
  }

  function AccessedAll(d: Disk, accesses: seq<Access>): Disk {
    if accesses == [] then d else Accessed(AccessedAll(d, accesses[..|accesses| - 1]), accesses[|accesses| - 1])
  }

  /** No writer changes the order itself. */
  predicate Spared(accesses: seq<Access>, logical: Logical) {
    forall i :: 0 <= i < |accesses| && accesses[i].Write? ==> accesses[i].order.key.logical != logical
  }

  /** No held copy shows the order otherwise than the file. */
  predicate NoneStale(d: Disk, logical: Logical) {
    forall w :: w in d.copies ==> Lookup(d.copies[w], logical) == Lookup(d.orders, logical)
  }

  ghost predicate StaysAsSaved(d: Disk, logical: Logical) {
    forall accesses :: Spared(accesses, logical) ==>
      Lookup(AccessedAll(d, accesses).orders, logical) == Lookup(d.orders, logical)
  }

  lemma AccessKeeps(d: Disk, a: Access, logical: Logical)
    requires NoneStale(d, logical) && (a.Write? ==> a.order.key.logical != logical)
    ensures NoneStale(Accessed(d, a), logical) && Lookup(Accessed(d, a).orders, logical) == Lookup(d.orders, logical)
  {
    if a.Write? && a.writer in d.copies {
      var copy := d.copies[a.writer];
      PlaceElsewhere(copy, Place(copy, a.order.key.logical), a.order, logical);
    }
  }

  lemma {:induction false} AccessesKeep(d: Disk, accesses: seq<Access>, logical: Logical)
    requires NoneStale(d, logical) && Spared(accesses, logical)
    ensures NoneStale(AccessedAll(d, accesses), logical)
    ensures Lookup(AccessedAll(d, accesses).orders, logical) == Lookup(d.orders, logical)
  {
    if accesses != [] {
      var init := accesses[..|accesses| - 1];
      assert forall i :: 0 <= i < |init| ==> init[i] == accesses[i];
      AccessesKeep(d, init, logical);
      AccessKeeps(AccessedAll(d, init), accesses[|accesses| - 1], logical);
    }
  }

  lemma OneAccess(d: Disk, a: Access)
    ensures AccessedAll(d, [a]) == Accessed(d, a)
  {
    assert [a][..0] == [];
  }

  /** A saved order, a fill among them, stays as it was saved through whatever the writers do to other
      orders, exactly when none of them holds a copy that shows it otherwise. */
  lemma StaysIffNoneStale(d: Disk, logical: Logical)
    ensures StaysAsSaved(d, logical) <==> NoneStale(d, logical)
  {
    if NoneStale(d, logical) {
      forall accesses | Spared(accesses, logical)
        ensures Lookup(AccessedAll(d, accesses).orders, logical) == Lookup(d.orders, logical)
      {
        AccessesKeep(d, accesses, logical);
      }
    } else {
      var w :| w in d.copies && Lookup(d.copies[w], logical) != Lookup(d.orders, logical);
      OneAccess(d, Save(w));
      assert Spared([Save(w)], logical);
      assert Lookup(AccessedAll(d, [Save(w)]).orders, logical) != Lookup(d.orders, logical);
    }
  }

  /** So what a writer saves is lost again exactly when another holds a copy that shows the order otherwise,
      as reconciliation does of an order that an alerting call fills in between. */
  lemma SavedStaysIffNoneStale(d: Disk, w: int, logical: Logical)
    requires w in d.copies
    ensures StaysAsSaved(Accessed(d, Save(w)), logical) <==>
      forall other :: other in d.copies && other != w ==>
        Lookup(d.copies[other], logical) == Lookup(d.copies[w], logical)
  {
    StaysIffNoneStale(Accessed(d, Save(w)), logical);
    assert forall other :: other in d.copies && other != w ==> other in Accessed(d, Save(w)).copies;
  }

  /** One writer loads; another loads, changes the order and saves; the first saves its copy: the change is gone. */
  lemma StaleSaveLosesAChange(d: Disk, early: int, late: int, order: Order)
    requires early != late && d.copies == map[]
    ensures var d1 :=
      Accessed(Accessed(Accessed(Accessed(d, Load(early)), Load(late)), Write(late, order)), Save(late));
      && d1.orders == Put(d.orders, order) && Accessed(d1, Save(early)).orders == d.orders
  {}
}
