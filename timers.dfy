/** Deferred callbacks on a virtual clock (milliseconds).  Two kinds occur in
    the card: the hide timer of an overlay, of which at most one is pending
    because showing again cancels it, and the prune timers of a particle pool,
    which are never cancelled, so that several can be pending at once. */
module Timers {

  datatype Option<T> = None | Some(value: T)

  /** One overlay: its visibility flag and the deadline of its pending hide
      timer (None when the timer reference is null). */
  datatype Slot = Slot(visible: bool, hideAt: Option<int>)

  const Hidden: Slot := Slot(false, None)

  /** A hide timer is pending exactly while the overlay is visible, and it
      lies in the future. */
  predicate SlotConsistent(s: Slot, now: int) {
    && (s.visible <==> s.hideAt.Some?)
    && (s.hideAt.Some? ==> s.hideAt.value > now)
  }

  /** showGifFor: set the flag, cancel any pending hide timer and schedule a
      new one `duration` from now. */
  function Show(s: Slot, now: int, duration: nat): (r: Slot)
    ensures r.visible && r.hideAt == Some(now + duration)
  {
    Slot(true, Some(now + duration))
  }

  /** The stop branch of the handlers: cancel the pending hide timer, clear
      the reference and the flag. */
  function Dismiss(s: Slot): (r: Slot)
    ensures !r.visible && r.hideAt.None?
  {
    Hidden
  }

  /** The clock reaches t: a hide timer due by then runs, clearing the flag
      and the reference; otherwise nothing happens. */
  function Fire(s: Slot, t: int): (r: Slot)
    ensures s.hideAt.Some? && s.hideAt.value <= t ==> r == Hidden
    ensures !(s.hideAt.Some? && s.hideAt.value <= t) ==> r == s
  {
    match s.hideAt
    case Some(d) => if d <= t then Hidden else s
    case None => s
  }

  /** Showing again replaces the window: there is only ever the newest one. */
  lemma ShowRestarts(s: Slot, t1: int, d1: nat, t2: int, d2: nat)
    ensures Show(Show(s, t1, d1), t2, d2) == Show(s, t2, d2)
  {
  }

  /** A shown overlay stays visible strictly before its deadline and is
      hidden, with no timer left, from the deadline on. */
  lemma ShownForWindow(s: Slot, now: int, duration: nat, t: int)
    ensures Fire(Show(s, now, duration), t).visible <==> t < now + duration
    ensures t >= now + duration ==> Fire(Show(s, now, duration), t) == Hidden
  {
  }

  /** Showing at t1 and again at t2, before the first window ends: the
      overlay is visible at t exactly when t is before t2 + duration, even
      past the end of the first window. */
  lemma ReshowExtends(s: Slot, t1: int, t2: int, duration: nat, t: int)
    requires t1 <= t2 < t1 + duration && t2 <= t
    ensures var first := Fire(Show(s, t1, duration), t2);
            first.visible &&
            (Fire(Show(first, t2, duration), t).visible <==> t < t2 + duration)
  {
  }

  /** Show, Dismiss and Fire keep a slot consistent as the clock moves on. */
  lemma SlotOperationsConsistent(s: Slot, now: int, duration: nat, t: int)
    requires SlotConsistent(s, now) && now <= t
    ensures duration > 0 ==> SlotConsistent(Show(s, now, duration), now)
    ensures SlotConsistent(Dismiss(s), now)
    ensures SlotConsistent(Fire(s, t), t)
  {
  }

  /** Some deadline in the list is due by t. */
  function Due(ds: seq<int>, t: int): bool {
    if ds == [] then false else Due(ds[..|ds| - 1], t) || ds[|ds| - 1] <= t
  }

  /** The deadlines still pending after every one due by t has fired, in
      their original order. */
  function Pending(ds: seq<int>, t: int): (r: seq<int>)
    ensures |r| <= |ds|
  {
    if ds == [] then []
    else
      var last := ds[|ds| - 1];
      Pending(ds[..|ds| - 1], t) + (if last > t then [last] else [])
  }

  /** Due says that some deadline has been reached. */
  lemma {:induction false} DueMeans(ds: seq<int>, t: int)
    ensures Due(ds, t) <==> exists i :: 0 <= i < |ds| && ds[i] <= t
  {
    if ds != [] {
      var front := ds[..|ds| - 1];
      DueMeans(front, t);
      assert forall i :: 0 <= i < |front| ==> front[i] == ds[i];
    }
  }

  /** Everything left pending is from the list and lies after t. */
  lemma {:induction false} PendingAfter(ds: seq<int>, t: int)
    ensures forall i :: 0 <= i < |Pending(ds, t)| ==> Pending(ds, t)[i] > t && Pending(ds, t)[i] in ds
  {
    if ds != [] {
      var front := ds[..|ds| - 1];
      PendingAfter(front, t);
      assert ds == front + [ds[|ds| - 1]];
    }
  }

  /** Nothing that is not yet due is lost. */
  lemma {:induction false} PendingKeepsFuture(ds: seq<int>, t: int)
    ensures forall i :: 0 <= i < |ds| && ds[i] > t ==> ds[i] in Pending(ds, t)
  {
    if ds != [] {
      var front := ds[..|ds| - 1];
      PendingKeepsFuture(front, t);
      forall i | 0 <= i < |ds| && ds[i] > t ensures ds[i] in Pending(ds, t) {
        if i < |ds| - 1 {
          assert front[i] == ds[i];
        }
      }
    }
  }

  /** Firing is complete: nothing due by t is left pending. */
  lemma PendingNotDue(ds: seq<int>, t: int)
    ensures !Due(Pending(ds, t), t)
  {
    PendingAfter(ds, t);
    DueMeans(Pending(ds, t), t);
  }

  /** Appending one deadline, as a spawn does, extends the two views of the
      list one element at a time. */
  lemma DueAppend(ds: seq<int>, d: int, t: int)
    ensures Due(ds + [d], t) == (Due(ds, t) || d <= t)
    ensures Pending(ds + [d], t) == Pending(ds, t) + (if d > t then [d] else [])
  {
    assert (ds + [d])[..|ds|] == ds;
  }
}
