/**
 * The shared queue state of SmartQ: at most one active booking and a
 * most-recent-first history of past bookings, with the four operations that
 * replace, advance, snooze and cancel the active booking.
 *
 * `Store` is a snapshot of the two state cells; the functions over it say
 * what each operation does to the snapshot, and the class `QueueStore`
 * holds the two cells and updates them in place.
 */
module QueueContext {
  import opened Wrappers

  datatype TransportMode = Car | Bike | Walk

  /** One queue membership; `bookedAt` is epoch milliseconds. */
  datatype ActiveBooking = ActiveBooking(
    clinicId: string,
    clinicName: string,
    doctorName: string,
    tokenNumber: int,
    servingToken: int,
    transportMode: TransportMode,
    travelTime: int,
    avgWaitTime: int,
    isEmergency: bool,
    bookedAt: int)

  /** The values of the two state cells at one moment. */
  datatype Store = Store(activeBooking: Option<ActiveBooking>, pastBookings: seq<ActiveBooking>)

  /** How many positions a snooze moves the user's token back. */
  const SnoozeOffset: int := 2

  /** `older` is a suffix of `newer`: `newer` is `older` with zero or more bookings put in front. */
  predicate IsSuffix(older: seq<ActiveBooking>, newer: seq<ActiveBooking>)
  {
    |older| <= |newer| && newer[|newer| - |older|..] == older
  }

  /** The active booking, if any, is still waiting for its turn. */
  predicate Waiting(s: Store)
  {
    s.activeBooking.Some? ==> s.activeBooking.value.servingToken < s.activeBooking.value.tokenNumber
  }

  /** `setActiveBooking`: replaces the booking wholesale, with no checks. */
  function Replaced(s: Store, booking: Option<ActiveBooking>): (r: Store)
    ensures r.activeBooking == booking
    ensures r.pastBookings == s.pastBookings
  {
    s.(activeBooking := booking)
  }

  /** `updateServingToken(token)`. */
  function Updated(s: Store, token: int): (r: Store)
    // no booking: nothing happens
    ensures s.activeBooking.None? ==> r == s
    // the user's turn is reached: the booking, as it stood, goes to the front of the history
    ensures s.activeBooking.Some? && token >= s.activeBooking.value.tokenNumber ==>
      r.activeBooking.None? && r.pastBookings == [s.activeBooking.value] + s.pastBookings
    // otherwise only the served token changes
    ensures s.activeBooking.Some? && token < s.activeBooking.value.tokenNumber ==>
      && r.activeBooking.Some?
      && r.activeBooking.value.servingToken == token
      && r.activeBooking.value.(servingToken := s.activeBooking.value.servingToken) == s.activeBooking.value
      && r.pastBookings == s.pastBookings
    ensures IsSuffix(s.pastBookings, r.pastBookings)
    ensures Waiting(s) ==> Waiting(r)
  {
    match s.activeBooking
    case None => Store(None, s.pastBookings)
    case Some(prev) =>
      if token >= prev.tokenNumber then
        Store(None, [prev] + s.pastBookings)
      else
        Store(Some(prev.(servingToken := token)), s.pastBookings)
  }

  /** `snoozeBooking()`. */
  function Snoozed(s: Store): (r: Store)
    ensures s.activeBooking.None? ==> r == s
    ensures s.activeBooking.Some? ==>
      && r.activeBooking.Some?
      && r.activeBooking.value.tokenNumber == s.activeBooking.value.tokenNumber + 2
      && r.activeBooking.value.(tokenNumber := s.activeBooking.value.tokenNumber) == s.activeBooking.value
    ensures r.pastBookings == s.pastBookings
    ensures Waiting(s) ==> Waiting(r)
  {
    match s.activeBooking
    case None => Store(None, s.pastBookings)
    case Some(prev) => Store(Some(prev.(tokenNumber := prev.tokenNumber + SnoozeOffset)), s.pastBookings)
  }

  /** `cancelBooking()`. */
  function Cancelled(s: Store): (r: Store)
    ensures r.activeBooking.None?
    ensures s.activeBooking.Some? ==> r.pastBookings == [s.activeBooking.value] + s.pastBookings
    ensures s.activeBooking.None? ==> r.pastBookings == s.pastBookings
    ensures IsSuffix(s.pastBookings, r.pastBookings)
    ensures Waiting(r)
  {
    if s.activeBooking.Some? then
      Store(None, [s.activeBooking.value] + s.pastBookings)
    else
      Store(None, s.pastBookings)
  }

  /** Two snoozes move the token back by four; with no booking they do nothing. */
  lemma SnoozeTwice(s: Store)
    ensures s.activeBooking.None? ==> Snoozed(Snoozed(s)) == s
    ensures s.activeBooking.Some? ==>
      Snoozed(Snoozed(s)) == s.(activeBooking := Some(s.activeBooking.value.(tokenNumber := s.activeBooking.value.tokenNumber + 4)))
  {
  }

  /** A call of one of the three store operations that take no booking from the caller. */
  datatype Operation = Update(token: int) | Snooze | Cancel

  function Apply(s: Store, op: Operation): (r: Store)
    ensures IsSuffix(s.pastBookings, r.pastBookings)
    ensures Waiting(s) ==> Waiting(r)
  {
    match op
    case Update(token) => Updated(s, token)
    case Snooze => Snoozed(s)
    case Cancel => Cancelled(s)
  }

  /** The store after the operations, first to last. */
  function Run(s: Store, ops: seq<Operation>): Store
    decreases |ops|
  {
    if ops == [] then s else Run(Apply(s, ops[0]), ops[1..])
  }

  lemma {:induction false} SuffixTransitive(a: seq<ActiveBooking>, b: seq<ActiveBooking>, c: seq<ActiveBooking>)
    requires IsSuffix(a, b) && IsSuffix(b, c)
    ensures IsSuffix(a, c)
  {
    var k := |c| - |b|;
    assert c[k..] == b;
    assert c[|c| - |a|..] == c[k..][|b| - |a|..];
  }

  /** History only grows: after any sequence of update, snooze and cancel, the old history is a suffix of the new. */
  lemma {:induction false} HistoryOnlyGrows(s: Store, ops: seq<Operation>)
    ensures IsSuffix(s.pastBookings, Run(s, ops).pastBookings)
    decreases |ops|
  {
    if ops == [] {
      assert s.pastBookings[0..] == s.pastBookings;
    } else {
      var t := Apply(s, ops[0]);
      HistoryOnlyGrows(t, ops[1..]);
      SuffixTransitive(s.pastBookings, t.pastBookings, Run(t, ops[1..]).pastBookings);
    }
  }

  /** A booking that is waiting for its turn stays waiting (or leaves) under any sequence of update, snooze and cancel. */
  lemma {:induction false} WaitingPreserved(s: Store, ops: seq<Operation>)
    requires Waiting(s)
    ensures Waiting(Run(s, ops))
    decreases |ops|
  {
    if ops != [] {
      WaitingPreserved(Apply(s, ops[0]), ops[1..]);
    }
  }

  /** `setActiveBooking` does not keep `Waiting`: it accepts a booking whose turn has already come. */
  lemma ReplacedMayBreakWaiting(s: Store, b: ActiveBooking)
    requires b.servingToken >= b.tokenNumber
    ensures !Waiting(Replaced(s, Some(b)))
  {
  }

  /** Cancelling A, then B, then C leaves the history reading C, B, A. */
  lemma ArchiveOrder(a: ActiveBooking, b: ActiveBooking, c: ActiveBooking)
    ensures Cancelled(Replaced(Cancelled(Replaced(Cancelled(Replaced(Store(None, []), Some(a))), Some(b))), Some(c))).pastBookings
      == [c, b, a]
  {
  }

  /** Reaching the user's turn archives the booking exactly as cancelling it does. */
  lemma CompletionArchivesLikeCancel(s: Store, token: int)
    requires s.activeBooking.Some? && token >= s.activeBooking.value.tokenNumber
    ensures Updated(s, token) == Cancelled(s)
  {
  }

  /** The two state cells of the provider, updated in place by its operations. */
  class QueueStore {
    var activeBooking: Option<ActiveBooking>
    var pastBookings: seq<ActiveBooking>

    function Snapshot(): Store
      reads this
    {
      Store(activeBooking, pastBookings)
    }

    /** Both cells start empty. */
    constructor ()
      ensures activeBooking == None && pastBookings == []
    {
      activeBooking := None;
      pastBookings := [];
    }

    method SetActiveBooking(booking: Option<ActiveBooking>)
      modifies this
      ensures activeBooking == booking && pastBookings == old(pastBookings)
      ensures Snapshot() == Replaced(old(Snapshot()), booking)
    {
      activeBooking := booking;
    }

    method UpdateServingToken(token: int)
      modifies this
      ensures Snapshot() == Updated(old(Snapshot()), token)
    {
      match activeBooking
      case None =>
      case Some(prev) =>
        if token >= prev.tokenNumber {
          pastBookings := [prev] + pastBookings;
          activeBooking := None;
        } else {
          activeBooking := Some(prev.(servingToken := token));
        }
    }

    method SnoozeBooking()
      modifies this
      ensures Snapshot() == Snoozed(old(Snapshot()))
    {
      match activeBooking
      case None =>
      case Some(prev) =>
        activeBooking := Some(prev.(tokenNumber := prev.tokenNumber + SnoozeOffset));
    }

    method CancelBooking()
      modifies this
      ensures Snapshot() == Cancelled(old(Snapshot()))
    {
      if activeBooking.Some? {
        pastBookings := [activeBooking.value] + pastBookings;
      }
      activeBooking := None;
    }
  }
}
