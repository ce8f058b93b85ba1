/**
 * The live-queue screen: the values it derives from the active booking
 * (people ahead, total wait, when to leave, progress and the relax / alert /
 * arrived state), the texts chosen from them, and the simulated tick that
 * advances the served token by one.
 */
module ActiveToken {
  import opened Wrappers
  import opened JsMath
  import opened QueueContext

  datatype QueueState = Relax | Alert | Arrived

  /** Minutes of preparation kept before departure. */
  const LeaveBuffer: int := 10
  /** At most this many minutes left to leave is an alert. */
  const AlertWindow: int := 15

  datatype Calculations = Calculations(
    peopleBefore: int,
    totalWait: int,
    timeToLeave: int,
    progress: real,
    state: QueueState)

  /** The people still ahead: with the served token they make up the user's token. */
  function PeopleBefore(b: ActiveBooking): (n: int)
    ensures b.servingToken + n == b.tokenNumber
    ensures n > 0 <==> b.servingToken < b.tokenNumber
  {
    b.tokenNumber - b.servingToken
  }

  /** The minutes until the user's turn: zero exactly when nobody is ahead or nobody takes time. */
  function TotalWait(b: ActiveBooking): (w: int)
    ensures w == 0 <==> PeopleBefore(b) == 0 || b.avgWaitTime == 0
    ensures PeopleBefore(b) >= 0 && b.avgWaitTime >= 0 ==> w >= 0
    ensures PeopleBefore(b) > 0 && b.avgWaitTime > 0 ==> w >= b.avgWaitTime
  {
    PeopleBefore(b) * b.avgWaitTime
  }

  /** Leaving after this many minutes leaves the travel time plus the buffer before the turn. */
  function TimeToLeave(b: ActiveBooking): (t: int)
    ensures t + b.travelTime + LeaveBuffer == TotalWait(b)
  {
    TotalWait(b) - b.travelTime - LeaveBuffer
  }

  /**
   * The progress ratio is a number: it divides by `tokenNumber` only when
   * somebody is still ahead, and that division must not be by zero.
   */
  predicate ProgressDefined(tokenNumber: int, servingToken: int)
  {
    tokenNumber - servingToken > 0 ==> tokenNumber != 0
  }

  /** Fraction of the queue up to the user's own token that has been served. */
  function Progress(tokenNumber: int, servingToken: int): (p: real)
    requires ProgressDefined(tokenNumber, servingToken)
    ensures p <= 1.0
    ensures tokenNumber - servingToken <= 0 ==> p == 1.0
    ensures 0 <= servingToken < tokenNumber ==>
      p == servingToken as real / tokenNumber as real && 0.0 <= p < 1.0
  {
    var peopleBefore := tokenNumber - servingToken;
    if peopleBefore <= 0 then 1.0
    else
      var r := 1.0 - peopleBefore as real / tokenNumber as real;
      assert 0 <= servingToken < tokenNumber ==> r == servingToken as real / tokenNumber as real by {
        if 0 <= servingToken < tokenNumber {
          calc {
            r;
            tokenNumber as real / tokenNumber as real - peopleBefore as real / tokenNumber as real;
            (tokenNumber as real - peopleBefore as real) / tokenNumber as real;
          }
        }
      }
      MinReal(1.0, r)
  }

  /** The state classification, on the minutes left before the user must leave. */
  function StateOf(timeToLeave: int): (q: QueueState)
    ensures q == Arrived <==> timeToLeave <= 0
    ensures q == Alert <==> 0 < timeToLeave <= AlertWindow
    ensures q == Relax <==> timeToLeave > AlertWindow
  {
    if timeToLeave <= 0 then Arrived
    else if timeToLeave <= AlertWindow then Alert
    else Relax
  }

  /** Arrived, alert, relax, in that order as the time left grows. */
  function Rank(q: QueueState): nat
  {
    match q
    case Arrived => 0
    case Alert => 1
    case Relax => 2
  }

  lemma StateMonotone(t1: int, t2: int)
    requires t1 <= t2
    ensures Rank(StateOf(t1)) <= Rank(StateOf(t2))
  {
  }

  /** The `calculations` block of the screen. */
  function Calculate(b: ActiveBooking): (c: Calculations)
    requires ProgressDefined(b.tokenNumber, b.servingToken)
    ensures c.peopleBefore == b.tokenNumber - b.servingToken
    ensures c.totalWait == (b.tokenNumber - b.servingToken) * b.avgWaitTime
    ensures c.timeToLeave == (b.tokenNumber - b.servingToken) * b.avgWaitTime - b.travelTime - LeaveBuffer
    ensures c.progress <= 1.0 && (c.peopleBefore <= 0 ==> c.progress == 1.0)
    ensures 0 <= b.servingToken < b.tokenNumber ==> c.progress == b.servingToken as real / b.tokenNumber as real
    ensures c.state == Arrived <==> c.timeToLeave <= 0
    ensures c.state == Alert <==> 0 < c.timeToLeave <= AlertWindow
    ensures c.state == Relax <==> c.timeToLeave > AlertWindow
  {
    Calculations(PeopleBefore(b), TotalWait(b), TimeToLeave(b),
                 Progress(b.tokenNumber, b.servingToken), StateOf(TimeToLeave(b)))
  }

  /** The displayed total wait, `max(0, totalWait)`. */
  function DisplayedTotalWait(totalWait: int): (m: int)
    ensures m >= 0
    ensures totalWait >= 0 ==> m == totalWait
    ensures totalWait < 0 ==> m == 0
  {
    Max(0, totalWait)
  }

  /** What the "Leave In" card shows. */
  datatype LeaveIn = Now | InMinutes(minutes: int)

  function LeaveInLabel(timeToLeave: int): (l: LeaveIn)
    ensures l == Now <==> timeToLeave <= 0
    ensures l.InMinutes? ==> l.minutes == timeToLeave && l.minutes > 0
  {
    if timeToLeave <= 0 then Now else InMinutes(timeToLeave)
  }

  /** The colour class of the "Leave In" card: danger, alert or neutral. */
  datatype Tone = Danger | Caution | Neutral

  function LeaveInTone(timeToLeave: int): (t: Tone)
    ensures t == Danger <==> timeToLeave <= 0
    ensures t == Caution <==> 0 < timeToLeave <= AlertWindow
    ensures t == Neutral <==> timeToLeave > AlertWindow
  {
    if timeToLeave <= 0 then Danger
    else if timeToLeave <= AlertWindow then Caution
    else Neutral
  }

  /** The card's colour always agrees with the banner's state. */
  lemma ToneAgreesWithState(timeToLeave: int)
    ensures LeaveInTone(timeToLeave) == Danger <==> StateOf(timeToLeave) == Arrived
    ensures LeaveInTone(timeToLeave) == Caution <==> StateOf(timeToLeave) == Alert
    ensures LeaveInTone(timeToLeave) == Neutral <==> StateOf(timeToLeave) == Relax
  {
  }

  /** The caption under the progress bar. */
  datatype Caption = PeopleAhead(count: int) | YourTurn

  function ProgressCaption(peopleBefore: int): (c: Caption)
    ensures c.PeopleAhead? <==> peopleBefore > 0
    ensures c.PeopleAhead? ==> c.count == peopleBefore
  {
    if peopleBefore > 0 then PeopleAhead(peopleBefore) else YourTurn
  }

  /** The percentage shown, `Math.round(progress * 100)`: halves round up. */
  function ProgressPercent(progress: real): (n: int)
    ensures n as real - 0.5 <= progress * 100.0 < n as real + 0.5
    ensures 0.0 <= progress <= 1.0 ==> 0 <= n <= 100
  {
    (progress * 100.0 + 0.5).Floor
  }

  /** The verb in "Start ... to reach on time". */
  function TransportVerb(mode: TransportMode): (verb: string)
    ensures verb == "driving" <==> mode == Car
    ensures verb == "riding" <==> mode == Bike
    ensures verb == "walking" <==> mode == Walk
  {
    match mode
    case Car => "driving"
    case Bike => "riding"
    case Walk => "walking"
  }

  /** A snooze adds two people ahead and two average waits to the total wait and the time to leave. */
  lemma SnoozeRaisesWait(s: Store)
    requires s.activeBooking.Some?
    ensures var b, b' := s.activeBooking.value, Snoozed(s).activeBooking.value;
      && PeopleBefore(b') == PeopleBefore(b) + 2
      && TotalWait(b') == TotalWait(b) + 2 * b.avgWaitTime
      && TimeToLeave(b') == TimeToLeave(b) + 2 * b.avgWaitTime
  {
    var b, b' := s.activeBooking.value, Snoozed(s).activeBooking.value;
    assert PeopleBefore(b') == PeopleBefore(b) + 2;
    assert (PeopleBefore(b) + 2) * b.avgWaitTime == PeopleBefore(b) * b.avgWaitTime + 2 * b.avgWaitTime;
  }

  /** The simulated tick: `updateServingToken(servingToken + 1)`; with no booking the timer is not running. */
  function Ticked(s: Store): (r: Store)
    ensures s.activeBooking.None? ==> r == s
    ensures s.activeBooking.Some? && r.activeBooking.Some? ==>
      && r.activeBooking.value == s.activeBooking.value.(servingToken := s.activeBooking.value.servingToken + 1)
      && r.pastBookings == s.pastBookings
    ensures s.activeBooking.Some? && r.activeBooking.None? ==>
      r.pastBookings == [s.activeBooking.value] + s.pastBookings
  {
    match s.activeBooking
    case None => s
    case Some(b) => Updated(s, b.servingToken + 1)
  }

  /** The store after `n` ticks and nothing else. */
  function Ticks(s: Store, n: nat): Store
    decreases n
  {
    if n == 0 then s else Ticks(Ticked(s), n - 1)
  }

  /** Before the user's turn, each tick raises the served token by one and leaves the rest alone. */
  lemma {:induction false} TicksBeforeTurn(s: Store, b: ActiveBooking, k: nat)
    requires s.activeBooking == Some(b)
    requires k < b.tokenNumber - b.servingToken
    ensures Ticks(s, k) == Store(Some(b.(servingToken := b.servingToken + k)), s.pastBookings)
    decreases k
  {
    if k == 0 {
      assert b.(servingToken := b.servingToken + 0) == b;
    } else {
      var b1 := b.(servingToken := b.servingToken + 1);
      TickBeforeTurn(s);
      assert Ticks(s, k) == Ticks(Ticked(s), k - 1);
      TicksBeforeTurn(Ticked(s), b1, k - 1);
      assert b1.(servingToken := b1.servingToken + (k - 1)) == b.(servingToken := b.servingToken + k);
    }
  }

  /** A tick of a booking one place from its turn archives it. */
  lemma TickAtTurn(s: Store)
    requires s.activeBooking.Some?
    requires s.activeBooking.value.servingToken + 1 >= s.activeBooking.value.tokenNumber
    ensures Ticked(s) == Store(None, [s.activeBooking.value] + s.pastBookings)
  {
  }

  /** A tick of a booking more than one place from its turn only raises the served token. */
  lemma TickBeforeTurn(s: Store)
    requires s.activeBooking.Some?
    requires s.activeBooking.value.servingToken + 1 < s.activeBooking.value.tokenNumber
    ensures Ticked(s) == Store(Some(s.activeBooking.value.(servingToken := s.activeBooking.value.servingToken + 1)), s.pastBookings)
  {
  }

  /** With no snoozes, `tokenNumber - servingToken` ticks archive the booking, served up to the token before the user's. */
  lemma {:induction false} TicksUntilTurn(s: Store, b: ActiveBooking)
    requires s.activeBooking == Some(b)
    requires b.servingToken < b.tokenNumber
    ensures Ticks(s, b.tokenNumber - b.servingToken) == Store(None, [b.(servingToken := b.tokenNumber - 1)] + s.pastBookings)
    decreases b.tokenNumber - b.servingToken
  {
    var n := b.tokenNumber - b.servingToken;
    assert Ticks(s, n) == Ticks(Ticked(s), n - 1);
    if n == 1 {
      TickAtTurn(s);
      assert b.(servingToken := b.tokenNumber - 1) == b;
    } else {
      var b1 := b.(servingToken := b.servingToken + 1);
      TickBeforeTurn(s);
      TicksUntilTurn(Ticked(s), b1);
      assert b1.(servingToken := b1.tokenNumber - 1) == b.(servingToken := b.tokenNumber - 1);
    }
  }

  /** One tick of the screen's timer. */
  method Tick(store: QueueStore)
    modifies store
    ensures store.Snapshot() == Ticked(old(store.Snapshot()))
  {
    match store.activeBooking
    case None =>
    case Some(b) =>
      store.UpdateServingToken(b.servingToken + 1);
  }

  /** Two worked examples: a booking five places from its turn, and one whose turn has come. */
  lemma WorkedExamples(b: ActiveBooking)
    requires b.avgWaitTime == 5 && b.travelTime == 10 && b.tokenNumber == 20
    ensures b.servingToken == 15 ==> Calculate(b) == Calculations(5, 25, 5, 0.75, Alert)
    ensures b.servingToken == 20 ==> Calculate(b) == Calculations(0, 0, -20, 1.0, Arrived)
  {
  }
}
