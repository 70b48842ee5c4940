/** The alert state machine driven by `checkPendingAlerts` (time) and `confirmAlert` (user),
    stated on the alert store as a map from id to alert. */
module Lifecycle {
  import opened Arith
  import opened Events

  type Store = map<int, Alert>

  /** Cooldown after an alert is sent, by the scheduler or by the user. */
  const SentCooldownMs := 20000
  /** Cooldown after the user cancels. */
  const CancelCooldownMs := 10000

  /** The window invariant every created alert satisfies. */
  predicate WellFormed(a: Alert)
  {
    a.confirmStartsAt <= a.expiryAt && a.expiryAt - a.confirmStartsAt >= 1000
  }

  /** Every stored alert knows its own id and has a well-formed window. */
  ghost predicate StoreValid(m: Store)
  {
    forall id :: id in m ==> m[id].id == id && WellFormed(m[id])
  }

  /** The moves the lifecycle allows: stay, leave the silent phase, or end from the confirm phase. */
  predicate Step(s: Status, t: Status)
  {
    s == t
    || (s == PendingSilent && t != PendingSilent)
    || (s == PendingConfirm && t.IsTerminal())
  }

  /** The silent phase is over. */
  predicate SilentDue(a: Alert, now: int)
  {
    a.status == PendingSilent && a.confirmStartsAt <= now
  }

  /** The confirm window has elapsed. */
  predicate ConfirmDue(a: Alert, now: int)
  {
    a.status == PendingConfirm && a.expiryAt <= now
  }

  /** The first phase of a tick: every due silent alert starts prompting. */
  function Promote(m: Store, now: int): (m': Store)
    ensures m'.Keys == m.Keys
  {
    map id | id in m :: if SilentDue(m[id], now) then m[id].(status := PendingConfirm) else m[id]
  }

  /** The ids the second phase of a tick sends, over the store the first phase left. */
  function DueForSending(m: Store, now: int): (ids: set<int>)
    ensures ids <= m.Keys
  {
    set id | id in m && ConfirmDue(m[id], now)
  }

  /** The ids below `bound` that the second phase sends. */
  ghost function DueBelow(m: Store, now: int, bound: int): set<int>
  {
    set id | id in m && id < bound && ConfirmDue(m[id], now)
  }

  lemma DueBelowStep(m: Store, now: int, bound: int)
    ensures DueBelow(m, now, bound + 1) ==
      DueBelow(m, now, bound) + (if bound in m && ConfirmDue(m[bound], now) then {bound} else {})
  {
  }

  /** The second phase: every elapsed confirm window escalates. */
  function Expire(m: Store, now: int): (m': Store)
    ensures m'.Keys == m.Keys
  {
    map id | id in m :: if ConfirmDue(m[id], now) then m[id].(status := Sent) else m[id]
  }

  /** The first phase applied to the ids below `bound` only: the state part-way through its loop. */
  ghost function PromoteBelow(m: Store, now: int, bound: int): Store
  {
    map id | id in m :: if id < bound && SilentDue(m[id], now) then m[id].(status := PendingConfirm) else m[id]
  }

  lemma PromoteBelowStep(m: Store, now: int, bound: int)
    ensures bound in m && SilentDue(m[bound], now) ==>
      PromoteBelow(m, now, bound + 1) == PromoteBelow(m, now, bound)[bound := m[bound].(status := PendingConfirm)]
    ensures !(bound in m && SilentDue(m[bound], now)) ==>
      PromoteBelow(m, now, bound + 1) == PromoteBelow(m, now, bound)
  {
  }

  lemma PromoteBelowEnds(m: Store, now: int, bound: int)
    requires forall id :: id in m ==> 1 <= id < bound
    ensures PromoteBelow(m, now, 1) == m
    ensures PromoteBelow(m, now, bound) == Promote(m, now)
  {
  }

  /** The second phase applied to the ids below `bound` only. */
  ghost function ExpireBelow(m: Store, now: int, bound: int): Store
  {
    map id | id in m :: if id < bound && ConfirmDue(m[id], now) then m[id].(status := Sent) else m[id]
  }

  lemma ExpireBelowStep(m: Store, now: int, bound: int)
    ensures bound in m && ConfirmDue(m[bound], now) ==>
      ExpireBelow(m, now, bound + 1) == ExpireBelow(m, now, bound)[bound := m[bound].(status := Sent)]
    ensures !(bound in m && ConfirmDue(m[bound], now)) ==>
      ExpireBelow(m, now, bound + 1) == ExpireBelow(m, now, bound)
  {
  }

  lemma ExpireBelowEnds(m: Store, now: int, bound: int)
    requires forall id :: id in m ==> 1 <= id < bound
    ensures ExpireBelow(m, now, 1) == m
    ensures ExpireBelow(m, now, bound) == Expire(m, now)
    ensures DueBelow(m, now, 1) == {}
    ensures DueBelow(m, now, bound) == DueForSending(m, now)
  {
  }

  /** A whole tick of `checkPendingAlerts`. */
  function Tick(m: Store, now: int): (m': Store)
    ensures m'.Keys == m.Keys
    ensures forall id :: id in m ==> m'[id] == m[id].(status := m'[id].status)
    ensures forall id :: id in m ==> Step(m[id].status, m'[id].status)
  {
    Expire(Promote(m, now), now)
  }

  /** The alerts that one tick sends. */
  function SentByTick(m: Store, now: int): (ids: set<int>)
    ensures ids <= m.Keys
    ensures forall id :: id in ids ==> m[id].expiryAt <= now && !m[id].status.IsTerminal()
  {
    DueForSending(Promote(m, now), now)
  }

  /** Suppression deadline after a tick: raised once if anything was sent. */
  function TickDeadline(m: Store, deadline: int, now: int): (d: int)
    ensures d >= deadline
    ensures SentByTick(m, now) == {} ==> d == deadline
    ensures SentByTick(m, now) != {} ==> d >= now + SentCooldownMs
    ensures d == deadline || d == now + SentCooldownMs
  {
    if SentByTick(m, now) == {} then deadline else Max(deadline, now + SentCooldownMs)
  }

  /** Independent reference for one alert's status after a tick. Because the second phase reads
      what the first wrote, a silent alert whose whole window has passed is sent at once. */
  function NextStatus(a: Alert, now: int): Status
  {
    match a.status
    case PendingSilent =>
      if a.confirmStartsAt <= now then (if a.expiryAt <= now then Sent else PendingConfirm) else PendingSilent
    case PendingConfirm =>
      if a.expiryAt <= now then Sent else PendingConfirm
    case Sent => Sent
    case Cancelled => Cancelled
  }

  /** A tick changes only statuses, each as `NextStatus` says. */
  lemma TickIsPointwise(m: Store, now: int)
    ensures Tick(m, now).Keys == m.Keys
    ensures forall id :: id in m ==> Tick(m, now)[id] == m[id].(status := NextStatus(m[id], now))
  {
    forall id | id in m
      ensures Tick(m, now)[id] == m[id].(status := NextStatus(m[id], now))
    {
      assert Promote(m, now)[id] == if SilentDue(m[id], now) then m[id].(status := PendingConfirm) else m[id];
    }
  }

  /** Exactly the confirm-phase alerts past expiry, and the silent ones past both deadlines, are sent. */
  lemma SentByTickExactly(m: Store, now: int, id: int)
    ensures id in SentByTick(m, now) <==>
      id in m && m[id].expiryAt <= now &&
      (m[id].status == PendingConfirm || (m[id].status == PendingSilent && m[id].confirmStartsAt <= now))
  {
    if id in m {
      assert Promote(m, now)[id] == if SilentDue(m[id], now) then m[id].(status := PendingConfirm) else m[id];
    }
  }

  /** A tick moves every alert along an allowed edge; terminal alerts are untouched. */
  lemma TickSteps(m: Store, now: int, id: int)
    requires id in m
    ensures id in Tick(m, now)
    ensures Step(m[id].status, Tick(m, now)[id].status)
    ensures m[id].status.IsTerminal() ==> Tick(m, now)[id] == m[id]
    ensures Tick(m, now)[id].status == PendingConfirm <==> NextStatus(m[id], now) == PendingConfirm
  {
    TickIsPointwise(m, now);
  }

  /** Running a tick again at the same or an earlier time changes nothing and sends nothing. */
  lemma TickIdempotent(m: Store, now: int, again: int)
    requires again <= now
    ensures Tick(Tick(m, now), again) == Tick(m, now)
    ensures SentByTick(Tick(m, now), again) == {}
  {
    var m1 := Tick(m, now);
    TickIsPointwise(m, now);
    TickIsPointwise(m1, again);
    forall id | id in m1
      ensures Tick(m1, again)[id] == m1[id]
    {
      assert NextStatus(m1[id], again) == m1[id].status;
    }
    assert Tick(m1, again) == m1;
    forall id | id in m1
      ensures id !in SentByTick(m1, again)
    {
      SentByTickExactly(m1, again, id);
    }
  }

  /** A tick keeps every stored alert's id and window. */
  lemma TickPreservesValid(m: Store, now: int)
    requires StoreValid(m)
    ensures StoreValid(Tick(m, now))
  {
    TickIsPointwise(m, now);
  }

  /** The alert can still be answered by the user. */
  predicate IsOpen(m: Store, id: int)
  {
    id in m && !m[id].status.IsTerminal()
  }

  /** `confirmAlert` on the store: an open alert is cancelled (okay) or sent (not okay). */
  function Confirm(m: Store, id: int, isOkay: bool): (m': Store)
    ensures m'.Keys == m.Keys
    ensures forall j :: j in m && j != id ==> m'[j] == m[j]
  {
    if IsOpen(m, id) then m[id := m[id].(status := if isOkay then Cancelled else Sent)] else m
  }

  /** `confirmAlert` on the suppression deadline. */
  function ConfirmDeadline(m: Store, deadline: int, id: int, isOkay: bool, now: int): (d: int)
    ensures d >= deadline
    ensures !IsOpen(m, id) ==> d == deadline
    ensures IsOpen(m, id) && isOkay ==> d >= now + CancelCooldownMs
    ensures IsOpen(m, id) && isOkay ==> d == deadline || d == now + CancelCooldownMs
    ensures IsOpen(m, id) && !isOkay ==> d >= now + SentCooldownMs
    ensures IsOpen(m, id) && !isOkay ==> d == deadline || d == now + SentCooldownMs
  {
    if !IsOpen(m, id) then deadline
    else if isOkay then Max(deadline, now + CancelCooldownMs)
    else Max(deadline, now + SentCooldownMs)
  }

  /** Confirming an absent or finished alert is a no-op; an open one becomes terminal by an allowed step. */
  lemma ConfirmOutcome(m: Store, id: int, isOkay: bool)
    ensures !IsOpen(m, id) ==> Confirm(m, id, isOkay) == m
    ensures IsOpen(m, id) ==>
      var a := Confirm(m, id, isOkay)[id];
      a == m[id].(status := a.status) && a.status == (if isOkay then Cancelled else Sent)
    ensures forall j :: j in m ==> Step(m[j].status, Confirm(m, id, isOkay)[j].status)
  {
  }

  /** Confirmation keeps every stored alert's id and window. */
  lemma ConfirmPreservesValid(m: Store, id: int, isOkay: bool)
    requires StoreValid(m)
    ensures StoreValid(Confirm(m, id, isOkay))
  {
  }

  /** Once closed by the user, a scheduler tick leaves the alert alone. */
  lemma ConfirmedAlertSurvivesTick(m: Store, id: int, isOkay: bool, now: int)
    requires IsOpen(m, id)
    ensures Tick(Confirm(m, id, isOkay), now)[id] == Confirm(m, id, isOkay)[id]
    ensures id !in SentByTick(Confirm(m, id, isOkay), now)
  {
    var m1 := Confirm(m, id, isOkay);
    TickSteps(m1, now, id);
    SentByTickExactly(m1, now, id);
  }
}
