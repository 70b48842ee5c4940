/** `DetectionService`: the suppression deadline, the alert store and the sample store, with the
    three entry points `process`, `checkPendingAlerts` and `confirmAlert`. */
module Service {
  import opened Wrappers
  import opened Arith
  import opened Events
  import opened MLScore
  import opened DropDetector
  import opened Classifier
  import opened Lifecycle

  class DetectionService {
    /** The loaded model, or `Unloaded`. */
    const model: Descriptor
    /** Stands for `1 / (1 + exp(-z))`. */
    const sigmoid: real -> real
    /** `alert.confirm.silentMs` and `alert.confirm.modalMs`. */
    const confirm: Timing

    /** No new alert is raised before this time. */
    var suppressUntilMs: int
    /** The alert store, by id. */
    var alerts: map<int, Alert>
    /** The id the store gives the next alert. */
    var nextId: int
    /** The sample store, oldest first. */
    var events: seq<Sample>
    /** How many times each alert has been handed to the notifier. */
    ghost var notified: multiset<int>

    /** The store hands out ids from 1 upwards. */
    ghost predicate IdsBelowNext()
      reads this
    {
      nextId >= 1 && forall id :: id in alerts ==> 1 <= id < nextId
    }

    ghost predicate Valid()
      reads this
    {
      StoreValid(alerts) && IdsBelowNext()
    }

    constructor (model: Descriptor, sigmoid: real -> real, confirmSilentMs: int, confirmModalMs: int)
      ensures Valid()
      ensures this.model == model && this.sigmoid == sigmoid
      ensures confirm == Timing(confirmSilentMs, confirmModalMs)
      ensures suppressUntilMs == 0 && alerts == map[] && nextId == 1 && events == [] && notified == multiset{}
    {
      this.model := model;
      this.sigmoid := sigmoid;
      confirm := Timing(confirmSilentMs, confirmModalMs);
      suppressUntilMs := 0;
      alerts := map[];
      nextId := 1;
      events := [];
      notified := multiset{};
    }

    /** The sample store's `save`, which runs for every inbound sample before `Process`. */
    method RecordEvent(e: Sample)
      modifies this
      ensures events == old(events) + [e]
      ensures alerts == old(alerts) && nextId == old(nextId)
      ensures suppressUntilMs == old(suppressUntilMs) && notified == old(notified)
    {
      events := events + [e];
    }

    /** `process`: gate on the deadline read at `nowEntry`, classify, and store a silent alert whose
        windows start at `nowCreate` (the two clock reads of the source). */
    method Process(e: Sample, nowEntry: int, nowCreate: int) returns (r: Option<Alert>)
      requires Valid()
      modifies this
      ensures Valid()
      ensures suppressUntilMs == old(suppressUntilMs)
      ensures events == old(events) && notified == old(notified)
      ensures nowEntry < old(suppressUntilMs) ==>
        r == None && alerts == old(alerts) && nextId == old(nextId)
      ensures nowEntry >= old(suppressUntilMs) ==>
        var mlScore := Predict(model, sigmoid, e.accelMag, e.gyroMag);
        var dropLike := DropLike(e, Some(Recent30(old(events))));
        if Decide(e.accelMag, e.gyroMag, mlScore, dropLike) then
          var timing := SelectTiming(confirm, ContextText(e.context), e.accelMag, e.gyroMag, mlScore, dropLike);
          var reason := Reason(RuleHit(e.accelMag, e.gyroMag), mlScore, dropLike);
          && r == Some(NewAlert(old(nextId), e, reason, nowCreate, timing))
          && alerts == old(alerts)[old(nextId) := r.value]
          && nextId == old(nextId) + 1
        else
          r == None && alerts == old(alerts) && nextId == old(nextId)
    {
      if nowEntry < suppressUntilMs {
        return None;
      }
      var accelMag, gyroMag := e.accelMag, e.gyroMag;
      var ruleHit := RuleHit(accelMag, gyroMag);
      var mlScore := Predict(model, sigmoid, accelMag, gyroMag);
      var dropLike := IsLikelyDeviceDrop(e, Some(Recent30(events)));
      var alert := Decide(accelMag, gyroMag, mlScore, dropLike);
      if alert {
        var timing := SelectTiming(confirm, ContextText(e.context), accelMag, gyroMag, mlScore, dropLike);
        var a := NewAlert(nextId, e, Reason(ruleHit, mlScore, dropLike), nowCreate, timing);
        alerts := alerts[nextId := a];
        nextId := nextId + 1;
        return Some(a);
      }
      return None;
    }

    /** `checkPendingAlerts`, one scheduler tick at time `now`. */
    method CheckPendingAlerts(now: int)
      requires Valid()
      modifies this
      ensures Valid()
      ensures alerts == Tick(old(alerts), now)
      ensures suppressUntilMs == TickDeadline(old(alerts), old(suppressUntilMs), now)
      ensures notified == old(notified) + multiset(SentByTick(old(alerts), now))
      ensures events == old(events) && nextId == old(nextId)
    {
      PromoteDueAlerts(now);
      SendExpiredAlerts(now);
      TickPreservesValid(old(alerts), now);
    }

    /** The first loop of a tick: every silent alert whose silent phase is over starts prompting.
        The query result is visited in ascending id order; the outcome does not depend on it. */
    method PromoteDueAlerts(now: int)
      requires IdsBelowNext()
      modifies this
      ensures IdsBelowNext()
      ensures alerts == Promote(old(alerts), now)
      ensures suppressUntilMs == old(suppressUntilMs) && notified == old(notified)
      ensures events == old(events) && nextId == old(nextId)
    {
      var m0, store, n := alerts, alerts, nextId;
      PromoteBelowEnds(m0, now, n);
      for i := 1 to n
        invariant store == PromoteBelow(m0, now, i)
        invariant unchanged(this)
      {
        PromoteBelowStep(m0, now, i);
        if i in store && store[i].status == PendingSilent && now >= store[i].confirmStartsAt {
          store := store[i := store[i].(status := PendingConfirm)];
        }
      }
      alerts := store;
    }

    /** The second loop of a tick: every alert whose confirm window is over is handed to the
        notifier, sent, and extends the cooldown. */
    method SendExpiredAlerts(now: int)
      requires IdsBelowNext()
      modifies this
      ensures IdsBelowNext()
      ensures alerts == Expire(old(alerts), now)
      ensures suppressUntilMs ==
        if DueForSending(old(alerts), now) == {} then old(suppressUntilMs)
        else Max(old(suppressUntilMs), now + SentCooldownMs)
      ensures notified == old(notified) + multiset(DueForSending(old(alerts), now))
      ensures events == old(events) && nextId == old(nextId)
    {
      var m1, store, deadline, n := alerts, alerts, suppressUntilMs, nextId;
      ghost var sent: set<int> := {};
      ExpireBelowEnds(m1, now, n);
      for i := 1 to n
        invariant store == ExpireBelow(m1, now, i)
        invariant sent == DueBelow(m1, now, i)
        invariant deadline == if sent == {} then old(suppressUntilMs) else Max(old(suppressUntilMs), now + SentCooldownMs)
        invariant unchanged(this)
      {
        ExpireBelowStep(m1, now, i);
        DueBelowStep(m1, now, i);
        if i in store && store[i].status == PendingConfirm && store[i].expiryAt <= now {
          store := store[i := store[i].(status := Sent)];
          deadline := Max(deadline, now + SentCooldownMs);
          sent := sent + {i};
        }
      }
      // Each sent alert was dispatched once, in the iteration that sent it.
      alerts, suppressUntilMs, notified := store, deadline, notified + multiset(sent);
    }

    /** `confirmAlert`, the user's answer at time `now`: okay cancels, not okay sends at once. */
    method ConfirmAlert(alertId: int, isOkay: bool, now: int)
      requires Valid()
      modifies this
      ensures Valid()
      ensures alerts == Confirm(old(alerts), alertId, isOkay)
      ensures suppressUntilMs == ConfirmDeadline(old(alerts), old(suppressUntilMs), alertId, isOkay, now)
      ensures notified == old(notified) + (if IsOpen(old(alerts), alertId) && !isOkay then multiset{alertId} else multiset{})
      ensures events == old(events) && nextId == old(nextId)
    {
      if alertId !in alerts {
        return;
      }
      var a := alerts[alertId];
      if a.status != PendingSilent && a.status != PendingConfirm {
        return;
      }
      if isOkay {
        alerts := alerts[alertId := a.(status := Cancelled)];
        suppressUntilMs := Max(suppressUntilMs, now + CancelCooldownMs);
      } else {
        notified := notified + multiset{alertId};
        alerts := alerts[alertId := a.(status := Sent)];
        suppressUntilMs := Max(suppressUntilMs, now + SentCooldownMs);
      }
      ConfirmPreservesValid(old(alerts), alertId, isOkay);
    }
  }
}
