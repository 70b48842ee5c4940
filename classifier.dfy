/** The hybrid decision and the adaptive confirmation timing of `DetectionService.process`. */
module Classifier {
  import opened Wrappers
  import opened Arith
  import opened Events
  import opened Text

  /** The fixed rule: a hard impact or a fast rotation, both thresholds strict. */
  predicate RuleHit(accelMag: real, gyroMag: real)
  {
    accelMag > 16.0 || gyroMag > 120.0
  }

  /** The rule, or a moderate signal backed by a high model score. */
  predicate BaseAlert(accelMag: real, gyroMag: real, mlScore: real)
    ensures RuleHit(accelMag, gyroMag) ==> BaseAlert(accelMag, gyroMag, mlScore)
    ensures BaseAlert(accelMag, gyroMag, mlScore) ==> accelMag > 13.0 || gyroMag > 80.0
    ensures BaseAlert(accelMag, gyroMag, mlScore) && !RuleHit(accelMag, gyroMag) ==> mlScore > 0.55
  {
    RuleHit(accelMag, gyroMag) || (accelMag > 13.0 && mlScore > 0.55) || (gyroMag > 80.0 && mlScore > 0.55)
  }

  /** What a drop-like impact must show on top of the base decision. */
  predicate DropCorroborated(accelMag: real, gyroMag: real, mlScore: real)
    ensures DropCorroborated(accelMag, gyroMag, mlScore) ==> accelMag > 14.5
    ensures accelMag > 16.0 ==> DropCorroborated(accelMag, gyroMag, mlScore)
    ensures !RuleHit(accelMag, gyroMag) && mlScore <= 0.65 ==> !DropCorroborated(accelMag, gyroMag, mlScore)
  {
    (mlScore > 0.65 || RuleHit(accelMag, gyroMag)) && accelMag > 14.5
  }

  /** The final decision: the drop override only ever tightens the base decision. */
  function Decide(accelMag: real, gyroMag: real, mlScore: real, dropLike: bool): (alert: bool)
    ensures alert <==> BaseAlert(accelMag, gyroMag, mlScore) && (dropLike ==> DropCorroborated(accelMag, gyroMag, mlScore))
    ensures alert ==> BaseAlert(accelMag, gyroMag, mlScore)
    ensures alert && dropLike ==> accelMag > 14.5
    ensures !dropLike ==> (alert <==> BaseAlert(accelMag, gyroMag, mlScore))
  {
    var alert := BaseAlert(accelMag, gyroMag, mlScore);
    if alert && dropLike then DropCorroborated(accelMag, gyroMag, mlScore) else alert
  }

  /** The rule boundary: 16.0 itself does not fire, anything above it does. */
  lemma RuleThresholdIsStrict(gyroMag: real)
    requires gyroMag <= 120.0
    ensures !RuleHit(16.0, gyroMag)
    ensures forall a: real :: a > 16.0 ==> RuleHit(a, gyroMag)
    ensures RuleHit(16.01, gyroMag)
  {
  }

  /** The silent delay and the confirmation window, in milliseconds. */
  datatype Timing = Timing(silentMs: int, modalMs: int)

  /** The context tag, the empty string when absent. */
  function ContextText(context: Option<string>): string
  {
    context.GetOr("")
  }

  /** The tag says the phone is being carried. */
  predicate HumanLikely(ctx: string)
    ensures HumanLikely(ctx) <==>
      (exists i :: OccursAt(ctx, "in_hand", i)) || (exists i :: OccursAt(ctx, "moving", i))
  {
    ContainsIffOccurs(ctx, "in_hand");
    ContainsIffOccurs(ctx, "moving");
    Contains(ctx, "in_hand") || Contains(ctx, "moving")
  }

  /** The tag says the phone rests on or in something. */
  predicate SurfaceLikely(ctx: string)
    ensures SurfaceLikely(ctx) <==>
      (exists i :: OccursAt(ctx, "face_down", i)) || (exists i :: OccursAt(ctx, "still_side", i))
        || (exists i :: OccursAt(ctx, "in_pocket", i))
  {
    ContainsIffOccurs(ctx, "face_down");
    ContainsIffOccurs(ctx, "still_side");
    ContainsIffOccurs(ctx, "in_pocket");
    Contains(ctx, "face_down") || Contains(ctx, "still_side") || Contains(ctx, "in_pocket")
  }

  /** A hard impact, or a high score on top of a rule-level signal. */
  predicate VeryStrong(accelMag: real, gyroMag: real, mlScore: real)
    ensures accelMag > 20.0 ==> VeryStrong(accelMag, gyroMag, mlScore)
    ensures VeryStrong(accelMag, gyroMag, mlScore) ==> accelMag > 16.0 || gyroMag > 110.0
    ensures VeryStrong(accelMag, gyroMag, mlScore) && accelMag <= 20.0 ==> mlScore > 0.80
  {
    accelMag > 20.0 || (mlScore > 0.80 && (accelMag > 16.0 || gyroMag > 110.0))
  }

  /** Adaptive timing: the first matching case of the precedence chain overrides the configured pair. */
  function SelectTiming(cfg: Timing, ctx: string, accelMag: real, gyroMag: real, mlScore: real, dropLike: bool): (t: Timing)
    ensures VeryStrong(accelMag, gyroMag, mlScore) && !dropLike ==>
      t.silentMs == 0 && t.modalMs == Max(cfg.modalMs, 30000)
    ensures !(VeryStrong(accelMag, gyroMag, mlScore) && !dropLike) && HumanLikely(ctx) ==>
      t.silentMs == Min(cfg.silentMs, 5000) && t.modalMs == Max(cfg.modalMs, 25000)
    ensures !(VeryStrong(accelMag, gyroMag, mlScore) && !dropLike) && !HumanLikely(ctx) && (dropLike || SurfaceLikely(ctx)) ==>
      t.silentMs == Min(cfg.silentMs, 5000) && t.modalMs == Max(cfg.modalMs, 20000)
    ensures !(VeryStrong(accelMag, gyroMag, mlScore) && !dropLike) && !HumanLikely(ctx) && !dropLike && !SurfaceLikely(ctx) ==>
      t == cfg
    ensures t.modalMs == cfg.modalMs || t.modalMs in {20000, 25000, 30000}
    ensures t.modalMs >= cfg.modalMs
    ensures t.silentMs <= Max(cfg.silentMs, 0)
  {
    if VeryStrong(accelMag, gyroMag, mlScore) && !dropLike then
      Timing(0, Max(cfg.modalMs, 30000))
    else if HumanLikely(ctx) then
      Timing(Min(cfg.silentMs, 5000), Max(cfg.modalMs, 25000))
    else if dropLike || SurfaceLikely(ctx) then
      Timing(Min(cfg.silentMs, 5000), Max(cfg.modalMs, 20000))
    else
      cfg
  }

  /** A new alert: silent first, prompting from `confirmStartsAt`, escalating at `expiryAt`. */
  function NewAlert(id: int, e: Sample, reason: Reason, now: int, t: Timing): (a: Alert)
    ensures a.id == id && a.status == PendingSilent && a.reason == reason
    ensures a.timestamp == e.timestamp && a.lat == e.lat && a.lng == e.lng
    ensures a.confirmStartsAt >= now
    ensures t.silentMs >= 0 ==> a.confirmStartsAt == now + t.silentMs
    ensures t.silentMs <= 0 ==> a.confirmStartsAt == now
    ensures a.expiryAt - a.confirmStartsAt >= 1000
    ensures a.expiryAt - a.confirmStartsAt >= t.modalMs
    ensures a.expiryAt - a.confirmStartsAt == 1000 || a.expiryAt - a.confirmStartsAt == t.modalMs
  {
    var confirmStartsAt := now + Max(0, t.silentMs);
    Alert(id, e.timestamp, reason, e.lat, e.lng, PendingSilent, confirmStartsAt, confirmStartsAt + Max(1000, t.modalMs))
  }

  /** A hard impact of 20.5 with no rotation and no context: immediate prompt, at least 30 s to answer. */
  lemma HardImpactPromptsAtOnce(cfg: Timing, mlScore: real, now: int, id: int, e: Sample)
    requires e.accelMag == 20.5 && e.gyroMag == 0.0 && e.context.None?
    ensures RuleHit(e.accelMag, e.gyroMag) && VeryStrong(e.accelMag, e.gyroMag, mlScore)
    ensures Decide(e.accelMag, e.gyroMag, mlScore, false)
    ensures var t := SelectTiming(cfg, ContextText(e.context), e.accelMag, e.gyroMag, mlScore, false);
            var a := NewAlert(id, e, Reason(true, mlScore, false), now, t);
            t.silentMs == 0 && t.modalMs >= 30000 && a.confirmStartsAt == now && a.expiryAt >= now + 30000
  {
  }

  /** A drop-like sample with no rule hit and a score of 0.5 raises no alert. */
  lemma WeakDropIsIgnored(accelMag: real, gyroMag: real)
    requires !RuleHit(accelMag, gyroMag)
    ensures !Decide(accelMag, gyroMag, 0.5, true)
  {
  }
}
