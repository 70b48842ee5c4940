/** The two records the engine works on: a sensor sample (`Event`) and an alert (`Alert`). */
module Events {
  import opened Wrappers
  import opened Arith

  /** A Euclidean norm: the square root is taken outside the model, only its sign is kept. */
  type Magnitude = r: real | r >= 0.0

  /** One inbound reading, with accelerometer and gyroscope magnitudes already taken. */
  datatype Sample = Sample(
    timestamp: int,
    accelMag: Magnitude,
    gyroMag: Magnitude,
    lat: Option<real>,
    lng: Option<real>,
    context: Option<string>)

  /** The alert status, a closed set in place of the status strings. */
  datatype Status = PendingSilent | PendingConfirm | Sent | Cancelled
  {
    predicate IsTerminal()
    {
      this == Sent || this == Cancelled
    }
  }

  /** The diagnostic fields the reason text is formatted from. */
  datatype Reason = Reason(ruleHit: bool, mlScore: real, dropLike: bool)

  datatype Alert = Alert(
    id: int,
    timestamp: int,
    reason: Reason,
    lat: Option<real>,
    lng: Option<real>,
    status: Status,
    confirmStartsAt: int,
    expiryAt: int)

  /** The `limit` most recently stored samples, newest first (`ORDER BY id DESC LIMIT n`). */
  function Newest(events: seq<Sample>, limit: nat): (r: seq<Sample>)
    ensures |r| == Min(limit, |events|)
    ensures forall i :: 0 <= i < |r| ==> r[i] == events[|events| - 1 - i]
  {
    if limit == 0 || |events| == 0 then []
    else [events[|events| - 1]] + Newest(events[..|events| - 1], limit - 1)
  }

  /** The sample query the drop detector reads: the last 30 stored samples, newest first. */
  function Recent30(events: seq<Sample>): (r: seq<Sample>)
    ensures |r| == Min(30, |events|)
    ensures forall i :: 0 <= i < |r| ==> r[i] == events[|events| - 1 - i]
  {
    Newest(events, 30)
  }
}
