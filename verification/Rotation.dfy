/** Webhook secret rotation: which secrets sign a delivery after any history of writes. */
module Rotation {
  import opened Wrappers
  import opened Outbox

  const ROTATION_SECONDS := 600

  /** The old secret and its deadline to store beside a new write of `secret`. */
  function RotationProof(previous: Option<Subscription>, secret: Bytes, now: int): (Option<Bytes>, Option<int>)
  {
    if previous.None? || !previous.value.active then (None, None)
    else
      var current := previous.value;
      if current.secret != secret then (Some(current.secret), Some(now + ROTATION_SECONDS))
      else if current.oldSecretExpiresAt.Some? && current.oldSecretExpiresAt.value > now then
        (current.oldSecret, current.oldSecretExpiresAt)
      else (None, None)
  }

  /** The secrets a delivery at time t is signed with. */
  function Signers(sub: Subscription, t: int): seq<Bytes>
  {
    if sub.oldSecretExpiresAt.Some? && sub.oldSecretExpiresAt.value > t && sub.oldSecret.Some? then
      [sub.secret, sub.oldSecret.value]
    else [sub.secret]
  }

  // ---- the history of one subscription id ----

  /** A write of a secret, or the subscription being cancelled, deactivated or swept away. */
  datatype Event = Wrote(secret: Bytes, at: int) | Ended

  /** The stored subscription after a history of writes; `base` supplies the other columns. */
  function Stored(base: Subscription, history: seq<Event>): Option<Subscription>
  {
    if history == [] then None
    else
      var before := Stored(base, history[..|history| - 1]);
      match history[|history| - 1]
      case Ended => if before.Some? then Some(before.value.(active := false)) else None
      case Wrote(secret, at) =>
        var (oldSecret, until) := RotationProof(before, secret, at);
        Some(base.(secret := secret, oldSecret := oldSecret, oldSecretExpiresAt := until, active := true))
  }

  /** Reference: the secret replaced by the last change within the present active stretch, and when. */
  function LastChange(history: seq<Event>): Option<(Bytes, int)>
  {
    var n := |history|;
    if n < 2 || history[n - 1].Ended? || history[n - 2].Ended? then None
    else if history[n - 1].secret != history[n - 2].secret then Some((history[n - 2].secret, history[n - 1].at))
    else LastChange(history[..n - 1])
  }

  predicate ClockMonotone(history: seq<Event>)
  {
    forall i, j | 0 <= i < j < |history| && history[i].Wrote? && history[j].Wrote? :: history[i].at <= history[j].at
  }

  function Expected(history: seq<Event>, t: int): seq<Bytes>
    requires history != [] && history[|history| - 1].Wrote?
  {
    var current := history[|history| - 1].secret;
    match LastChange(history)
    case None => [current]
    case Some((previous, at)) => if t < at + ROTATION_SECONDS then [current, previous] else [current]
  }

  /** A change is never newer than the last write. */
  lemma {:induction false} ChangeIsPast(history: seq<Event>)
    requires ClockMonotone(history) && history != [] && history[|history| - 1].Wrote?
    ensures LastChange(history).Some? ==> LastChange(history).value.1 <= history[|history| - 1].at
  {
    var n := |history|;
    if n >= 2 && history[n - 2].Wrote? && history[n - 1].secret == history[n - 2].secret {
      ChangeIsPast(history[..n - 1]);
    }
  }

  /** What is stored, seen from the last write on: the current secret, and beside it the one before
      the last change with the deadline that change set, unless that deadline had passed. */
  lemma {:induction false} StoredRotation(base: Subscription, history: seq<Event>)
    requires ClockMonotone(history) && history != [] && history[|history| - 1].Wrote?
    ensures var last, sub := history[|history| - 1], Stored(base, history);
      && sub.Some? && sub.value.active && sub.value.secret == last.secret
      && (match LastChange(history)
          case Some((previous, at)) =>
            if last.at < at + ROTATION_SECONDS
            then sub.value.oldSecret == Some(previous) && sub.value.oldSecretExpiresAt == Some(at + ROTATION_SECONDS)
            else sub.value.oldSecret == None && sub.value.oldSecretExpiresAt == None
          case None => sub.value.oldSecret == None && sub.value.oldSecretExpiresAt == None)
  {
    var n := |history|;
    var before := history[..n - 1];
    if n >= 2 && history[n - 2].Wrote? {
      assert before[|before| - 1] == history[n - 2];
      StoredRotation(base, before);
      ChangeIsPast(before);
    } else if n >= 2 {
      assert before[|before| - 1].Ended?;
      assert Stored(base, before).None? || !Stored(base, before).value.active;
    }
  }

  /** After any history of writes a delivery is signed with the current secret and, exactly while
      less than 600 seconds have passed since the last change, with the secret that change
      replaced. Refreshing with the same secret moves neither bound. */
  lemma SignersFollowHistory(base: Subscription, history: seq<Event>, t: int)
    requires ClockMonotone(history) && history != [] && history[|history| - 1].Wrote?
    requires t >= history[|history| - 1].at
    ensures Stored(base, history).Some?
    ensures Signers(Stored(base, history).value, t) == Expected(history, t)
  {
    StoredRotation(base, history);
  }

  /** A refresh is invisible to every later delivery. */
  lemma RefreshIsInvisible(base: Subscription, history: seq<Event>, at: int, t: int)
    requires history != [] && history[|history| - 1].Wrote? && at <= t
    requires ClockMonotone(history + [Wrote(history[|history| - 1].secret, at)])
    ensures var refreshed := history + [Wrote(history[|history| - 1].secret, at)];
      && Stored(base, history).Some? && Stored(base, refreshed).Some?
      && Signers(Stored(base, refreshed).value, t) == Signers(Stored(base, history).value, t)
  {
    var refreshed := history + [Wrote(history[|history| - 1].secret, at)];
    assert refreshed[|history| - 1] == history[|history| - 1] && refreshed[..|history|] == history;
    assert ClockMonotone(history) by {
      assert forall i | 0 <= i < |history| :: refreshed[i] == history[i];
    }
    assert refreshed[|history|].at >= refreshed[|history| - 1].at;
    SignersFollowHistory(base, history, t);
    SignersFollowHistory(base, refreshed, t);
  }
}
