/** The observations a media asset's item observer holds: key-value observations
    of an item's `status` and subscriptions to its "played to end" notification.
    Each observation is owned by the asset that registered it, and an asset can
    cancel all of its observations of one kind at once. */
module Registry {

  /** Identity of a `MediaAsset` object. */
  type AssetId = nat

  /** Identity of an `AVPlayerItem` object. */
  type ItemId = nat

  /** `StatusObservation` is a key-value observation of `status`;
      `EndNotification` a subscription to `AVPlayerItemDidPlayToEndTime`. */
  datatype ObservationKind = StatusObservation | EndNotification

  datatype Observation = Observation(owner: AssetId, target: ItemId, kind: ObservationKind)

  /** The registrations left after asset `owner` cancels all of its observations of
      `kind` (`stopObservingAll()` for key-value observations, `unsubscribeAll()` for
      notifications). */
  function Cancel(obs: seq<Observation>, owner: AssetId, kind: ObservationKind): (r: seq<Observation>)
    ensures forall o :: o in r <==> o in obs && !(o.owner == owner && o.kind == kind)
    ensures |r| <= |obs|
  {
    if |obs| == 0 then []
    else if obs[0].owner == owner && obs[0].kind == kind then Cancel(obs[1..], owner, kind)
    else [obs[0]] + Cancel(obs[1..], owner, kind)
  }

  /** Cancelling distributes over concatenation: each registration is kept or
      dropped on its own. */
  lemma {:induction false} CancelAppend(a: seq<Observation>, b: seq<Observation>, owner: AssetId, kind: ObservationKind)
    ensures Cancel(a + b, owner, kind) == Cancel(a, owner, kind) + Cancel(b, owner, kind)
  {
    if |a| == 0 {
      assert a + b == b;
    } else {
      assert (a + b)[1..] == a[1..] + b;
      CancelAppend(a[1..], b, owner, kind);
    }
  }

  /** Cancelling leaves a list without any matching registration exactly as it was. */
  lemma {:induction false} CancelNothingToCancel(obs: seq<Observation>, owner: AssetId, kind: ObservationKind)
    requires forall o :: o in obs ==> !(o.owner == owner && o.kind == kind)
    ensures Cancel(obs, owner, kind) == obs
  {
    if |obs| > 0 {
      assert obs[0] in obs;
      assert forall o :: o in obs[1..] ==> o in obs;
      CancelNothingToCancel(obs[1..], owner, kind);
      assert obs == [obs[0]] + obs[1..];
    }
  }

  /** Cancelling is idempotent: a second cancellation finds nothing to remove. */
  lemma CancelIdempotent(obs: seq<Observation>, owner: AssetId, kind: ObservationKind)
    ensures Cancel(Cancel(obs, owner, kind), owner, kind) == Cancel(obs, owner, kind)
  {
    CancelNothingToCancel(Cancel(obs, owner, kind), owner, kind);
  }

  /** How many registrations of `kind` watch item `target`: the number of handler
      runs one occurrence on that item triggers. */
  function CountWatching(obs: seq<Observation>, kind: ObservationKind, target: ItemId): (n: nat)
    ensures n <= |obs|
    ensures n == 0 <==> forall o :: o in obs ==> !(o.kind == kind && o.target == target)
  {
    if |obs| == 0 then 0
    else
      assert forall o :: o in obs <==> o == obs[0] || o in obs[1..];
      (if obs[0].kind == kind && obs[0].target == target then 1 else 0)
        + CountWatching(obs[1..], kind, target)
  }

  /** The count over a concatenation is the sum of the counts. */
  lemma {:induction false} CountWatchingAppend(a: seq<Observation>, b: seq<Observation>, kind: ObservationKind, target: ItemId)
    ensures CountWatching(a + b, kind, target) == CountWatching(a, kind, target) + CountWatching(b, kind, target)
  {
    if |a| == 0 {
      assert a + b == b;
    } else {
      assert (a + b)[1..] == a[1..] + b;
      CountWatchingAppend(a[1..], b, kind, target);
    }
  }

  /** A registration list with no members is empty. */
  lemma NoMembersIsEmpty(obs: seq<Observation>)
    ensures (forall o :: o !in obs) ==> obs == []
  {
    if |obs| > 0 {
      assert obs[0] in obs;
    }
  }
}
