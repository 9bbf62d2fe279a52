/**
 * What a subscriber does with the payloads it receives (src/watcher.rs, the
 * bodies of `standalone_subscription_loop` and `cluster_subscription_loop`),
 * stated over a whole sequence of inbound items.
 *
 * An inbound item is `Some(payload)`, or `None` when there is no payload to
 * look at: the standalone stream gave a message whose payload could not be
 * read as a string, or the cluster connection pushed something other than a
 * channel message. Such items are skipped. The close sentinel ends the
 * subscription; a payload that is not a message is skipped; a message from
 * this very instance is skipped when the instance ignores itself; every other
 * message is handed, as the raw payload, to the callback.
 */
module Subscription {
  import opened Wrappers
  import opened Json
  import opened Messages

  /** The literal text a closing watcher publishes; it is not JSON. */
  const CloseSignal: Payload := NotJson("Close")

  /** Whether a payload other than the sentinel reaches the callback. */
  predicate Wanted(ignoreSelf: bool, localId: string, p: Payload)
  {
    FromJson(p).Ok? && !(ignoreSelf && FromJson(p).value.id == localId)
  }

  /** The subscriber's filter, as a predicate on payloads. */
  function Keep(ignoreSelf: bool, localId: string): Payload -> bool
  {
    p => Wanted(ignoreSelf, localId, p)
  }

  /** The position of the first close sentinel, or the length when there is none. */
  function HaltIndex(items: seq<Option<Payload>>): (k: nat)
    ensures k <= |items|
    ensures forall i :: 0 <= i < k ==> items[i] != Some(CloseSignal)
    ensures k < |items| ==> items[k] == Some(CloseSignal)
  {
    if items == [] then 0
    else if items[0] == Some(CloseSignal) then 0
    else 1 + HaltIndex(items[1..])
  }

  /** The payloads among `items` that pass the filter `keep`, in order, ignoring the sentinel's effect. */
  function Accepted(keep: Payload -> bool, items: seq<Option<Payload>>): seq<Payload>
  {
    if items == [] then []
    else
      var last := items[|items| - 1];
      Accepted(keep, items[..|items| - 1])
      + (if last.Some? && keep(last.value) then [last.value] else [])
  }

  /** What a running subscription hands to its callback: the accepted payloads before the first sentinel. */
  function Deliverable(keep: Payload -> bool, items: seq<Option<Payload>>): seq<Payload>
  {
    Accepted(keep, items[..HaltIndex(items)])
  }

  // ---------------------------------------------------------------------------
  // The cluster connection's pushes

  /** The kind of a push from the cluster connection: a channel message, or anything else. */
  datatype PushKind = PubSubMessage | OtherPush

  /** A value in a push; only a bulk string carries a payload. */
  datatype RedisValue = BulkString(data: Payload) | OtherValue

  datatype PushInfo = PushInfo(kind: PushKind, data: seq<RedisValue>)

  /** A push is looked at only when it is a channel message whose third element is a bulk string. */
  function ClusterPayload(push: PushInfo): Option<Payload>
  {
    if push.kind == PubSubMessage && |push.data| > 2 && push.data[2].BulkString?
    then Some(push.data[2].data)
    else None
  }

  function ClusterItems(pushes: seq<PushInfo>): seq<Option<Payload>>
  {
    seq(|pushes|, i requires 0 <= i < |pushes| => ClusterPayload(pushes[i]))
  }

  // ---------------------------------------------------------------------------
  // Properties

  lemma {:induction false} AcceptedAppend(keep: Payload -> bool, xs: seq<Option<Payload>>, ys: seq<Option<Payload>>)
    ensures Accepted(keep, xs + ys) == Accepted(keep, xs) + Accepted(keep, ys)
    decreases |ys|
  {
    if ys == [] {
      assert xs + ys == xs;
    } else {
      var n := |ys| - 1;
      assert (xs + ys)[..|xs + ys| - 1] == xs + ys[..n];
      assert (xs + ys)[|xs + ys| - 1] == ys[n];
      AcceptedAppend(keep, xs, ys[..n]);
    }
  }

  /** One more item adds its payload to the accepted ones exactly when it passes the filter. */
  lemma AcceptedStep(keep: Payload -> bool, items: seq<Option<Payload>>, i: nat)
    requires i < |items|
    ensures Accepted(keep, items[..i + 1])
      == Accepted(keep, items[..i]) + (if items[i].Some? && keep(items[i].value) then [items[i].value] else [])
  {
    assert items[..i + 1][..i] == items[..i];
  }

  /** A payload is accepted exactly when it was received and passes the filter. */
  lemma {:induction false} AcceptedIff(keep: Payload -> bool, items: seq<Option<Payload>>, p: Payload)
    ensures p in Accepted(keep, items) <==> Some(p) in items && keep(p)
    decreases |items|
  {
    if items != [] {
      var n := |items| - 1;
      AcceptedIff(keep, items[..n], p);
      assert items == items[..n] + [items[n]];
      assert Some(p) in items <==> Some(p) in items[..n] || items[n] == Some(p);
    }
  }

  /** Where the first sentinel of a concatenation is. */
  lemma {:induction false} HaltIndexAppend(xs: seq<Option<Payload>>, ys: seq<Option<Payload>>)
    ensures HaltIndex(xs + ys) == if HaltIndex(xs) < |xs| then HaltIndex(xs) else |xs| + HaltIndex(ys)
    decreases |xs|
  {
    if xs == [] {
      assert xs + ys == ys;
    } else {
      assert (xs + ys)[0] == xs[0];
      assert (xs + ys)[1..] == xs[1..] + ys;
      HaltIndexAppend(xs[1..], ys);
    }
  }

  /** Nothing at or after a close sentinel is delivered, whatever follows it. */
  lemma CloseCutsOff(keep: Payload -> bool, xs: seq<Option<Payload>>, ys: seq<Option<Payload>>)
    ensures Deliverable(keep, xs + [Some(CloseSignal)] + ys) == Deliverable(keep, xs)
  {
    var zs := xs + [Some(CloseSignal)] + ys;
    assert zs == xs + ([Some(CloseSignal)] + ys);
    HaltIndexAppend(xs, [Some(CloseSignal)] + ys);
    var h := HaltIndex(xs);
    if h < |xs| {
      assert zs[..h] == xs[..h];
    } else {
      assert zs[..|xs|] == xs[..|xs|];
    }
  }

  /**
   * An item that is not the sentinel and does not pass the filter (an
   * unreadable payload, a payload that is not a message, an ignored message
   * of one's own) is skipped without ending the subscription: removing it
   * changes nothing.
   */
  lemma SkipsUnwanted(keep: Payload -> bool, xs: seq<Option<Payload>>, item: Option<Payload>, ys: seq<Option<Payload>>)
    requires item != Some(CloseSignal)
    requires !(item.Some? && keep(item.value))
    ensures Deliverable(keep, xs + [item] + ys) == Deliverable(keep, xs + ys)
  {
    HaltIndexSkipped(xs, item, ys);
    var h := HaltIndex(xs);
    if h < |xs| {
      SkipsUnwantedEarly(keep, xs, xs + [item] + ys, xs + ys, h);
    } else {
      SkipsUnwantedLate(keep, xs, item, ys, HaltIndex(ys));
    }
  }

  /** Where the first sentinel is, with and without an item that is not the sentinel. */
  lemma HaltIndexSkipped(xs: seq<Option<Payload>>, item: Option<Payload>, ys: seq<Option<Payload>>)
    requires item != Some(CloseSignal)
    ensures HaltIndex(xs) < |xs| ==> HaltIndex(xs + [item] + ys) == HaltIndex(xs + ys) == HaltIndex(xs)
    ensures HaltIndex(xs) == |xs| ==>
      HaltIndex(xs + [item] + ys) == |xs| + 1 + HaltIndex(ys) && HaltIndex(xs + ys) == |xs| + HaltIndex(ys)
  {
    assert xs + [item] + ys == xs + ([item] + ys);
    HaltIndexAppend(xs, [item] + ys);
    HaltIndexAppend(xs, ys);
    assert ([item] + ys)[1..] == ys;
  }

  lemma SkipsUnwantedEarly(keep: Payload -> bool, xs: seq<Option<Payload>>, zs: seq<Option<Payload>>, ws: seq<Option<Payload>>, h: nat)
    requires h <= |xs| <= |zs| && |xs| <= |ws|
    requires zs[..|xs|] == xs && ws[..|xs|] == xs
    ensures Accepted(keep, zs[..h]) == Accepted(keep, ws[..h])
  {
    assert zs[..h] == xs[..h];
    assert ws[..h] == xs[..h];
  }

  lemma SkipsUnwantedLate(keep: Payload -> bool, xs: seq<Option<Payload>>, item: Option<Payload>, ys: seq<Option<Payload>>, hy: nat)
    requires hy <= |ys|
    requires !(item.Some? && keep(item.value))
    ensures Accepted(keep, (xs + [item] + ys)[..|xs| + 1 + hy]) == Accepted(keep, (xs + ys)[..|xs| + hy])
  {
    assert (xs + [item] + ys)[..|xs| + 1 + hy] == xs + [item] + ys[..hy];
    assert (xs + ys)[..|xs| + hy] == xs + ys[..hy];
    SkipsUnwantedPrefix(keep, xs, item, ys[..hy]);
  }

  lemma SkipsUnwantedPrefix(keep: Payload -> bool, xs: seq<Option<Payload>>, item: Option<Payload>, ys: seq<Option<Payload>>)
    requires !(item.Some? && keep(item.value))
    ensures Accepted(keep, xs + [item] + ys) == Accepted(keep, xs + ys)
  {
    AcceptedAppend(keep, xs + [item], ys);
    AcceptedAppend(keep, xs, ys);
    assert (xs + [item])[..|xs|] == xs;
  }

  /**
   * The self-filter: when an instance ignores itself, nothing it delivers
   * carries its own id, and everything it delivers is a message.
   */
  lemma NeverDeliversSelf(localId: string, items: seq<Option<Payload>>, p: Payload)
    requires p in Deliverable(Keep(true, localId), items)
    ensures FromJson(p).Ok? && FromJson(p).value.id != localId
  {
    AcceptedIff(Keep(true, localId), items[..HaltIndex(items)], p);
  }

  /** Every message received before the first sentinel that passes the filter is delivered. */
  lemma DeliversWanted(keep: Payload -> bool, items: seq<Option<Payload>>, i: nat)
    requires i < HaltIndex(items)
    requires items[i].Some? && keep(items[i].value)
    ensures items[i].value in Deliverable(keep, items)
  {
    assert items[..HaltIndex(items)][i] == items[i];
    AcceptedIff(keep, items[..HaltIndex(items)], items[i].value);
  }

  /**
   * A watcher's own publication comes back to it: it passes the filter
   * exactly when the watcher does not ignore itself, and a publication by
   * any other instance always passes.
   */
  lemma OwnMessageFiltered(ignoreSelf: bool, localId: string, m: Message)
    ensures m.id == localId ==> (Wanted(ignoreSelf, localId, ToJson(m)) <==> !ignoreSelf)
    ensures m.id != localId ==> Wanted(ignoreSelf, localId, ToJson(m))
  {
    RoundTrip(m);
  }

  /**
   * An instance that ignores itself and hears only its own publications (its
   * messages and its close sentinels, in any mix) hands nothing to its callback.
   */
  lemma OwnEchoesIgnored(localId: string, items: seq<Option<Payload>>)
    requires forall p :: Some(p) in items ==> p == CloseSignal || (FromJson(p).Ok? && FromJson(p).value.id == localId)
    ensures Deliverable(Keep(true, localId), items) == []
  {
    var ds := Deliverable(Keep(true, localId), items);
    if ds != [] {
      var p := ds[0];
      AcceptedIff(Keep(true, localId), items[..HaltIndex(items)], p);
      assert false;
    }
  }

  lemma ClusterItemsAppend(xs: seq<PushInfo>, ys: seq<PushInfo>)
    ensures ClusterItems(xs + ys) == ClusterItems(xs) + ClusterItems(ys)
  {
  }

  /**
   * The cluster path's extra filter: a push that is not a channel message, or
   * whose third element is not a bulk string, is passed over without ending
   * the subscription.
   */
  lemma ClusterSkipsOtherPushes(keep: Payload -> bool, xs: seq<PushInfo>, push: PushInfo, ys: seq<PushInfo>)
    requires push.kind != PubSubMessage || |push.data| <= 2 || !push.data[2].BulkString?
    ensures Deliverable(keep, ClusterItems(xs + [push] + ys)) == Deliverable(keep, ClusterItems(xs + ys))
  {
    ClusterItemsAppend(xs + [push], ys);
    ClusterItemsAppend(xs, [push]);
    ClusterItemsAppend(xs, ys);
    assert ClusterItems([push]) == [None];
    SkipsUnwanted(keep, ClusterItems(xs), None, ClusterItems(ys));
  }
}
