/**
 * The watcher itself (`RedisWatcher` in src/watcher.rs) as one sequential
 * object. The Redis connections, the spawned subscription task and the locks
 * around the flag and the callback slot are not modelled: publishing appends
 * to the `published` log, a running subscription task is the `listening`
 * flag, and what the task hands to the callback is appended to `delivered`.
 * The payloads the subscription receives are given to `Listen` as a sequence.
 */
module Watcher {
  import opened Wrappers
  import opened Json
  import opened Messages
  import opened Builders
  import opened Subscription
  import Options

  /** The failures the modelled operations can report. */
  datatype WatcherError = AlreadyClosed

  /** A callback, told apart by name; calling it with a payload is recorded as a `Delivery`. */
  datatype Handler = Handler(name: string)

  datatype Delivery = Delivery(handler: Handler, payload: Payload)

  /** The calls `h` receives for the payloads `ps`, in order. */
  function Handed(h: Handler, ps: seq<Payload>): (ds: seq<Delivery>)
    ensures |ds| == |ps|
    ensures forall i :: 0 <= i < |ps| ==> ds[i] == Delivery(h, ps[i])
  {
    seq(|ps|, i requires 0 <= i < |ps| => Delivery(h, ps[i]))
  }

  /** One more received item adds one call to the handler exactly when it passes the filter. */
  lemma HandedStep(h: Handler, keep: Payload -> bool, items: seq<Option<Payload>>, i: nat)
    requires i < |items|
    ensures Handed(h, Accepted(keep, items[..i + 1]))
      == Handed(h, Accepted(keep, items[..i]))
         + (if items[i].Some? && keep(items[i].value) then [Delivery(h, items[i].value)] else [])
  {
    AcceptedStep(keep, items, i);
    var ps := Accepted(keep, items[..i]);
    var qs := if items[i].Some? && keep(items[i].value) then [items[i].value] else [];
    assert Handed(h, ps + qs) == Handed(h, ps) + Handed(h, qs);
  }

  class RedisWatcher {
    const options: Options.WatcherOptions
    var isClosed: bool
    var callback: Option<Handler>
    /** Whether a subscription task has been started and has not stopped. */
    var listening: bool
    /** Everything published on `options.channel`, in order. */
    var published: seq<Payload>
    /** Every callback invocation, in order. */
    var delivered: seq<Delivery>

    /**
     * A closed watcher has no running subscription; it publishes only
     * messages carrying its own id and close sentinels, and nothing but sentinels after its first
     * sentinel, which it sends only once closed; every payload it has handed
     * to a callback is a message that passes its filter.
     */
    ghost predicate Valid()
      reads this
    {
      && (isClosed ==> !listening)
      && (forall p :: p in published ==> p == CloseSignal || (FromJson(p).Ok? && FromJson(p).value.id == options.localId))
      && (CloseSignal in published ==> isClosed)
      && (forall i, j :: 0 <= i < j < |published| && published[i] == CloseSignal ==> published[j] == CloseSignal)
      && (forall d :: d in delivered ==> Wanted(options.ignoreSelf, options.localId, d.payload))
    }

    /** A freshly built watcher: open, no callback, no subscription, nothing sent or delivered. */
    constructor (options: Options.WatcherOptions)
      ensures Valid()
      ensures this.options == options
      ensures !isClosed && callback == None && !listening
      ensures published == [] && delivered == []
    {
      this.options := options;
      isClosed := false;
      callback := None;
      listening := false;
      published := [];
      delivered := [];
    }

    /** The effect of `publish_message` for `m`: refused once closed, otherwise `m` is sent and nothing else changes. */
    twostate predicate PublishedOrRefused(m: Message, new r: Result<(), WatcherError>)
      reads this
    {
      && isClosed == old(isClosed) && callback == old(callback) && listening == old(listening)
      && delivered == old(delivered)
      && (old(isClosed) ==> r == Err(AlreadyClosed) && published == old(published))
      && (!old(isClosed) ==> r == Ok(()) && published == old(published) + [ToJson(m)])
    }

    /**
     * `publish_message`: once closed every publish fails and sends nothing.
     * Every caller publishes a message built with the watcher's own id.
     */
    method PublishMessage(m: Message) returns (r: Result<(), WatcherError>)
      requires Valid() && m.id == options.localId
      modifies this
      ensures Valid()
      ensures PublishedOrRefused(m, r)
    {
      if isClosed {
        return Err(AlreadyClosed);
      }
      RoundTrip(m);
      published := published + [ToJson(m)];
      r := Ok(());
    }

    /** `start_subscription`: fails once closed, otherwise starts listening. */
    method StartSubscription() returns (r: Result<(), WatcherError>)
      requires Valid()
      modifies this
      ensures Valid()
      ensures old(isClosed) ==> r == Err(AlreadyClosed) && listening == old(listening)
      ensures !old(isClosed) ==> r == Ok(()) && listening
      ensures isClosed == old(isClosed) && callback == old(callback)
      ensures published == old(published) && delivered == old(delivered)
    {
      if isClosed {
        return Err(AlreadyClosed);
      }
      listening := true;
      r := Ok(());
    }

    /**
     * `set_update_callback`: the slot is overwritten first, even on a closed
     * watcher, and then the subscription is started.
     */
    method SetUpdateCallback(h: Handler) returns (r: Result<(), WatcherError>)
      requires Valid()
      modifies this
      ensures Valid()
      ensures callback == Some(h)
      ensures old(isClosed) ==> r == Err(AlreadyClosed) && listening == old(listening)
      ensures !old(isClosed) ==> r == Ok(()) && listening
      ensures isClosed == old(isClosed)
      ensures published == old(published) && delivered == old(delivered)
    {
      callback := Some(h);
      r := StartSubscription();
    }

    method Update() returns (r: Result<(), WatcherError>)
      requires Valid()
      modifies this
      ensures Valid()
      ensures PublishedOrRefused(ForUpdate(options.localId), r)
    {
      r := PublishMessage(ForUpdate(options.localId));
    }

    method UpdateForAddPolicy(sec: string, ptype: string, params: seq<string>) returns (r: Result<(), WatcherError>)
      requires Valid()
      modifies this
      ensures Valid()
      ensures PublishedOrRefused(ForAddPolicy(options.localId, sec, ptype, params), r)
    {
      r := PublishMessage(ForAddPolicy(options.localId, sec, ptype, params));
    }

    method UpdateForRemovePolicy(sec: string, ptype: string, params: seq<string>) returns (r: Result<(), WatcherError>)
      requires Valid()
      modifies this
      ensures Valid()
      ensures PublishedOrRefused(ForRemovePolicy(options.localId, sec, ptype, params), r)
    {
      r := PublishMessage(ForRemovePolicy(options.localId, sec, ptype, params));
    }

    method UpdateForRemoveFilteredPolicy(sec: string, ptype: string, fieldIndex: int32, fieldValues: seq<string>)
      returns (r: Result<(), WatcherError>)
      requires Valid()
      modifies this
      ensures Valid()
      ensures PublishedOrRefused(ForRemoveFilteredPolicy(options.localId, sec, ptype, fieldIndex, fieldValues), r)
    {
      r := PublishMessage(ForRemoveFilteredPolicy(options.localId, sec, ptype, fieldIndex, fieldValues));
    }

    method UpdateForSavePolicy() returns (r: Result<(), WatcherError>)
      requires Valid()
      modifies this
      ensures Valid()
      ensures PublishedOrRefused(ForSavePolicy(options.localId), r)
    {
      r := PublishMessage(ForSavePolicy(options.localId));
    }

    method UpdateForAddPolicies(sec: string, ptype: string, rules: seq<seq<string>>) returns (r: Result<(), WatcherError>)
      requires Valid()
      modifies this
      ensures Valid()
      ensures PublishedOrRefused(ForAddPolicies(options.localId, sec, ptype, rules), r)
    {
      r := PublishMessage(ForAddPolicies(options.localId, sec, ptype, rules));
    }

    method UpdateForRemovePolicies(sec: string, ptype: string, rules: seq<seq<string>>) returns (r: Result<(), WatcherError>)
      requires Valid()
      modifies this
      ensures Valid()
      ensures PublishedOrRefused(ForRemovePolicies(options.localId, sec, ptype, rules), r)
    {
      r := PublishMessage(ForRemovePolicies(options.localId, sec, ptype, rules));
    }

    method UpdateForUpdatePolicy(sec: string, ptype: string, oldRule: seq<string>, newRule: seq<string>)
      returns (r: Result<(), WatcherError>)
      requires Valid()
      modifies this
      ensures Valid()
      ensures PublishedOrRefused(ForUpdatePolicy(options.localId, sec, ptype, oldRule, newRule), r)
    {
      r := PublishMessage(ForUpdatePolicy(options.localId, sec, ptype, oldRule, newRule));
    }

    method UpdateForUpdatePolicies(sec: string, ptype: string, oldRules: seq<seq<string>>, newRules: seq<seq<string>>)
      returns (r: Result<(), WatcherError>)
      requires Valid()
      modifies this
      ensures Valid()
      ensures PublishedOrRefused(ForUpdatePolicies(options.localId, sec, ptype, oldRules, newRules), r)
    {
      r := PublishMessage(ForUpdatePolicies(options.localId, sec, ptype, oldRules, newRules));
    }

    /**
     * `close`: sets the flag, publishes the sentinel (again, if already
     * closed) and stops the subscription task.
     */
    method Close() returns (r: Result<(), WatcherError>)
      requires Valid()
      modifies this
      ensures Valid()
      ensures r == Ok(())
      ensures isClosed && !listening
      ensures published == old(published) + [CloseSignal]
      ensures callback == old(callback) && delivered == old(delivered)
    {
      isClosed := true;
      published := published + [CloseSignal];
      listening := false;
      r := Ok(());
    }

    /**
     * The body of the subscription loop for one received item: the sentinel
     * stops the loop; an unreadable item, a payload that is not a message, or
     * the instance's own message when it ignores itself is skipped; any other
     * message is handed, as received, to the callback if one is set.
     */
    method HandleItem(item: Option<Payload>) returns (stop: bool)
      requires Valid() && !isClosed
      modifies this
      ensures Valid()
      ensures stop <==> item == Some(CloseSignal)
      ensures delivered == old(delivered) + (
        if !stop && callback.Some? && item.Some? && Keep(options.ignoreSelf, options.localId)(item.value)
        then [Delivery(callback.value, item.value)]
        else [])
      ensures isClosed == old(isClosed) && callback == old(callback) && published == old(published)
      ensures listening == old(listening)
    {
      if item == Some(CloseSignal) {
        return true;
      }
      stop := false;
      if item.Some? {
        var payload := item.value;
        var decoded := FromJson(payload);
        if decoded.Ok? {
          var message := decoded.value;
          if !(options.ignoreSelf && message.id == options.localId) {
            if callback.Some? {
              delivered := delivered + [Delivery(callback.value, payload)];
            }
          }
        }
      }
    }

    /**
     * The subscription loop run over the payloads `items` that arrive on the
     * channel. A watcher that is not listening (never started, or closed)
     * delivers nothing. Otherwise each payload before the first sentinel that
     * passes the filter goes to the callback, if one is set; the sentinel
     * ends the subscription.
     */
    method Listen(items: seq<Option<Payload>>)
      requires Valid()
      modifies this
      ensures Valid()
      ensures delivered == old(delivered) + (
        if old(listening) && callback.Some?
        then Handed(callback.value, Deliverable(Keep(options.ignoreSelf, options.localId), items))
        else [])
      ensures listening == (old(listening) && HaltIndex(items) == |items|)
      ensures isClosed == old(isClosed) && callback == old(callback) && published == old(published)
    {
      if !listening {
        return;
      }
      var stopped := Receive(items);
      if stopped {
        listening := false;
      }
    }

    /**
     * The loop of a running subscription: it hands each received item to
     * `HandleItem` until the first sentinel, and reports whether it met one.
     */
    method Receive(items: seq<Option<Payload>>) returns (stopped: bool)
      requires Valid() && listening
      modifies this
      ensures Valid() && listening
      ensures stopped <==> HaltIndex(items) < |items|
      ensures delivered == old(delivered) + (
        if callback.Some?
        then Handed(callback.value, Deliverable(Keep(options.ignoreSelf, options.localId), items))
        else [])
      ensures isClosed == old(isClosed) && callback == old(callback) && published == old(published)
    {
      ghost var keep := Keep(options.ignoreSelf, options.localId);
      var i := 0;
      stopped := false;
      while i < |items| && !stopped
        invariant i <= HaltIndex(items)
        invariant stopped ==> i == HaltIndex(items) < |items|
        invariant Valid() && listening && !isClosed
        invariant isClosed == old(isClosed) && callback == old(callback) && published == old(published)
        invariant delivered == old(delivered) + (if callback.Some? then Handed(callback.value, Accepted(keep, items[..i])) else [])
        decreases |items| - i, !stopped
      {
        stopped := ReceiveOne(items, i, old(delivered));
        if !stopped {
          i := i + 1;
        }
      }
      assert items[..HaltIndex(items)] == items[..i];
    }

    /**
     * One turn of `Receive`: the item at `i` is handed to `HandleItem`, and
     * unless it is the sentinel the deliveries since `before` grow to the
     * accepted payloads of `items[..i + 1]`.
     */
    method ReceiveOne(items: seq<Option<Payload>>, i: nat, ghost before: seq<Delivery>) returns (stop: bool)
      requires Valid() && listening && i < |items|
      requires delivered == before + (
        if callback.Some? then Handed(callback.value, Accepted(Keep(options.ignoreSelf, options.localId), items[..i])) else [])
      modifies this
      ensures Valid() && listening
      ensures stop <==> items[i] == Some(CloseSignal)
      ensures !stop ==>
        delivered == before + (
          if callback.Some? then Handed(callback.value, Accepted(Keep(options.ignoreSelf, options.localId), items[..i + 1])) else [])
      ensures stop ==> delivered == old(delivered)
      ensures isClosed == old(isClosed) && callback == old(callback) && published == old(published)
    {
      stop := HandleItem(items[i]);
      if !stop && callback.Some? {
        HandedStep(callback.value, Keep(options.ignoreSelf, options.localId), items, i);
      }
    }

    /**
     * The cluster subscription loop: the pushes are first narrowed to the
     * channel messages whose third element is a bulk string.
     */
    method ListenCluster(pushes: seq<PushInfo>)
      requires Valid()
      modifies this
      ensures Valid()
      ensures delivered == old(delivered) + (
        if old(listening) && callback.Some?
        then Handed(callback.value, Deliverable(Keep(options.ignoreSelf, options.localId), ClusterItems(pushes)))
        else [])
      ensures listening == (old(listening) && HaltIndex(ClusterItems(pushes)) == |pushes|)
      ensures isClosed == old(isClosed) && callback == old(callback) && published == old(published)
    {
      Listen(ClusterItems(pushes));
    }
  }
}
