/**
 * The watcher's configuration (src/options.rs): the pub/sub channel, whether
 * an instance ignores its own messages, and the instance id. The setters take
 * the record by value and give back an updated copy.
 */
module Options {

  datatype WatcherOptions = WatcherOptions(channel: string, ignoreSelf: bool, localId: string)

  const DefaultChannel := "/casbin"

  /**
   * `WatcherOptions::default`. The source draws a fresh random UUID for the
   * instance id; here that id is the parameter `freshId`.
   */
  function Default(freshId: string): (o: WatcherOptions)
    ensures o.channel == "/casbin" && !o.ignoreSelf && o.localId == freshId
  {
    WatcherOptions(DefaultChannel, false, freshId)
  }

  /** `WatcherOptions::new`: the defaults, with a fresh id of its own. */
  function New(freshId: string): (o: WatcherOptions)
    ensures o.channel == Default(freshId).channel && o.ignoreSelf == Default(freshId).ignoreSelf
    ensures o.localId == freshId
  {
    Default(freshId)
  }

  function WithChannel(o: WatcherOptions, channel: string): (r: WatcherOptions)
    ensures r.channel == channel && r.ignoreSelf == o.ignoreSelf && r.localId == o.localId
  {
    o.(channel := channel)
  }

  function WithIgnoreSelf(o: WatcherOptions, ignoreSelf: bool): (r: WatcherOptions)
    ensures r.ignoreSelf == ignoreSelf && r.channel == o.channel && r.localId == o.localId
  {
    o.(ignoreSelf := ignoreSelf)
  }

  function WithLocalId(o: WatcherOptions, localId: string): (r: WatcherOptions)
    ensures r.localId == localId && r.channel == o.channel && r.ignoreSelf == o.ignoreSelf
  {
    o.(localId := localId)
  }

  /** One call of a setter, so that chains of setters can be spoken about. */
  datatype Setting = Channel(channel: string) | IgnoreSelf(ignoreSelf: bool) | LocalId(localId: string)

  function Apply(o: WatcherOptions, s: Setting): WatcherOptions
  {
    match s
    case Channel(c) => WithChannel(o, c)
    case IgnoreSelf(b) => WithIgnoreSelf(o, b)
    case LocalId(id) => WithLocalId(o, id)
  }

  /** The options after calling the setters in `ss`, left to right. */
  function Chain(o: WatcherOptions, ss: seq<Setting>): WatcherOptions
  {
    if ss == [] then o else Apply(Chain(o, ss[..|ss| - 1]), ss[|ss| - 1])
  }

  /** Whether two settings call the same setter. */
  predicate SameSetter(s: Setting, t: Setting)
  {
    (s.Channel? && t.Channel?) || (s.IgnoreSelf? && t.IgnoreSelf?) || (s.LocalId? && t.LocalId?)
  }

  /** Each setter is idempotent: calling it twice with one value is calling it once. */
  lemma SetterIdempotent(o: WatcherOptions, s: Setting)
    ensures Apply(Apply(o, s), s) == Apply(o, s)
  {
  }

  lemma {:induction false} ChainAppend(o: WatcherOptions, xs: seq<Setting>, ys: seq<Setting>)
    ensures Chain(o, xs + ys) == Chain(Chain(o, xs), ys)
    decreases |ys|
  {
    if ys == [] {
      assert xs + ys == xs;
    } else {
      var n := |ys| - 1;
      assert (xs + ys)[..|xs + ys| - 1] == xs + ys[..n];
      ChainAppend(o, xs, ys[..n]);
    }
  }

  /** A setter commutes with any chain of the other setters. */
  lemma {:induction false} ApplyCommutes(o: WatcherOptions, s: Setting, ys: seq<Setting>)
    requires forall t :: t in ys ==> !SameSetter(s, t)
    ensures Chain(Apply(o, s), ys) == Apply(Chain(o, ys), s)
    decreases |ys|
  {
    if ys != [] {
      var n := |ys| - 1;
      assert ys[n] in ys;
      forall t | t in ys[..n] ensures !SameSetter(s, t) {
        assert t in ys;
      }
      ApplyCommutes(o, s, ys[..n]);
    }
  }

  /**
   * Order does not matter between different setters: a setting can be moved
   * past any run of settings that call other setters.
   */
  lemma ChainReorder(o: WatcherOptions, xs: seq<Setting>, s: Setting, ys: seq<Setting>)
    requires forall t :: t in ys ==> !SameSetter(s, t)
    ensures Chain(o, xs + [s] + ys) == Chain(o, xs + ys + [s])
  {
    ChainAppend(o, xs + [s], ys);
    ChainAppend(o, xs, [s]);
    assert Chain(Chain(o, xs), [s]) == Apply(Chain(o, xs), s) by {
      assert [s][..0] == [];
    }
    ApplyCommutes(Chain(o, xs), s, ys);
    ChainAppend(o, xs, ys);
    assert (xs + ys + [s])[..|xs + ys|] == xs + ys;
  }

  /** Chaining all three setters, in any of the six orders, yields exactly the given values. */
  lemma ChainAllThree(o: WatcherOptions, c: string, b: bool, id: string)
    ensures WithLocalId(WithIgnoreSelf(WithChannel(o, c), b), id) == WatcherOptions(c, b, id)
    ensures WithIgnoreSelf(WithLocalId(WithChannel(o, c), id), b) == WatcherOptions(c, b, id)
    ensures WithLocalId(WithChannel(WithIgnoreSelf(o, b), c), id) == WatcherOptions(c, b, id)
    ensures WithChannel(WithLocalId(WithIgnoreSelf(o, b), id), c) == WatcherOptions(c, b, id)
    ensures WithIgnoreSelf(WithChannel(WithLocalId(o, id), c), b) == WatcherOptions(c, b, id)
    ensures WithChannel(WithIgnoreSelf(WithLocalId(o, id), b), c) == WatcherOptions(c, b, id)
  {
  }
}
