/**
 * The abstract JSON documents (RFC 8259) that carry watcher messages, and the
 * payloads that travel on the pub/sub channel.
 *
 * An object is kept as its ordered list of members, as it appears in JSON text:
 * keys may repeat there, and a decoder has to say what it does with a repeat.
 */
module Json {

  datatype JValue =
    | JNull
    | JBool(b: bool)
    | JNumber(n: int)
    | JString(s: string)
    | JArray(items: seq<JValue>)
    | JObject(members: seq<(string, JValue)>)

  /**
   * A pub/sub payload. JSON text is represented by the document it denotes;
   * `NotJson` stands for a payload whose text is not a JSON document at all
   * (the close sentinel, or garbage).
   */
  datatype Payload = Document(doc: JValue) | NotJson(text: string)

  /** The values bound to `key` in `members`, in order of appearance. */
  function Lookup(members: seq<(string, JValue)>, key: string): seq<JValue>
  {
    if members == [] then []
    else
      var rest := Lookup(members[..|members| - 1], key);
      var (k, v) := members[|members| - 1];
      if k == key then rest + [v] else rest
  }

  /** Looking a key up in a concatenation looks it up in each part. */
  lemma {:induction false} LookupAppend(xs: seq<(string, JValue)>, ys: seq<(string, JValue)>, key: string)
    ensures Lookup(xs + ys, key) == Lookup(xs, key) + Lookup(ys, key)
    decreases |ys|
  {
    if ys == [] {
      assert xs + ys == xs;
    } else {
      var n := |ys| - 1;
      assert (xs + ys)[..|xs + ys| - 1] == xs + ys[..n];
      assert (xs + ys)[|xs + ys| - 1] == ys[n];
      LookupAppend(xs, ys[..n], key);
    }
  }

  /** The set of keys an object's members use. */
  function Keys(members: seq<(string, JValue)>): (ks: set<string>)
    ensures forall k :: k in ks <==> exists i :: 0 <= i < |members| && members[i].0 == k
  {
    set i | 0 <= i < |members| :: members[i].0
  }

  /**
   * A candidate member of an object: a field that is written under `key`
   * when `written` holds and skipped otherwise.
   */
  datatype Entry = Entry(written: bool, key: string, value: JValue)

  /** The members an object gets from its candidate entries, in order. */
  function Emit(es: seq<Entry>): seq<(string, JValue)>
  {
    if es == [] then []
    else
      var e := es[|es| - 1];
      Emit(es[..|es| - 1]) + (if e.written then [(e.key, e.value)] else [])
  }

  /** A key no entry uses is not bound in the emitted object. */
  lemma {:induction false} LookupEmitAbsent(es: seq<Entry>, k: string)
    requires forall j :: 0 <= j < |es| ==> es[j].key != k
    ensures Lookup(Emit(es), k) == []
    decreases |es|
  {
    if es != [] {
      var e := es[|es| - 1];
      var tail := if e.written then [(e.key, e.value)] else [];
      LookupAppend(Emit(es[..|es| - 1]), tail, k);
      LookupEmitAbsent(es[..|es| - 1], k);
      if e.written {
        assert tail[..0] == [];
      }
    }
  }

  /** When keys are distinct, an entry's key is bound to its value exactly when it is written. */
  lemma {:induction false} LookupEmit(es: seq<Entry>, i: nat)
    requires i < |es|
    requires forall j :: 0 <= j < |es| && j != i ==> es[j].key != es[i].key
    ensures Lookup(Emit(es), es[i].key) == if es[i].written then [es[i].value] else []
    decreases |es|
  {
    var n := |es| - 1;
    var e := es[n];
    var k := es[i].key;
    var tail := if e.written then [(e.key, e.value)] else [];
    assert Emit(es) == Emit(es[..n]) + tail;
    LookupAppend(Emit(es[..n]), tail, k);
    if e.written {
      assert tail[..0] == [];
    }
    assert Lookup(tail, k) == if e.written && e.key == k then [e.value] else [];
    if i == n {
      LookupEmitAbsent(es[..n], k);
    } else {
      assert es[..n][i] == es[i];
      LookupEmit(es[..n], i);
    }
  }

  /** The keys of two concatenated member lists are the keys of each. */
  lemma KeysAppend(front: seq<(string, JValue)>, tail: seq<(string, JValue)>)
    ensures Keys(front + tail) == Keys(front) + Keys(tail)
  {
    forall x ensures x in Keys(front + tail) <==> x in Keys(front) + Keys(tail) {
      if x in Keys(front + tail) {
        var i :| 0 <= i < |front + tail| && (front + tail)[i].0 == x;
        if i >= |front| {
          assert tail[i - |front|].0 == x;
        }
      }
      if x in Keys(front) {
        var i :| 0 <= i < |front| && front[i].0 == x;
        assert (front + tail)[i].0 == x;
      }
      if x in Keys(tail) {
        var i :| 0 <= i < |tail| && tail[i].0 == x;
        assert (front + tail)[|front| + i].0 == x;
      }
    }
  }

  /** The keys of an emitted object are the keys of the written entries. */
  lemma {:induction false} KeysEmit(es: seq<Entry>, k: string)
    ensures k in Keys(Emit(es)) <==> exists j :: 0 <= j < |es| && es[j].written && es[j].key == k
    decreases |es|
  {
    if es != [] {
      var n := |es| - 1;
      var e := es[n];
      var front := Emit(es[..n]);
      var tail := if e.written then [(e.key, e.value)] else [];
      assert Emit(es) == front + tail;
      KeysEmit(es[..n], k);
      KeysAppend(front, tail);
      if exists j :: 0 <= j < |es| && es[j].written && es[j].key == k {
        var j :| 0 <= j < |es| && es[j].written && es[j].key == k;
        if j < n {
          assert es[..n][j] == es[j];
        } else {
          assert tail[0].0 == k;
        }
      }
      if k in Keys(tail) {
        assert e.written && e.key == k;
      }
      if exists j :: 0 <= j < n && es[..n][j].written && es[..n][j].key == k {
        var j :| 0 <= j < n && es[..n][j].written && es[..n][j].key == k;
        assert es[j] == es[..n][j];
      }
    }
  }

  /** A key is bound to some value exactly when some member uses it. */
  lemma {:induction false} LookupKeys(members: seq<(string, JValue)>, k: string)
    ensures Lookup(members, k) != [] <==> k in Keys(members)
    decreases |members|
  {
    if members != [] {
      var n := |members| - 1;
      LookupKeys(members[..n], k);
      if k in Keys(members[..n]) {
        var i :| 0 <= i < n && members[..n][i].0 == k;
        assert members[i].0 == k;
      }
      if k in Keys(members) && members[n].0 != k {
        var i :| 0 <= i < |members| && members[i].0 == k;
        assert members[..n][i].0 == k;
      }
    }
  }

  /** A member under another key does not change what a key is bound to, wherever it stands. */
  lemma LookupSkipsOther(xs: seq<(string, JValue)>, ys: seq<(string, JValue)>, other: string, v: JValue, k: string)
    requires other != k
    ensures Lookup(xs + [(other, v)] + ys, k) == Lookup(xs + ys, k)
  {
    LookupAppend(xs + [(other, v)], ys, k);
    LookupAppend(xs, [(other, v)], k);
    LookupAppend(xs, ys, k);
    assert [(other, v)][..0] == [];
  }
}
