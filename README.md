# Redis watcher for Casbin, modelled in Dafny

The watcher keeps several Casbin enforcers in step through a Redis pub/sub
channel. When one instance changes its policy, it publishes a `Message` on the
channel. The message carries an `UpdateType` tag, the publisher's instance id
and the rules touched. Every subscribed instance decodes the payload and hands
it to its update callback. An instance can ignore its own messages. Closing an
instance publishes the text `Close`, which ends the subscriptions that hear it.

The model covers four parts:

- **The wire protocol** (`Messages`, `Json`). There are nine update tags and
  the ten-field envelope. Encoding produces a JSON object: PascalCase keys,
  `"ID"` for the id, empty strings and lists left out, and `FieldIndex` always
  written. Decoding follows the derived deserializer:
  - omitted fields take their defaults, but `Method` and `ID` are required;
  - unknown keys are ignored, even when repeated, and a repeated field key is an error;
  - a value of the wrong type, or a `FieldIndex` outside the 32-bit range, is an error;
  - the positional array form of the struct is also accepted.

  A JSON object is an ordered list of members, as it is in JSON text. A
  payload is either a JSON document or some text that is not JSON, like the
  close sentinel.
- **The nine message builders** (`Builders`): the message each `update*`
  operation publishes.
- **The watcher** (`Watcher.RedisWatcher`). It is a class whose fields are:
  - the closed flag and the callback slot;
  - whether a subscription task runs;
  - the log of payloads it published and the log of callback calls.

  `Listen` is the subscription loop over a sequence of received payloads.
  `ListenCluster` is the cluster variant over a sequence of pushes. Both are
  proved against a reference definition in `Subscription`: the wanted payloads
  before the first sentinel. The properties are proved about that definition.
  A sentinel from any instance on the channel ends the subscription of every
  instance that hears it (`Subscription.CloseCutsOff`).
- **The options** (`Options`): channel, ignore-self flag and local id, with
  their defaults and value-returning setters.

## Model

| member | source | states |
|---|---|---|
| Messages.Display | src/watcher.rs:72-86 | the display text of each tag is its variant name |
| Messages.ParseTag | src/watcher.rs:57-70 | the derived deserializer of the tag: a variant name gives that tag, any other text nothing |
| Messages.Encode | src/watcher.rs:88-111 | the JSON object of a message: `Method`, `ID`, `FieldIndex` always, each other field under its PascalCase key when non-empty, in declaration order |
| Messages.ToJson | src/watcher.rs:129-139 | `to_json` and `marshal_binary`: the payload of a message is its encoded JSON document |
| Messages.DecodeObject | src/watcher.rs:88-111 | the derived deserializer on an object: a repeated field key fails, `Method` and `ID` must be present, other fields default, unknown keys are skipped |
| Messages.DecodePositional | src/watcher.rs:88-111 | the derived deserializer on an array: fields by position, at least the two required ones and at most ten |
| Messages.Decode | src/watcher.rs:141-143 | a JSON value is a message only as an object or an array |
| Messages.FromJson | src/watcher.rs:133-143 | `from_json` and `unmarshal_binary`: text that is not JSON is an error, a document is decoded |
| Messages.DisplayInjective | src/watcher.rs:72-86 | two tags have the same display text exactly when they are the same tag |
| Messages.ParseTagInverse | src/watcher.rs:59-70 | a tag on the wire is read back as `t` exactly when the text is `t`'s variant name |
| Messages.New | src/watcher.rs:114-127 | `new` keeps the given tag and id; every optional field is empty and the index is 0 |
| Messages.RoundTrip | src/watcher.rs:137-143 | decoding the encoding of any message gives back that message, including the fields restored from their absence |
| Messages.StringsRoundTrip | src/watcher.rs:99-100 | a list of strings is read back from its JSON array |
| Messages.RulesRoundTrip | src/watcher.rs:101-102 | a list of rules is read back from its JSON array of arrays |
| Messages.EncodeWritesRequired | src/watcher.rs:92-108 | `Method`, `ID` and `FieldIndex` are always written |
| Messages.EncodeOmitsEmpty | src/watcher.rs:95-110 | each optional key is written exactly when its field is non-empty |
| Messages.EncodeWritesOnlyFieldKeys | src/watcher.rs:88-111 | an encoded message has no key besides the ten field keys |
| Messages.EntryKeysDistinct | src/watcher.rs:88-111 | the ten wire keys are pairwise distinct |
| Messages.KeyWritten | src/watcher.rs:95-110 | a field's key appears in the encoding exactly when that field is written |
| Messages.OccurrenceInEncode | src/watcher.rs:137-143 | each field key occurs at most once in an encoding and holds that field's value |
| Messages.DecodeSlots | src/watcher.rs:141-143 | decoding the values an encoding wrote, with defaults for the omitted ones, gives the message |
| Messages.DecodeRequiresMethodAndId | src/watcher.rs:92-94 | a decoded object had both a `Method` and an `ID` member |
| Messages.DecodeIgnoresUnknownKey | src/watcher.rs:141-143 | inserting a member with an unknown key anywhere does not change the decoding result |
| Messages.DecodeRejectsRepeatedKey | src/watcher.rs:141-143 | an object that repeats a field key fails to decode |
| Json.LookupEmit | src/watcher.rs:88-111 | with distinct keys, a key maps to its entry's value if the entry is written and to nothing otherwise |
| Json.KeysEmit | src/watcher.rs:95-110 | a key is in the emitted object exactly when some written entry has it |
| Json.LookupKeys | src/watcher.rs:141-143 | a key has a member exactly when it is in the key set |
| Json.LookupSkipsOther | src/watcher.rs:141-143 | a member with another key does not change what a key looks up to |
| Builders.ForUpdate | src/watcher.rs:600-603 | tag `Update`, the local id, every other field default |
| Builders.ForAddPolicy | src/watcher.rs:605-619 | tag `UpdateForAddPolicy`, the local id, sec, ptype, `NewRule` = params, nothing else set |
| Builders.ForRemovePolicy | src/watcher.rs:621-635 | tag `UpdateForRemovePolicy`, the local id, sec, ptype, `NewRule` = params, nothing else set |
| Builders.ForRemoveFilteredPolicy | src/watcher.rs:637-653 | tag `UpdateForRemoveFilteredPolicy`; only sec, ptype, the index and the field values are set |
| Builders.ForSavePolicy | src/watcher.rs:655-661 | tag `UpdateForSavePolicy`, the local id, every other field default |
| Builders.ForAddPolicies | src/watcher.rs:663-677 | tag `UpdateForAddPolicies`; only sec, ptype and `NewRules` are set |
| Builders.ForRemovePolicies | src/watcher.rs:679-693 | tag `UpdateForRemovePolicies`; only sec, ptype and `NewRules` are set |
| Builders.ForUpdatePolicy | src/watcher.rs:695-711 | tag `UpdateForUpdatePolicy`; only sec, ptype, `OldRule` and `NewRule` are set |
| Builders.ForUpdatePolicies | src/watcher.rs:713-729 | tag `UpdateForUpdatePolicies`; only sec, ptype, `OldRules` and `NewRules` are set |
| Builders.AddPolicyOnTheWire | src/watcher.rs:605-619 | a peer decodes an add-policy notice as that tag, the publisher's id and the rule; only `Sec`, `Ptype` and `NewRule` can be among its optional keys |
| Options.Default | src/options.rs:31-39 | channel `/casbin`, `ignore_self` false, the fresh id |
| Options.New | src/options.rs:43-45 | the same channel and `ignore_self` as `default` |
| Options.WithChannel | src/options.rs:48-51 | sets the channel, keeps the other two fields |
| Options.WithIgnoreSelf | src/options.rs:54-57 | sets `ignore_self`, keeps the other two fields |
| Options.WithLocalId | src/options.rs:60-63 | sets the local id, keeps the other two fields |
| Options.SetterIdempotent | src/options.rs:48-63 | applying a setter twice with the same value is applying it once |
| Options.ChainAppend | src/options.rs:48-63 | a chain of setters split in two is the second part applied to the first part's result |
| Options.ApplyCommutes | src/options.rs:48-63 | a setter commutes with a chain of setters for the other fields |
| Options.ChainReorder | src/options.rs:48-63 | a setter can be moved past later setters of other fields without changing the result |
| Options.ChainAllThree | src/watcher_test.rs:86-95 | chaining the three setters in any of the six orders gives exactly the three given values |
| Subscription.HaltIndex | src/watcher.rs:497-500 | the position of the first `Close` payload, or the length when there is none |
| Subscription.Wanted | src/watcher.rs:502-506 | a payload passes the filter when it decodes to a message that is not the instance's own while it ignores itself |
| Subscription.ClusterPayload | src/watcher.rs:550-552 | a cluster push yields a payload only when it is a channel message whose third element is a bulk string |
| Subscription.AcceptedStep | src/watcher.rs:484-513 | one more received item adds its payload to the accepted ones exactly when it passes the filter |
| Subscription.AcceptedAppend | src/watcher.rs:484-515 | the accepted payloads of a concatenation are those of each part, in order |
| Subscription.AcceptedIff | src/watcher.rs:502-513 | a payload is accepted exactly when it was received and passes the filter |
| Subscription.HaltIndexAppend | src/watcher.rs:497-500 | the first sentinel of a concatenation is in the first part if it has one, otherwise in the second |
| Subscription.CloseCutsOff | src/watcher.rs:497-500 | nothing after a `Close` payload is delivered, whatever follows it |
| Subscription.SkipsUnwanted | src/watcher.rs:489-513 | an unreadable, undecodable or ignored payload is skipped without ending the loop: removing it changes nothing delivered |
| Subscription.SkipsUnwantedPrefix | src/watcher.rs:489-513 | removing a payload that fails the filter leaves the accepted payloads unchanged |
| Subscription.NeverDeliversSelf | src/watcher.rs:502-506 | with `ignore_self`, every delivered payload is a message whose id is not the local id |
| Subscription.DeliversWanted | src/watcher.rs:502-508 | every payload before the first sentinel that passes the filter is delivered |
| Subscription.OwnMessageFiltered | src/watcher.rs:502-506 | an instance's own message passes its filter exactly when it does not ignore itself; any other instance's message passes |
| Subscription.OwnEchoesIgnored | src/watcher.rs:502-506 | an instance that ignores itself and hears only its own messages and sentinels delivers nothing |
| Subscription.ClusterItemsAppend | src/watcher.rs:544-551 | the payloads of concatenated pushes are those of each part, in order |
| Subscription.ClusterSkipsOtherPushes | src/watcher.rs:550-551 | a push that is not a channel message, or whose third element is not a bulk string, is passed over |
| Watcher.RedisWatcher.constructor | src/watcher.rs:332-352 | a new watcher is open, with no callback, no subscription and nothing sent |
| Watcher.RedisWatcher.PublishMessage | src/watcher.rs:391-411 | once closed, it fails with `AlreadyClosed` and sends nothing; otherwise it sends the message's payload and nothing else changes; invariant: every published notice decodes and carries the watcher's own id |
| Watcher.RedisWatcher.StartSubscription | src/watcher.rs:414-469 | once closed, it fails with `AlreadyClosed`; otherwise the subscription runs |
| Watcher.RedisWatcher.SetUpdateCallback | src/watcher.rs:591-598 | the callback slot is overwritten even when closed; then the subscription is started as `StartSubscription` does |
| Watcher.RedisWatcher.Update | src/watcher.rs:600-603 | publishes the `Update` notice, or fails with `AlreadyClosed` and sends nothing |
| Watcher.RedisWatcher.UpdateForAddPolicy | src/watcher.rs:605-619 | publishes the add-policy notice, or fails with `AlreadyClosed` and sends nothing |
| Watcher.RedisWatcher.UpdateForRemovePolicy | src/watcher.rs:621-635 | publishes the remove-policy notice, or fails with `AlreadyClosed` and sends nothing |
| Watcher.RedisWatcher.UpdateForRemoveFilteredPolicy | src/watcher.rs:637-653 | publishes the remove-filtered-policy notice, or fails with `AlreadyClosed` and sends nothing |
| Watcher.RedisWatcher.UpdateForSavePolicy | src/watcher.rs:655-661 | publishes the save-policy notice, or fails with `AlreadyClosed` and sends nothing |
| Watcher.RedisWatcher.UpdateForAddPolicies | src/watcher.rs:663-677 | publishes the add-policies notice, or fails with `AlreadyClosed` and sends nothing |
| Watcher.RedisWatcher.UpdateForRemovePolicies | src/watcher.rs:679-693 | publishes the remove-policies notice, or fails with `AlreadyClosed` and sends nothing |
| Watcher.RedisWatcher.UpdateForUpdatePolicy | src/watcher.rs:695-711 | publishes the update-policy notice, or fails with `AlreadyClosed` and sends nothing |
| Watcher.RedisWatcher.UpdateForUpdatePolicies | src/watcher.rs:713-729 | publishes the update-policies notice, or fails with `AlreadyClosed` and sends nothing |
| Watcher.RedisWatcher.Close | src/watcher.rs:731-749 | sets the flag, publishes the `Close` sentinel (again, on a second call) and stops the subscription; afterwards every publish is refused and nothing is delivered |
| Watcher.RedisWatcher.HandleItem | src/watcher.rs:489-513 | one pass of the loop body: stops exactly on the `Close` sentinel; otherwise delivers the payload, unchanged, exactly when it passes the filter and a callback is set; keeps the class invariant |
| Watcher.RedisWatcher.ReceiveOne | src/watcher.rs:488-514 | one turn of the loop: stops exactly on the sentinel; otherwise the deliveries so far grow to the accepted payloads of one more item |
| Watcher.RedisWatcher.Receive | src/watcher.rs:484-515 | the loop of a running subscription: delivers exactly the wanted payloads before the first sentinel and reports whether it met one |
| Watcher.RedisWatcher.Listen | src/watcher.rs:471-518 | delivers exactly the wanted payloads before the first sentinel to the callback, if one is set and the subscription runs, and stops the subscription at the sentinel; invariant: everything delivered passes the filter, and after a close only sentinels are published |
| Watcher.RedisWatcher.ListenCluster | src/watcher.rs:520-588 | the same, over only the pushes that carry a channel payload in their third element |

## Left out

- Redis connections, the `PING` check in the constructors, the actual publish and subscribe commands, and their errors. A publish appends to the `published` log. The errors a connection, or a missing client, can raise (`RedisConnection`, `Configuration`) are not modelled. So `Close` and the publishes never fail for those reasons.
- tokio tasks, `abort`, and the `RwLock`/`Mutex` around the flag, the callback slot and the task handle. The watcher is one sequential object. A running subscription task is the `listening` flag. Callbacks and payloads arrive only between operations.
- Watcher.RedisWatcher.PublishMessage: requires a message that carries the watcher's own id. The source's `publish_message` is private, and each of its nine callers builds its notice with `local_id`.
- Watcher.RedisWatcher.SetUpdateCallback: the source starts another subscription task on every call. The model has a single `listening` flag, so the duplicate deliveries of several tasks are not captured.
- Watcher.RedisWatcher.Listen: the loop's check of the closed flag at the top of each iteration is not a separate branch. A watcher that is listening is never closed (the class invariant), and the flag does not change during one call.
- Watcher.RedisWatcher.Listen: the end of the inbound stream is the end of the sequence. A stream that ends without a sentinel leaves `listening` set, while the source's task would finish.
- `default_update_callback`, which applies a notice to a Casbin enforcer through foreign calls in a spawned task. A callback is an opaque `Handler`, and each call is recorded as a `Delivery`.
- The random UUID in `WatcherOptions::default`. It is the parameter `freshId`.
- JSON text: lexing, escaping and number syntax. The model works on a JSON value. Serialization of this struct cannot fail, so `to_json` is total.
- `marshal_binary`/`unmarshal_binary` (src/watcher.rs:129-135) produce the same JSON as `to_json`/`from_json`, as bytes instead of a string. One encoder and one decoder serve both, so `Messages.RoundTrip` is also the binary round trip.
- `String::from_utf8_lossy` on cluster payloads, and the failure of `get_payload` on a standalone message. Both are folded into the inbound item: an unreadable standalone message is `None`, and a cluster payload is taken as the text it decodes to.
- The serde forms of a tag other than a plain string (e.g. the map form `{"Update": null}`), and which error serde reports when an object has several faults at once. The model reports one of them in a fixed order.
- Messages.DecodeRejectsRepeatedKey and Messages.DecodeRequiresMethodAndId state only that decoding fails or succeeds, not which `DecodeError` it gives.
- `update_for_remove_policy` puts the removed rule in `NewRule`, as the source does; `OldRule` stays empty.
