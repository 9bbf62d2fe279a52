/**
 * The watcher's message envelope (src/watcher.rs, `UpdateType` and `Message`)
 * and its JSON wire form.
 *
 * The envelope is written as a JSON object whose keys are the PascalCase field
 * names, with `id` renamed to "ID". Empty strings and empty lists are left out
 * on the wire; "Method", "ID" and "FieldIndex" are always written. Decoding
 * follows the derived deserializer: "Method" and "ID" are required, every other
 * field defaults to empty (or 0), unknown keys are ignored, a repeated known key
 * is an error, and a value of the wrong JSON type is an error.
 */
module Messages {
  import opened Wrappers
  import opened Json

  /** The source's `field_index` is a 32-bit signed integer. */
  newtype int32 = x: int | -0x8000_0000 <= x < 0x8000_0000

  /** The nine kinds of policy change a message can announce. */
  datatype UpdateType =
    | Update
    | UpdateForAddPolicy
    | UpdateForRemovePolicy
    | UpdateForRemoveFilteredPolicy
    | UpdateForSavePolicy
    | UpdateForAddPolicies
    | UpdateForRemovePolicies
    | UpdateForUpdatePolicy
    | UpdateForUpdatePolicies

  /**
   * The display text of a tag: its variant name. The wire uses the same text,
   * since renaming PascalCase variants to PascalCase leaves them as they are.
   */
  function Display(t: UpdateType): string
  {
    match t
    case Update => "Update"
    case UpdateForAddPolicy => "UpdateForAddPolicy"
    case UpdateForRemovePolicy => "UpdateForRemovePolicy"
    case UpdateForRemoveFilteredPolicy => "UpdateForRemoveFilteredPolicy"
    case UpdateForSavePolicy => "UpdateForSavePolicy"
    case UpdateForAddPolicies => "UpdateForAddPolicies"
    case UpdateForRemovePolicies => "UpdateForRemovePolicies"
    case UpdateForUpdatePolicy => "UpdateForUpdatePolicy"
    case UpdateForUpdatePolicies => "UpdateForUpdatePolicies"
  }

  /** Reads a tag from its wire text; any other text is not a variant. */
  function ParseTag(s: string): Option<UpdateType>
  {
    if s == "Update" then Some(Update)
    else if s == "UpdateForAddPolicy" then Some(UpdateForAddPolicy)
    else if s == "UpdateForRemovePolicy" then Some(UpdateForRemovePolicy)
    else if s == "UpdateForRemoveFilteredPolicy" then Some(UpdateForRemoveFilteredPolicy)
    else if s == "UpdateForSavePolicy" then Some(UpdateForSavePolicy)
    else if s == "UpdateForAddPolicies" then Some(UpdateForAddPolicies)
    else if s == "UpdateForRemovePolicies" then Some(UpdateForRemovePolicies)
    else if s == "UpdateForUpdatePolicy" then Some(UpdateForUpdatePolicy)
    else if s == "UpdateForUpdatePolicies" then Some(UpdateForUpdatePolicies)
    else None
  }

  /** A tag is read back from exactly its display text. */
  lemma ParseTagInverse(s: string, t: UpdateType)
    ensures ParseTag(s) == Some(t) <==> s == Display(t)
  {
  }

  /** Distinct tags display as distinct strings. */
  lemma DisplayInjective(a: UpdateType, b: UpdateType)
    ensures Display(a) == Display(b) <==> a == b
  {
    ParseTagInverse(Display(a), a);
    ParseTagInverse(Display(a), b);
  }

  /** The envelope. The source's field `method` is called `kind` here (`method` is a Dafny keyword). */
  datatype Message = Message(
    kind: UpdateType,
    id: string,
    sec: string,
    ptype: string,
    oldRule: seq<string>,
    oldRules: seq<seq<string>>,
    newRule: seq<string>,
    newRules: seq<seq<string>>,
    fieldIndex: int32,
    fieldValues: seq<string>)

  /** The fields that are left off the wire when empty. */
  datatype OptionalField = Sec | Ptype | OldRule | OldRules | NewRule | NewRules | FieldValues

  const MethodKey := "Method"
  const IdKey := "ID"
  const FieldIndexKey := "FieldIndex"

  /** The wire key of an optional field. */
  function Key(f: OptionalField): string
  {
    match f
    case Sec => "Sec"
    case Ptype => "Ptype"
    case OldRule => "OldRule"
    case OldRules => "OldRules"
    case NewRule => "NewRule"
    case NewRules => "NewRules"
    case FieldValues => "FieldValues"
  }

  /** The optional fields of `m` that hold something. */
  function Present(m: Message): set<OptionalField>
  {
    (if m.sec != "" then {Sec} else {})
    + (if m.ptype != "" then {Ptype} else {})
    + (if m.oldRule != [] then {OldRule} else {})
    + (if m.oldRules != [] then {OldRules} else {})
    + (if m.newRule != [] then {NewRule} else {})
    + (if m.newRules != [] then {NewRules} else {})
    + (if m.fieldValues != [] then {FieldValues} else {})
  }

  /** `Message::new`: the given tag and id, every other field empty and the index 0. */
  function New(kind: UpdateType, id: string): (m: Message)
    ensures m.kind == kind && m.id == id
    ensures Present(m) == {} && m.fieldIndex == 0
  {
    Message(kind, id, "", "", [], [], [], [], 0, [])
  }

  // ---------------------------------------------------------------------------
  // Encoding

  function StringsToJson(xs: seq<string>): JValue
  {
    JArray(seq(|xs|, i requires 0 <= i < |xs| => JString(xs[i])))
  }

  function RulesToJson(rs: seq<seq<string>>): JValue
  {
    JArray(seq(|rs|, i requires 0 <= i < |rs| => StringsToJson(rs[i])))
  }

  /**
   * The ten fields as candidate members, in declaration order: "Method", "ID"
   * and "FieldIndex" are always written, the others only when non-empty.
   */
  function Entries(m: Message): seq<Entry>
  {
    [ Entry(true, MethodKey, JString(Display(m.kind))),
      Entry(true, IdKey, JString(m.id)),
      Entry(m.sec != "", Key(Sec), JString(m.sec)),
      Entry(m.ptype != "", Key(Ptype), JString(m.ptype)),
      Entry(m.oldRule != [], Key(OldRule), StringsToJson(m.oldRule)),
      Entry(m.oldRules != [], Key(OldRules), RulesToJson(m.oldRules)),
      Entry(m.newRule != [], Key(NewRule), StringsToJson(m.newRule)),
      Entry(m.newRules != [], Key(NewRules), RulesToJson(m.newRules)),
      Entry(true, FieldIndexKey, JNumber(m.fieldIndex as int)),
      Entry(m.fieldValues != [], Key(FieldValues), StringsToJson(m.fieldValues)) ]
  }

  /** `to_json` / `marshal_binary`: the JSON object of a message. */
  function Encode(m: Message): JValue
  {
    JObject(Emit(Entries(m)))
  }

  /** The payload published for a message. */
  function ToJson(m: Message): Payload
  {
    Document(Encode(m))
  }

  // ---------------------------------------------------------------------------
  // Decoding

  /** Why a payload is not a message (the source's serialization error). */
  datatype DecodeError =
    | NotJsonText
    | InvalidType(field: string)
    | UnknownVariant(tag: string)
    | OutOfRange(field: string)
    | MissingField(field: string)
    | DuplicateField(field: string)
    | InvalidLength(length: nat)

  function AsKind(v: JValue): Result<UpdateType, DecodeError>
  {
    match v
    case JString(s) =>
      (match ParseTag(s)
       case Some(t) => Ok(t)
       case None => Err(UnknownVariant(s)))
    case _ => Err(InvalidType(MethodKey))
  }

  function AsString(v: JValue, field: string): Result<string, DecodeError>
  {
    match v
    case JString(s) => Ok(s)
    case _ => Err(InvalidType(field))
  }

  function ItemsAsStrings(items: seq<JValue>, field: string): Result<seq<string>, DecodeError>
  {
    if items == [] then Ok([])
    else
      var head :- AsString(items[0], field);
      var tail :- ItemsAsStrings(items[1..], field);
      Ok([head] + tail)
  }

  function AsStrings(v: JValue, field: string): Result<seq<string>, DecodeError>
  {
    match v
    case JArray(items) => ItemsAsStrings(items, field)
    case _ => Err(InvalidType(field))
  }

  function ItemsAsRules(items: seq<JValue>, field: string): Result<seq<seq<string>>, DecodeError>
  {
    if items == [] then Ok([])
    else
      var head :- AsStrings(items[0], field);
      var tail :- ItemsAsRules(items[1..], field);
      Ok([head] + tail)
  }

  function AsRules(v: JValue, field: string): Result<seq<seq<string>>, DecodeError>
  {
    match v
    case JArray(items) => ItemsAsRules(items, field)
    case _ => Err(InvalidType(field))
  }

  function AsInt32(v: JValue, field: string): Result<int32, DecodeError>
  {
    match v
    case JNumber(n) =>
      if -0x8000_0000 <= n < 0x8000_0000 then Ok(n as int32) else Err(OutOfRange(field))
    case _ => Err(InvalidType(field))
  }

  /** A field given or absent: absent takes the default value. */
  function StringOr(o: Option<JValue>, field: string): Result<string, DecodeError>
  {
    if o.None? then Ok("") else AsString(o.value, field)
  }

  function StringsOr(o: Option<JValue>, field: string): Result<seq<string>, DecodeError>
  {
    if o.None? then Ok([]) else AsStrings(o.value, field)
  }

  function RulesOr(o: Option<JValue>, field: string): Result<seq<seq<string>>, DecodeError>
  {
    if o.None? then Ok([]) else AsRules(o.value, field)
  }

  function IndexOr(o: Option<JValue>): Result<int32, DecodeError>
  {
    if o.None? then Ok(0) else AsInt32(o.value, FieldIndexKey)
  }

  /** Builds a message from the ten field slots, in declaration order. */
  function DecodeFields(
    tag: Option<JValue>, id: Option<JValue>, sec: Option<JValue>, ptype: Option<JValue>,
    oldRule: Option<JValue>, oldRules: Option<JValue>, newRule: Option<JValue>,
    newRules: Option<JValue>, fieldIndex: Option<JValue>, fieldValues: Option<JValue>)
    : Result<Message, DecodeError>
  {
    var kind' :- if tag.None? then Err(MissingField(MethodKey)) else AsKind(tag.value);
    var id' :- if id.None? then Err(MissingField(IdKey)) else AsString(id.value, IdKey);
    var sec' :- StringOr(sec, Key(Sec));
    var ptype' :- StringOr(ptype, Key(Ptype));
    var oldRule' :- StringsOr(oldRule, Key(OldRule));
    var oldRules' :- RulesOr(oldRules, Key(OldRules));
    var newRule' :- StringsOr(newRule, Key(NewRule));
    var newRules' :- RulesOr(newRules, Key(NewRules));
    var fieldIndex' :- IndexOr(fieldIndex);
    var fieldValues' :- StringsOr(fieldValues, Key(FieldValues));
    Ok(Message(kind', id', sec', ptype', oldRule', oldRules', newRule', newRules', fieldIndex', fieldValues'))
  }

  /** The value of a key in an object: absent, given once, or an error when repeated. */
  function Occurrence(members: seq<(string, JValue)>, key: string): Result<Option<JValue>, DecodeError>
  {
    var vs := Lookup(members, key);
    if |vs| == 0 then Ok(None)
    else if |vs| == 1 then Ok(Some(vs[0]))
    else Err(DuplicateField(key))
  }

  /** The object form: fields by key, in any order; unknown keys are ignored. */
  function DecodeObject(members: seq<(string, JValue)>): Result<Message, DecodeError>
  {
    DecodeOccurrences(
      Occurrence(members, MethodKey), Occurrence(members, IdKey),
      Occurrence(members, Key(Sec)), Occurrence(members, Key(Ptype)),
      Occurrence(members, Key(OldRule)), Occurrence(members, Key(OldRules)),
      Occurrence(members, Key(NewRule)), Occurrence(members, Key(NewRules)),
      Occurrence(members, FieldIndexKey), Occurrence(members, Key(FieldValues)))
  }

  /** Fails on the first repeated key, in field order, and decodes the fields otherwise. */
  function DecodeOccurrences(
    tag: Result<Option<JValue>, DecodeError>, id: Result<Option<JValue>, DecodeError>,
    sec: Result<Option<JValue>, DecodeError>, ptype: Result<Option<JValue>, DecodeError>,
    oldRule: Result<Option<JValue>, DecodeError>, oldRules: Result<Option<JValue>, DecodeError>,
    newRule: Result<Option<JValue>, DecodeError>, newRules: Result<Option<JValue>, DecodeError>,
    fieldIndex: Result<Option<JValue>, DecodeError>, fieldValues: Result<Option<JValue>, DecodeError>)
    : Result<Message, DecodeError>
  {
    var tag' :- tag;
    var id' :- id;
    var sec' :- sec;
    var ptype' :- ptype;
    var oldRule' :- oldRule;
    var oldRules' :- oldRules;
    var newRule' :- newRule;
    var newRules' :- newRules;
    var fieldIndex' :- fieldIndex;
    var fieldValues' :- fieldValues;
    DecodeFields(tag', id', sec', ptype', oldRule', oldRules', newRule', newRules', fieldIndex', fieldValues')
  }

  function At(items: seq<JValue>, i: nat): Option<JValue>
  {
    if i < |items| then Some(items[i]) else None
  }

  /**
   * The array form, which the derived deserializer also accepts: fields by
   * position; the two required ones must be there, the rest may be cut off,
   * and more than ten elements is an error.
   */
  function DecodePositional(items: seq<JValue>): Result<Message, DecodeError>
  {
    if |items| < 2 || |items| > 10 then Err(InvalidLength(|items|))
    else DecodeFields(At(items, 0), At(items, 1), At(items, 2), At(items, 3), At(items, 4),
                      At(items, 5), At(items, 6), At(items, 7), At(items, 8), At(items, 9))
  }

  function Decode(j: JValue): Result<Message, DecodeError>
  {
    match j
    case JObject(members) => DecodeObject(members)
    case JArray(items) => DecodePositional(items)
    case _ => Err(InvalidType("Message"))
  }

  /** `from_json` / `unmarshal_binary`: text that is not JSON is a serialization error. */
  function FromJson(p: Payload): Result<Message, DecodeError>
  {
    match p
    case Document(doc) => Decode(doc)
    case NotJson(_) => Err(NotJsonText)
  }

  // ---------------------------------------------------------------------------
  // Properties of the wire form

  lemma {:induction false} StringsRoundTrip(xs: seq<string>, field: string)
    ensures AsStrings(StringsToJson(xs), field) == Ok(xs)
    decreases |xs|
  {
    var items := StringsToJson(xs).items;
    if xs != [] {
      assert items[1..] == StringsToJson(xs[1..]).items;
      StringsRoundTrip(xs[1..], field);
      assert [xs[0]] + xs[1..] == xs;
    }
  }

  lemma {:induction false} RulesRoundTrip(rs: seq<seq<string>>, field: string)
    ensures AsRules(RulesToJson(rs), field) == Ok(rs)
    decreases |rs|
  {
    var items := RulesToJson(rs).items;
    if rs != [] {
      assert items[1..] == RulesToJson(rs[1..]).items;
      StringsRoundTrip(rs[0], field);
      RulesRoundTrip(rs[1..], field);
      assert [rs[0]] + rs[1..] == rs;
    }
  }

  /** The ten wire keys are pairwise distinct. */
  lemma EntryKeysDistinct(m: Message)
    ensures forall i, j :: 0 <= i < |Entries(m)| && 0 <= j < |Entries(m)| && i != j ==>
      Entries(m)[i].key != Entries(m)[j].key
  {
  }

  /** Slot `i` of the ten fields in an encoded message: its value, or nothing when omitted. */
  function Slot(m: Message, i: nat): Option<JValue>
    requires i < 10
  {
    var e := Entries(m)[i];
    if e.written then Some(e.value) else None
  }

  /** Each known key occurs in an encoded message at most once, holding its field. */
  lemma {:induction false} OccurrenceInEncode(m: Message, i: nat)
    requires i < 10
    ensures Occurrence(Encode(m).members, Entries(m)[i].key) == Ok(Slot(m, i))
  {
    EntryKeysDistinct(m);
    LookupEmit(Entries(m), i);
  }

  /** The required slots of an encoding hold the tag's name and the id. */
  lemma DecodeRequiredSlots(m: Message)
    ensures Slot(m, 0) == Some(JString(Display(m.kind)))
    ensures Slot(m, 1) == Some(JString(m.id))
    ensures Slot(m, 8) == Some(JNumber(m.fieldIndex as int))
  {
  }

  /** The optional text slots of an encoding decode to their fields, an omitted one to the empty default. */
  lemma DecodeTextSlots(m: Message)
    ensures StringOr(Slot(m, 2), Key(Sec)) == Ok(m.sec)
    ensures StringOr(Slot(m, 3), Key(Ptype)) == Ok(m.ptype)
  {
  }

  /** The optional list slots of an encoding decode to their fields, an omitted one to the empty default. */
  lemma {:induction false} DecodeListSlots(m: Message)
    ensures StringsOr(Slot(m, 4), Key(OldRule)) == Ok(m.oldRule)
    ensures RulesOr(Slot(m, 5), Key(OldRules)) == Ok(m.oldRules)
    ensures StringsOr(Slot(m, 6), Key(NewRule)) == Ok(m.newRule)
    ensures RulesOr(Slot(m, 7), Key(NewRules)) == Ok(m.newRules)
    ensures StringsOr(Slot(m, 9), Key(FieldValues)) == Ok(m.fieldValues)
  {
    StringsRoundTrip(m.oldRule, Key(OldRule));
    RulesRoundTrip(m.oldRules, Key(OldRules));
    StringsRoundTrip(m.newRule, Key(NewRule));
    RulesRoundTrip(m.newRules, Key(NewRules));
    StringsRoundTrip(m.fieldValues, Key(FieldValues));
  }

  /** Ten slots that each decode to the corresponding field of `m` decode to `m`. */
  lemma DecodeFieldsOk(
    m: Message, tag: Option<JValue>, id: Option<JValue>, sec: Option<JValue>, ptype: Option<JValue>,
    oldRule: Option<JValue>, oldRules: Option<JValue>, newRule: Option<JValue>,
    newRules: Option<JValue>, fieldIndex: Option<JValue>, fieldValues: Option<JValue>)
    requires tag == Some(JString(Display(m.kind))) && id == Some(JString(m.id))
    requires fieldIndex == Some(JNumber(m.fieldIndex as int))
    requires StringOr(sec, Key(Sec)) == Ok(m.sec) && StringOr(ptype, Key(Ptype)) == Ok(m.ptype)
    requires StringsOr(oldRule, Key(OldRule)) == Ok(m.oldRule) && RulesOr(oldRules, Key(OldRules)) == Ok(m.oldRules)
    requires StringsOr(newRule, Key(NewRule)) == Ok(m.newRule) && RulesOr(newRules, Key(NewRules)) == Ok(m.newRules)
    requires StringsOr(fieldValues, Key(FieldValues)) == Ok(m.fieldValues)
    ensures DecodeFields(tag, id, sec, ptype, oldRule, oldRules, newRule, newRules, fieldIndex, fieldValues) == Ok(m)
  {
    ParseTagInverse(Display(m.kind), m.kind);
  }

  /** Decoding the slots an encoding wrote gives the message back. */
  lemma {:induction false} DecodeSlots(m: Message)
    ensures DecodeFields(Slot(m, 0), Slot(m, 1), Slot(m, 2), Slot(m, 3), Slot(m, 4),
                         Slot(m, 5), Slot(m, 6), Slot(m, 7), Slot(m, 8), Slot(m, 9)) == Ok(m)
  {
    DecodeRequiredSlots(m);
    DecodeTextSlots(m);
    DecodeListSlots(m);
    DecodeFieldsOk(m, Slot(m, 0), Slot(m, 1), Slot(m, 2), Slot(m, 3), Slot(m, 4),
                   Slot(m, 5), Slot(m, 6), Slot(m, 7), Slot(m, 8), Slot(m, 9));
  }

  /** The round trip: decoding the payload of a message gives back that message, empty fields included. */
  lemma {:induction false} RoundTrip(m: Message)
    ensures FromJson(ToJson(m)) == Ok(m)
  {
    forall i: nat | i < 10
      ensures Occurrence(Encode(m).members, Entries(m)[i].key) == Ok(Slot(m, i))
    {
      OccurrenceInEncode(m, i);
    }
    DecodeSlots(m);
  }

  /** The wire keys of the ten fields, in declaration order. */
  const FieldKeys: seq<string> :=
    [ MethodKey, IdKey, Key(Sec), Key(Ptype), Key(OldRule), Key(OldRules),
      Key(NewRule), Key(NewRules), FieldIndexKey, Key(FieldValues) ]

  /** An entry's key is in the encoded object exactly when the entry is written. */
  lemma KeyWritten(m: Message, i: nat)
    requires i < 10
    ensures Entries(m)[i].key in Keys(Encode(m).members) <==> Entries(m)[i].written
  {
    var es := Entries(m);
    EntryKeysDistinct(m);
    KeysEmit(es, es[i].key);
  }

  /** "Method", "ID" and "FieldIndex" are always written. */
  lemma EncodeWritesRequired(m: Message)
    ensures MethodKey in Keys(Encode(m).members)
    ensures IdKey in Keys(Encode(m).members)
    ensures FieldIndexKey in Keys(Encode(m).members)
  {
    KeyWritten(m, 0);
    KeyWritten(m, 1);
    KeyWritten(m, 8);
  }

  /** The position of an optional field among the ten. */
  function Position(f: OptionalField): (i: nat)
    ensures 2 <= i < 10 && i != 8
  {
    match f
    case Sec => 2
    case Ptype => 3
    case OldRule => 4
    case OldRules => 5
    case NewRule => 6
    case NewRules => 7
    case FieldValues => 9
  }

  /** Which optional fields are present, one by one. */
  lemma PresentFields(m: Message)
    ensures Sec in Present(m) <==> m.sec != ""
    ensures Ptype in Present(m) <==> m.ptype != ""
    ensures OldRule in Present(m) <==> m.oldRule != []
    ensures OldRules in Present(m) <==> m.oldRules != []
    ensures NewRule in Present(m) <==> m.newRule != []
    ensures NewRules in Present(m) <==> m.newRules != []
    ensures FieldValues in Present(m) <==> m.fieldValues != []
  {
  }

  /** The entry at an optional field's position carries its key and is written exactly when the field holds something. */
  lemma EntryOfField(m: Message, f: OptionalField)
    ensures Entries(m)[Position(f)].key == Key(f)
    ensures Entries(m)[Position(f)].written <==> f in Present(m)
  {
    PresentFields(m);
    var e := Entries(m)[Position(f)];
    match f
    case Sec => assert e.written == (m.sec != "");
    case Ptype => assert e.written == (m.ptype != "");
    case OldRule => assert e.written == (m.oldRule != []);
    case OldRules => assert e.written == (m.oldRules != []);
    case NewRule => assert e.written == (m.newRule != []);
    case NewRules => assert e.written == (m.newRules != []);
    case FieldValues => assert e.written == (m.fieldValues != []);
  }

  /** Every optional key is written exactly when its field is non-empty. */
  lemma EncodeOmitsEmpty(m: Message, f: OptionalField)
    ensures Key(f) in Keys(Encode(m).members) <==> f in Present(m)
  {
    EntryOfField(m, f);
    KeyWritten(m, Position(f));
  }

  /** No key outside the ten field keys is written. */
  lemma EncodeWritesOnlyFieldKeys(m: Message, k: string)
    requires k in Keys(Encode(m).members)
    ensures k in FieldKeys
  {
    var es := Entries(m);
    KeysEmit(es, k);
    var j :| 0 <= j < |es| && es[j].written && es[j].key == k;
    assert FieldKeys[j] == k;
  }

  /** "Method" and "ID" are required: an object without either is not a message. */
  lemma DecodeRequiresMethodAndId(members: seq<(string, JValue)>)
    ensures DecodeObject(members).Ok? ==> MethodKey in Keys(members) && IdKey in Keys(members)
  {
    LookupKeys(members, MethodKey);
    LookupKeys(members, IdKey);
  }

  /** A member whose key is not a field key is ignored by the decoder, wherever it stands. */
  lemma DecodeIgnoresUnknownKey(xs: seq<(string, JValue)>, ys: seq<(string, JValue)>, k: string, v: JValue)
    requires k !in FieldKeys
    ensures DecodeObject(xs + [(k, v)] + ys) == DecodeObject(xs + ys)
  {
    LookupSkipsOther(xs, ys, k, v, MethodKey);
    LookupSkipsOther(xs, ys, k, v, IdKey);
    LookupSkipsOther(xs, ys, k, v, Key(Sec));
    LookupSkipsOther(xs, ys, k, v, Key(Ptype));
    LookupSkipsOther(xs, ys, k, v, Key(OldRule));
    LookupSkipsOther(xs, ys, k, v, Key(OldRules));
    LookupSkipsOther(xs, ys, k, v, Key(NewRule));
    LookupSkipsOther(xs, ys, k, v, Key(NewRules));
    LookupSkipsOther(xs, ys, k, v, FieldIndexKey);
    LookupSkipsOther(xs, ys, k, v, Key(FieldValues));
  }

  /** A failure in any one slot is a failure of the whole object. */
  lemma OccurrencesFail(
    tag: Result<Option<JValue>, DecodeError>, id: Result<Option<JValue>, DecodeError>,
    sec: Result<Option<JValue>, DecodeError>, ptype: Result<Option<JValue>, DecodeError>,
    oldRule: Result<Option<JValue>, DecodeError>, oldRules: Result<Option<JValue>, DecodeError>,
    newRule: Result<Option<JValue>, DecodeError>, newRules: Result<Option<JValue>, DecodeError>,
    fieldIndex: Result<Option<JValue>, DecodeError>, fieldValues: Result<Option<JValue>, DecodeError>)
    requires tag.Err? || id.Err? || sec.Err? || ptype.Err? || oldRule.Err? || oldRules.Err?
      || newRule.Err? || newRules.Err? || fieldIndex.Err? || fieldValues.Err?
    ensures DecodeOccurrences(tag, id, sec, ptype, oldRule, oldRules, newRule, newRules, fieldIndex, fieldValues).Err?
  {
  }

  /** A field key given twice makes the object undecodable. */
  lemma DecodeRejectsRepeatedKey(members: seq<(string, JValue)>, k: string)
    requires k in FieldKeys
    requires |Lookup(members, k)| >= 2
    ensures DecodeObject(members).Err?
  {
    assert Occurrence(members, k).Err?;
    OccurrencesFail(
      Occurrence(members, MethodKey), Occurrence(members, IdKey),
      Occurrence(members, Key(Sec)), Occurrence(members, Key(Ptype)),
      Occurrence(members, Key(OldRule)), Occurrence(members, Key(OldRules)),
      Occurrence(members, Key(NewRule)), Occurrence(members, Key(NewRules)),
      Occurrence(members, FieldIndexKey), Occurrence(members, Key(FieldValues)));
  }
}
