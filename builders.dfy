/**
 * The messages the watcher publishes for each kind of policy change
 * (src/watcher.rs, the `update*` methods). Each starts from `Message::new`
 * with this instance's id and fills a fixed set of fields; everything else
 * stays empty, so it is left off the wire.
 */
module Builders {
  import opened Json
  import opened Wrappers
  import opened Messages

  /** `update`: a bare notice that the policy changed. */
  function ForUpdate(localId: string): (m: Message)
    ensures m.kind == Update && m.id == localId
    ensures Present(m) == {} && m.fieldIndex == 0
  {
    New(Update, localId)
  }

  /** `update_for_add_policy`: the added rule travels in `new_rule`. */
  function ForAddPolicy(localId: string, sec: string, ptype: string, params: seq<string>): (m: Message)
    ensures m.kind == UpdateForAddPolicy && m.id == localId
    ensures m.sec == sec && m.ptype == ptype && m.newRule == params
    ensures Present(m) <= {Sec, Ptype, NewRule} && m.fieldIndex == 0
  {
    New(UpdateForAddPolicy, localId).(sec := sec, ptype := ptype, newRule := params)
  }

  /** `update_for_remove_policy`: the removed rule also travels in `new_rule`. */
  function ForRemovePolicy(localId: string, sec: string, ptype: string, params: seq<string>): (m: Message)
    ensures m.kind == UpdateForRemovePolicy && m.id == localId
    ensures m.sec == sec && m.ptype == ptype && m.newRule == params
    ensures Present(m) <= {Sec, Ptype, NewRule} && m.fieldIndex == 0
  {
    New(UpdateForRemovePolicy, localId).(sec := sec, ptype := ptype, newRule := params)
  }

  /** `update_for_remove_filtered_policy`: only the section, type and filter are filled. */
  function ForRemoveFilteredPolicy(
    localId: string, sec: string, ptype: string, fieldIndex: int32, fieldValues: seq<string>): (m: Message)
    ensures m.kind == UpdateForRemoveFilteredPolicy && m.id == localId
    ensures m.sec == sec && m.ptype == ptype
    ensures m.fieldIndex == fieldIndex && m.fieldValues == fieldValues
    ensures Present(m) <= {Sec, Ptype, FieldValues}
  {
    New(UpdateForRemoveFilteredPolicy, localId).(
      sec := sec, ptype := ptype, fieldIndex := fieldIndex, fieldValues := fieldValues)
  }

  /** `update_for_save_policy`: a bare notice, like `update`, under its own tag. */
  function ForSavePolicy(localId: string): (m: Message)
    ensures m.kind == UpdateForSavePolicy && m.id == localId
    ensures Present(m) == {} && m.fieldIndex == 0
  {
    New(UpdateForSavePolicy, localId)
  }

  /** `update_for_add_policies`: the added rules travel in `new_rules`. */
  function ForAddPolicies(localId: string, sec: string, ptype: string, rules: seq<seq<string>>): (m: Message)
    ensures m.kind == UpdateForAddPolicies && m.id == localId
    ensures m.sec == sec && m.ptype == ptype && m.newRules == rules
    ensures Present(m) <= {Sec, Ptype, NewRules} && m.fieldIndex == 0
  {
    New(UpdateForAddPolicies, localId).(sec := sec, ptype := ptype, newRules := rules)
  }

  /** `update_for_remove_policies`: the removed rules also travel in `new_rules`. */
  function ForRemovePolicies(localId: string, sec: string, ptype: string, rules: seq<seq<string>>): (m: Message)
    ensures m.kind == UpdateForRemovePolicies && m.id == localId
    ensures m.sec == sec && m.ptype == ptype && m.newRules == rules
    ensures Present(m) <= {Sec, Ptype, NewRules} && m.fieldIndex == 0
  {
    New(UpdateForRemovePolicies, localId).(sec := sec, ptype := ptype, newRules := rules)
  }

  /** `update_for_update_policy`: the old rule and its replacement. */
  function ForUpdatePolicy(
    localId: string, sec: string, ptype: string, oldRule: seq<string>, newRule: seq<string>): (m: Message)
    ensures m.kind == UpdateForUpdatePolicy && m.id == localId
    ensures m.sec == sec && m.ptype == ptype && m.oldRule == oldRule && m.newRule == newRule
    ensures Present(m) <= {Sec, Ptype, OldRule, NewRule} && m.fieldIndex == 0
  {
    New(UpdateForUpdatePolicy, localId).(sec := sec, ptype := ptype, oldRule := oldRule, newRule := newRule)
  }

  /** `update_for_update_policies`: the old rules and their replacements. */
  function ForUpdatePolicies(
    localId: string, sec: string, ptype: string, oldRules: seq<seq<string>>, newRules: seq<seq<string>>): (m: Message)
    ensures m.kind == UpdateForUpdatePolicies && m.id == localId
    ensures m.sec == sec && m.ptype == ptype && m.oldRules == oldRules && m.newRules == newRules
    ensures Present(m) <= {Sec, Ptype, OldRules, NewRules} && m.fieldIndex == 0
  {
    New(UpdateForUpdatePolicies, localId).(sec := sec, ptype := ptype, oldRules := oldRules, newRules := newRules)
  }

  /**
   * What a peer reads from an add-policy notice: the payload decodes to the
   * add-policy tag, the publisher's id and the added rule, and its wire form
   * carries no key besides "Method", "ID", "FieldIndex", "Sec", "Ptype" and "NewRule".
   */
  lemma AddPolicyOnTheWire(localId: string, sec: string, ptype: string, params: seq<string>)
    ensures var m := FromJson(ToJson(ForAddPolicy(localId, sec, ptype, params)));
      m.Ok? && m.value.kind == UpdateForAddPolicy && m.value.id == localId && m.value.newRule == params
    ensures forall f :: Key(f) in Keys(Encode(ForAddPolicy(localId, sec, ptype, params)).members) ==> f in {Sec, Ptype, NewRule}
  {
    var m := ForAddPolicy(localId, sec, ptype, params);
    RoundTrip(m);
    forall f | Key(f) in Keys(Encode(m).members) ensures f in {Sec, Ptype, NewRule} {
      EncodeOmitsEmpty(m, f);
    }
  }
}
