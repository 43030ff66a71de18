/** The text-command edits of a form: each rule sets one key to a fixed
    value when the lower-cased command contains the rule's phrase. */
module FormEdits {
  import opened JsonValues
  import opened Text

  /** A form: field name to value (a Python dict). */
  type Form = map<string, Json>

  /** "When the command mentions `phrase`, set `key` to `value`." */
  datatype EditRule = EditRule(phrase: string, key: string, value: string)

  /** Python `rule.phrase in command.lower()`. */
  predicate Fires(rule: EditRule, command: string) {
    Contains(Lower(command), rule.phrase)
  }

  /** Matching ignores ASCII case: a command fires a rule exactly when its
      lower-cased form does. */
  lemma FiresIgnoresCase(rule: EditRule, command: string)
    ensures Fires(rule, Lower(command)) <==> Fires(rule, command)
  {
    LowerIdempotent(command);
  }

  /** A rule whose phrase holds an ASCII capital never fires. */
  lemma CapitalPhraseNeverFires(rule: EditRule, command: string, k: nat)
    requires k < |rule.phrase| && 'A' <= rule.phrase[k] <= 'Z'
    ensures !Fires(rule, command)
  {
    CapitalNeverInLower(command, rule.phrase, k);
  }

  /** The rules tried one after the other, each writing its value when it
      fires, as the `if` statements of the source do in order. */
  function ApplyRules(rules: seq<EditRule>, form: Form, command: string): Form
    decreases |rules|
  {
    if rules == [] then form
    else
      var before := ApplyRules(rules[..|rules| - 1], form, command);
      var rule := rules[|rules| - 1];
      if Fires(rule, command) then before[rule.key := JStr(rule.value)] else before
  }

  /** What the rules write for `command`, whatever the form. */
  function FiredUpdates(rules: seq<EditRule>, command: string): map<string, Json> {
    ApplyRules(rules, map[], command)
  }

  /** No two rules write the same key. */
  predicate DistinctKeys(rules: seq<EditRule>) {
    forall i, j :: 0 <= i < j < |rules| ==> rules[i].key != rules[j].key
  }

  /** Applying the rules is writing their updates over the form: keys no
      firing rule names keep their values and no key disappears. */
  lemma {:induction false} ApplyRulesOverride(rules: seq<EditRule>, form: Form, command: string)
    ensures ApplyRules(rules, form, command) == form + FiredUpdates(rules, command)
    decreases |rules|
  {
    if rules != [] {
      var init := rules[..|rules| - 1];
      ApplyRulesOverride(init, form, command);
      var rule := rules[|rules| - 1];
      if Fires(rule, command) {
        var u := FiredUpdates(init, command);
        assert (form + u)[rule.key := JStr(rule.value)] == form + u[rule.key := JStr(rule.value)];
      }
    }
  }

  /** A key is written exactly when a rule naming it fires. */
  lemma {:induction false} FiredUpdatesKeys(rules: seq<EditRule>, command: string, key: string)
    ensures key in FiredUpdates(rules, command) <==>
              exists i :: 0 <= i < |rules| && rules[i].key == key && Fires(rules[i], command)
    decreases |rules|
  {
    if rules != [] {
      var init := rules[..|rules| - 1];
      FiredUpdatesKeys(init, command, key);
      if exists i :: 0 <= i < |init| && init[i].key == key && Fires(init[i], command) {
        var i :| 0 <= i < |init| && init[i].key == key && Fires(init[i], command);
        assert rules[i] == init[i];
      }
      if exists i :: 0 <= i < |rules| && rules[i].key == key && Fires(rules[i], command) {
        var i :| 0 <= i < |rules| && rules[i].key == key && Fires(rules[i], command);
        if i < |init| {
          assert init[i] == rules[i];
        }
      }
    }
  }

  /** With distinct keys, a firing rule's key ends up holding its value. */
  lemma {:induction false} FiredUpdatesValue(rules: seq<EditRule>, command: string, i: nat)
    requires DistinctKeys(rules) && i < |rules| && Fires(rules[i], command)
    ensures rules[i].key in FiredUpdates(rules, command)
    ensures FiredUpdates(rules, command)[rules[i].key] == JStr(rules[i].value)
    decreases |rules|
  {
    var init := rules[..|rules| - 1];
    if i < |init| {
      assert init[i] == rules[i];
      FiredUpdatesValue(init, command, i);
    }
  }

  /** Applying the same command twice gives the form applying it once gives. */
  lemma ApplyRulesIdempotent(rules: seq<EditRule>, form: Form, command: string)
    ensures ApplyRules(rules, ApplyRules(rules, form, command), command) == ApplyRules(rules, form, command)
  {
    var u := FiredUpdates(rules, command);
    ApplyRulesOverride(rules, form, command);
    ApplyRulesOverride(rules, form + u, command);
    assert (form + u) + u == form + u;
  }

  /** A command none of whose phrases occurs leaves the form as it is. */
  lemma NoRuleFires(rules: seq<EditRule>, form: Form, command: string)
    requires forall i :: 0 <= i < |rules| ==> !Fires(rules[i], command)
    ensures ApplyRules(rules, form, command) == form
  {
    ApplyRulesOverride(rules, form, command);
    forall key ensures key !in FiredUpdates(rules, command) {
      FiredUpdatesKeys(rules, command, key);
    }
    assert form + FiredUpdates(rules, command) == form;
  }

  /** A key that no firing rule names keeps its entry, present or not. */
  lemma UnwrittenKeyKept(rules: seq<EditRule>, form: Form, command: string, key: string)
    requires forall i :: 0 <= i < |rules| && rules[i].key == key ==> !Fires(rules[i], command)
    ensures key in ApplyRules(rules, form, command) <==> key in form
    ensures key in form ==> ApplyRules(rules, form, command)[key] == form[key]
  {
    ApplyRulesOverride(rules, form, command);
    FiredUpdatesKeys(rules, command, key);
  }

  /** A firing rule's key holds its value when no other rule names it. */
  lemma FiredKeyWritten(rules: seq<EditRule>, form: Form, command: string, i: nat)
    requires DistinctKeys(rules) && i < |rules| && Fires(rules[i], command)
    ensures rules[i].key in ApplyRules(rules, form, command)
    ensures ApplyRules(rules, form, command)[rules[i].key] == JStr(rules[i].value)
  {
    ApplyRulesOverride(rules, form, command);
    FiredUpdatesValue(rules, command, i);
  }

  /** The rules up to and including rule `i`: rule `i` applied after the
      ones before it. */
  lemma ApplyRulesPrefix(rules: seq<EditRule>, form: Form, command: string, i: nat)
    requires i < |rules|
    ensures ApplyRules(rules[..i + 1], form, command) ==
              if Fires(rules[i], command) then ApplyRules(rules[..i], form, command)[rules[i].key := JStr(rules[i].value)]
              else ApplyRules(rules[..i], form, command)
  {
    assert rules[..i + 1][..i] == rules[..i];
  }
}
