/** The rule editor: building a rule from the form's draft, the rule list's delete and
    enable switches, the notification-channel editors, the comma-separated operand
    field and the templates offered for a channel. */
module RuleCreation {
  import opened Basics
  import opened Seqs
  import opened Strings
  import opened Delimited
  import opened TemplatesStore
  import Alerts

  datatype TagType = Text | Time | Number | Enum | Boolean

  /** One notification channel of a rule; `templateId` is unset until a template is chosen. */
  datatype Notification = Notification(channel: ChannelType, target: string, templateId: Option<string>)

  datatype Rule = Rule(
    id: string,
    name: string,
    tagKey: string,
    tagType: TagType,
    operator: string,
    values: seq<string>,
    windowMinutes: int,
    threshold: int,
    cooldownSeconds: int,
    enabled: bool,
    severity: Alerts.Severity,
    notifications: seq<Notification>)

  /** What a numeric input holds after `parseInt`: a whole number, or NaN for text that
      does not start with one. */
  datatype NumberInput = NaN | Num(value: int)

  /** The form's partially filled rule; every field may be unset. */
  datatype RuleDraft = RuleDraft(
    name: Option<string>,
    tagKey: Option<string>,
    tagType: Option<TagType>,
    operator: Option<string>,
    values: Option<seq<string>>,
    windowMinutes: Option<NumberInput>,
    threshold: Option<NumberInput>,
    cooldownSeconds: Option<NumberInput>,
    enabled: Option<bool>,
    severity: Option<Alerts.Severity>,
    notifications: Option<seq<Notification>>)

  /** The draft the form opens with and returns to after a rule is created. */
  function DefaultRuleDraft(): RuleDraft {
    RuleDraft(None, None, Some(Enum), Some("IN"), Some([]), Some(Num(30)), Some(Num(5)), Some(Num(1200)),
              Some(true), Some(Alerts.Warning), Some([]))
  }

  /** The draft after the "reset" button: every field unset. */
  function EmptyRuleDraft(): RuleDraft {
    RuleDraft(None, None, None, None, None, None, None, None, None, None, None)
  }

  /** The one rule the list starts with. */
  function InitialRules(): seq<Rule> {
    [ Rule("1", "高频支付失败", "支付结果", Enum, "IN", ["503", "网关超时"], 30, 5, 1200, true, Alerts.Critical,
           [Notification(Email, "ops@company.com", None), Notification(Teams, "https://...", None)]) ]
  }

  // ---------------------------------------------------------------- rule construction

  /** `x || d` for a numeric input: missing, NaN and zero are falsy and give `d`. */
  function NumberOr(x: Option<NumberInput>, d: int): (r: int)
    ensures r == d || (x.Some? && x.value.Num? && r == x.value.value)
    ensures r == d <== x.None? || x.value.NaN? || x.value.value == 0
    ensures x.Some? && x.value.Num? && x.value.value != 0 ==> r == x.value.value
  {
    match x
    case Some(Num(n)) => if n == 0 then d else n
    case _ => d
  }

  datatype CreateError = MissingNameOrTagKey

  /** The rule `handleCreateRule` builds from a draft, or the refusal when the name or the
      trigger tag is blank. Unset and falsy fields take their defaults; `enabled` falls
      back only when unset, so an explicit `false` is kept. */
  function NewRule(id: string, d: RuleDraft): (r: Result<Rule, CreateError>)
    ensures r.Ok? <==> Filled(d.name) && Filled(d.tagKey)
    ensures r.Ok? ==> r.value.id == id && r.value.name == d.name.value && r.value.tagKey == d.tagKey.value
  {
    if !Filled(d.name) || !Filled(d.tagKey) then Err(MissingNameOrTagKey)
    else
      Ok(Rule(
        id, d.name.value, d.tagKey.value,
        d.tagType.GetOr(Enum),
        if Filled(d.operator) then d.operator.value else "IN",
        d.values.GetOr([]),
        NumberOr(d.windowMinutes, 30),
        NumberOr(d.threshold, 5),
        NumberOr(d.cooldownSeconds, 1200),
        d.enabled.GetOr(true),
        d.severity.GetOr(Alerts.Warning),
        d.notifications.GetOr([])))
  }

  /** The defaults applied by `handleCreateRule`, field by field. */
  lemma NewRuleDefaults(id: string, d: RuleDraft)
    requires Filled(d.name) && Filled(d.tagKey)
    ensures NewRule(id, d).Ok?
    ensures NewRule(id, d).value.windowMinutes ==
      if d.windowMinutes == Some(NaN) || d.windowMinutes == None || d.windowMinutes == Some(Num(0)) then 30
      else d.windowMinutes.value.value
    ensures NewRule(id, d).value.threshold ==
      if d.threshold == Some(NaN) || d.threshold == None || d.threshold == Some(Num(0)) then 5
      else d.threshold.value.value
    ensures NewRule(id, d).value.cooldownSeconds ==
      if d.cooldownSeconds == Some(NaN) || d.cooldownSeconds == None || d.cooldownSeconds == Some(Num(0)) then 1200
      else d.cooldownSeconds.value.value
    ensures NewRule(id, d).value.enabled == (d.enabled != Some(false))
    ensures NewRule(id, d).value.operator == if d.operator == None || d.operator == Some("") then "IN" else d.operator.value
    ensures NewRule(id, d).value.severity == if d.severity == None then Alerts.Warning else d.severity.value
    ensures NewRule(id, d).value.tagType == if d.tagType == None then Enum else d.tagType.value
    ensures NewRule(id, d).value.values == if d.values == None then [] else d.values.value
    ensures NewRule(id, d).value.notifications == if d.notifications == None then [] else d.notifications.value
  {
  }

  /** A rule made from the opening draft plus a name and a tag has the advertised defaults. */
  lemma NewRuleFromDefaultDraft(id: string, name: string, tagKey: string)
    requires name != [] && tagKey != []
    ensures NewRule(id, DefaultRuleDraft().(name := Some(name), tagKey := Some(tagKey)))
         == Ok(Rule(id, name, tagKey, Enum, "IN", [], 30, 5, 1200, true, Alerts.Warning, []))
  {
  }

  /** The draft a complete rule would leave in the form. */
  function DraftOf(r: Rule): RuleDraft {
    RuleDraft(Some(r.name), Some(r.tagKey), Some(r.tagType), Some(r.operator), Some(r.values),
              Some(Num(r.windowMinutes)), Some(Num(r.threshold)), Some(Num(r.cooldownSeconds)),
              Some(r.enabled), Some(r.severity), Some(r.notifications))
  }

  /** Creating from the draft of a rule whose text fields and numbers are all truthy rebuilds it. */
  lemma NewRuleFromOwnDraft(r: Rule)
    requires r.name != [] && r.tagKey != [] && r.operator != []
    requires r.windowMinutes != 0 && r.threshold != 0 && r.cooldownSeconds != 0
    ensures NewRule(r.id, DraftOf(r)) == Ok(r)
  {
  }

  // ---------------------------------------------------------------- the rule list

  /** `handleDeleteRule(id)`: the rules whose id differs, in order. */
  function RulesWithout(rules: seq<Rule>, id: string): seq<Rule> {
    Filter(rules, (r: Rule) => r.id != id)
  }

  lemma RulesWithoutExactly(rules: seq<Rule>, id: string)
    ensures forall r :: r in RulesWithout(rules, id) <==> r in rules && r.id != id
    ensures IsSubsequence(RulesWithout(rules, id), rules)
    ensures (forall i :: 0 <= i < |rules| ==> rules[i].id != id) ==> RulesWithout(rules, id) == rules
  {
    FilterIsSubsequence(rules, (r: Rule) => r.id != id);
    if forall i :: 0 <= i < |rules| ==> rules[i].id != id {
      FilterKeepsAll(rules, (r: Rule) => r.id != id);
    }
  }

  /** `handleToggleRule(id)`: the rules with `enabled` flipped on those carrying `id`. */
  function Toggled(rules: seq<Rule>, id: string): (r: seq<Rule>)
    ensures |r| == |rules|
  {
    seq(|rules|, i requires 0 <= i < |rules| => if rules[i].id == id then rules[i].(enabled := !rules[i].enabled) else rules[i])
  }

  /** Toggling flips `enabled` on the matching rules only and changes no other field. */
  lemma ToggledEffect(rules: seq<Rule>, id: string)
    ensures forall i :: 0 <= i < |rules| ==>
      Toggled(rules, id)[i].enabled == (if rules[i].id == id then !rules[i].enabled else rules[i].enabled)
    ensures forall i :: 0 <= i < |rules| ==>
      Toggled(rules, id)[i].(enabled := rules[i].enabled) == rules[i]
  {
  }

  lemma ToggledTwice(rules: seq<Rule>, id: string)
    ensures Toggled(Toggled(rules, id), id) == rules
  {
  }

  // ---------------------------------------------------------------- channel editing

  /** The channel `addNotificationChannel` appends: e-mail, no target, no template. */
  function NewChannel(): Notification {
    Notification(Email, "", None)
  }

  /** `splice(index, 1)` on a copy: a negative index counts from the end, one below
      `-|ns|` removes the first entry, and one at or past the end removes nothing. */
  function SplicedOut(ns: seq<Notification>, index: int): (r: seq<Notification>)
    ensures |r| == if ns != [] && index < |ns| then |ns| - 1 else |ns|
  {
    var start := if index < 0 then (if |ns| + index < 0 then 0 else |ns| + index) else index;
    if start < |ns| then ns[..start] + ns[start + 1..] else ns
  }

  /** For an index the list shows, exactly that entry goes and the others keep their order. */
  lemma SplicedOutAt(ns: seq<Notification>, index: int)
    requires 0 <= index < |ns|
    ensures |SplicedOut(ns, index)| == |ns| - 1
    ensures forall i :: 0 <= i < index ==> SplicedOut(ns, index)[i] == ns[i]
    ensures forall i :: index <= i < |ns| - 1 ==> SplicedOut(ns, index)[i] == ns[i + 1]
  {
  }

  /** Removing the channel that was just appended gives back the list before. */
  lemma RemoveAfterAdd(ns: seq<Notification>)
    ensures SplicedOut(ns + [NewChannel()], |ns|) == ns
    ensures SplicedOut(ns + [NewChannel()], -1) == ns
  {
  }

  /** The two edits of `updateNotificationChannel`. */
  datatype ChannelEdit = SetType(channel: ChannelType) | SetTarget(target: string)

  /** One channel after an edit: a new type clears the chosen template, a new target keeps it. */
  function EditedChannel(n: Notification, e: ChannelEdit): (r: Notification)
    ensures e.SetType? ==> r == Notification(e.channel, n.target, None)
    ensures e.SetTarget? ==> r == n.(target := e.target)
  {
    match e
    case SetType(c) => n.(channel := c, templateId := None)
    case SetTarget(t) => n.(target := t)
  }

  /** The list after editing the entry at `index`; every other entry is untouched. */
  function ChannelsEdited(ns: seq<Notification>, index: nat, e: ChannelEdit): (r: seq<Notification>)
    requires index < |ns|
    ensures |r| == |ns| && r[index] == EditedChannel(ns[index], e)
    ensures forall i :: 0 <= i < |ns| && i != index ==> r[i] == ns[i]
  {
    ns[index := EditedChannel(ns[index], e)]
  }

  /** Setting a target and then the old target back restores the list. */
  lemma RetargetBack(ns: seq<Notification>, index: nat, t: string)
    requires index < |ns|
    ensures ChannelsEdited(ChannelsEdited(ns, index, SetTarget(t)), index, SetTarget(ns[index].target)) == ns
  {
  }

  /** `updateNotificationTemplate(index, templateId)`. */
  function TemplateChosen(ns: seq<Notification>, index: nat, templateId: string): (r: seq<Notification>)
    requires index < |ns|
    ensures |r| == |ns| && r[index] == ns[index].(templateId := Some(templateId))
    ensures forall i :: 0 <= i < |ns| && i != index ==> r[i] == ns[i]
  {
    ns[index := ns[index].(templateId := Some(templateId))]
  }

  /** A type change after a template choice leaves no template chosen. */
  lemma TypeChangeClearsChoice(ns: seq<Notification>, index: nat, templateId: string, c: ChannelType)
    requires index < |ns|
    ensures ChannelsEdited(TemplateChosen(ns, index, templateId), index, SetType(c))[index].templateId == None
    ensures ChannelsEdited(TemplateChosen(ns, index, templateId), index, SetType(c))
         == ChannelsEdited(ns, index, SetType(c))
  {
  }

  // ---------------------------------------------------------------- operand values

  /** The enum operand field: `text.split(",").map(v => v.trim()).filter(Boolean)`. */
  function ParseValues(text: string): (vs: seq<string>)
    ensures forall i :: 0 <= i < |vs| ==> vs[i] != [] && Trimmed(vs[i]) && ',' !in vs[i]
  {
    var trimmed := TrimEach(Split(text, ','));
    TrimEachClean(Split(text, ','));
    FilterPreserves(trimmed, (v: string) => v != [], (v: string) => Trimmed(v) && ',' !in v);
    Filter(trimmed, (v: string) => v != [])
  }

  /** `pieces.map(v => v.trim())`. */
  function TrimEach(pieces: seq<string>): (ts: seq<string>)
    ensures |ts| == |pieces|
  {
    if pieces == [] then [] else [Trim(pieces[0])] + TrimEach(pieces[1..])
  }

  /** Trimmed comma-free pieces are trimmed and comma-free. */
  lemma {:induction false} TrimEachClean(pieces: seq<string>)
    requires forall i :: 0 <= i < |pieces| ==> ',' !in pieces[i]
    ensures forall i :: 0 <= i < |pieces| ==> Trimmed(TrimEach(pieces)[i]) && ',' !in TrimEach(pieces)[i]
  {
    if pieces != [] {
      TrimEachClean(pieces[1..]);
      TrimKeepsAbsence(pieces[0], ',');
      assert forall i :: 1 <= i < |pieces| ==> TrimEach(pieces)[i] == TrimEach(pieces[1..])[i - 1];
    }
  }

  /** Trimming pieces that are already trimmed changes none of them. */
  lemma {:induction false} TrimEachOfTrimmed(pieces: seq<string>)
    requires forall i :: 0 <= i < |pieces| ==> Trimmed(pieces[i])
    ensures TrimEach(pieces) == pieces
  {
    if pieces != [] {
      TrimEachOfTrimmed(pieces[1..]);
      TrimOfTrimmed(pieces[0]);
    }
  }

  /** Trimming removes characters, it never adds them. */
  lemma TrimKeepsAbsence(s: string, c: char)
    requires c !in s
    ensures c !in Trim(s)
  {
    TrimSlice(s);
    var a := TrimOffset(s);
    assert forall i :: 0 <= i < |Trim(s)| ==> Trim(s)[i] == s[a + i];
  }

  /** The field shows `values.join(",")`; reading that text back gives the same values
      when each is non-empty, has no surrounding whitespace and no comma. */
  lemma ParseJoinedValues(vs: seq<string>)
    requires forall i :: 0 <= i < |vs| ==> vs[i] != [] && Trimmed(vs[i]) && ',' !in vs[i]
    ensures ParseValues(Join(vs, ',')) == vs
  {
    if vs == [] {
      assert Split([], ',') == [[]];
      assert TrimEach([[]]) == [Trim([])];
      assert Trim([]) == [];
    } else {
      SplitJoin(vs, ',');
      TrimEachOfTrimmed(vs);
      FilterKeepsAll(vs, (v: string) => v != []);
    }
  }

  /** Re-reading the field after it re-displays its values changes nothing. */
  lemma ParseValuesStable(text: string)
    ensures ParseValues(Join(ParseValues(text), ',')) == ParseValues(text)
  {
    ParseJoinedValues(ParseValues(text));
  }

  // ---------------------------------------------------------------- offered templates

  /** The templates offered in a channel's template menu: those of its type, in store order. */
  function TemplatesFor(templates: seq<Template>, channel: ChannelType): seq<Template> {
    Filter(templates, (t: Template) => t.channel == channel)
  }

  lemma TemplatesForExactly(templates: seq<Template>, channel: ChannelType)
    ensures forall t :: t in TemplatesFor(templates, channel) <==> t in templates && t.channel == channel
    ensures IsSubsequence(TemplatesFor(templates, channel), templates)
  {
    FilterIsSubsequence(templates, (t: Template) => t.channel == channel);
    var r := TemplatesFor(templates, channel);
    FilterKeepsPassing(templates, (t: Template) => t.channel == channel);
    forall t | t in templates && t.channel == channel ensures t in r {
      var i :| 0 <= i < |templates| && templates[i] == t;
    }
  }

  /** A template picked from a channel's menu has that channel's type. */
  lemma OfferedChoiceMatchesType(templates: seq<Template>, ns: seq<Notification>, index: nat, t: Template)
    requires index < |ns| && t in TemplatesFor(templates, ns[index].channel)
    ensures TemplateChosen(ns, index, t.id)[index].templateId == Some(t.id)
    ensures t in templates && t.channel == TemplateChosen(ns, index, t.id)[index].channel
  {
    TemplatesForExactly(templates, ns[index].channel);
  }

  /** Every template is offered under exactly one channel type. */
  lemma {:induction false} TemplatesForPartition(templates: seq<Template>)
    ensures |TemplatesFor(templates, Email)| + |TemplatesFor(templates, Teams)| + |TemplatesFor(templates, Webhook)|
         == |templates|
  {
    if templates != [] {
      TemplatesForPartition(templates[1..]);
    }
  }

  // ---------------------------------------------------------------- the editor's state

  /** The rule screen: the rule list, the form's draft, and the shared template store. */
  class RuleEditor {
    const store: TemplateStore
    var rules: seq<Rule>
    var editingRule: RuleDraft

    constructor (store: TemplateStore)
      ensures this.store == store && rules == InitialRules() && editingRule == DefaultRuleDraft()
    {
      this.store := store;
      rules := InitialRules();
      editingRule := DefaultRuleDraft();
    }

    /** The draft's channel list, where an unset list reads as empty. */
    function Channels(): seq<Notification>
      reads this
    {
      editingRule.notifications.GetOr([])
    }

    /** `handleCreateRule`: refuse a blank name or tag; otherwise append the new rule and
        reset the form. `created` says which happened. */
    method CreateRule(id: string) returns (created: bool)
      modifies this
      ensures created <==> Filled(old(editingRule).name) && Filled(old(editingRule).tagKey)
      ensures created ==> (rules == old(rules) + [NewRule(id, old(editingRule)).value]
                           && editingRule == DefaultRuleDraft())
      ensures !created ==> rules == old(rules) && editingRule == old(editingRule)
    {
      var r := NewRule(id, editingRule);
      if r.Err? {
        return false;
      }
      rules := rules + [r.value];
      editingRule := DefaultRuleDraft();
      created := true;
    }

    method DeleteRule(id: string)
      modifies this
      ensures rules == RulesWithout(old(rules), id) && editingRule == old(editingRule)
    {
      rules := RulesWithout(rules, id);
    }

    method ToggleRule(id: string)
      modifies this
      ensures rules == Toggled(old(rules), id) && editingRule == old(editingRule)
    {
      rules := Toggled(rules, id);
    }

    method AddNotificationChannel()
      modifies this
      ensures Channels() == old(Channels()) + [NewChannel()]
      ensures editingRule == old(editingRule).(notifications := Some(old(Channels()) + [NewChannel()]))
      ensures rules == old(rules)
    {
      editingRule := editingRule.(notifications := Some(Channels() + [NewChannel()]));
    }

    method RemoveNotificationChannel(index: int)
      modifies this
      ensures editingRule == old(editingRule).(notifications := Some(SplicedOut(old(Channels()), index)))
      ensures rules == old(rules)
    {
      editingRule := editingRule.(notifications := Some(SplicedOut(Channels(), index)));
    }

    method UpdateNotificationChannel(index: nat, e: ChannelEdit)
      requires index < |Channels()|
      modifies this
      ensures editingRule == old(editingRule).(notifications := Some(ChannelsEdited(old(Channels()), index, e)))
      ensures rules == old(rules)
    {
      editingRule := editingRule.(notifications := Some(ChannelsEdited(Channels(), index, e)));
    }

    method UpdateNotificationTemplate(index: nat, templateId: string)
      requires index < |Channels()|
      modifies this
      ensures editingRule == old(editingRule).(notifications := Some(TemplateChosen(old(Channels()), index, templateId)))
      ensures rules == old(rules)
    {
      editingRule := editingRule.(notifications := Some(TemplateChosen(Channels(), index, templateId)));
    }

    /** Typing into the enum operand field. */
    method SetValuesText(text: string)
      modifies this
      ensures editingRule == old(editingRule).(values := Some(ParseValues(text)))
      ensures rules == old(rules)
    {
      editingRule := editingRule.(values := Some(ParseValues(text)));
    }

    /** The "reset" button clears every field of the draft. */
    method ResetDraft()
      modifies this
      ensures editingRule == EmptyRuleDraft() && rules == old(rules)
    {
      editingRule := EmptyRuleDraft();
    }

    /** The template menu of the channel at `index`. */
    function OfferedTemplates(index: nat): seq<Template>
      requires index < |Channels()|
      reads this, store
    {
      TemplatesFor(store.templates, Channels()[index].channel)
    }
  }
}
