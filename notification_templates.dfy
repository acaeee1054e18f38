/** The notification-template screen: creating a template from the form's draft, and the
    preview that fills a template body with fixed sample values. */
module NotificationTemplates {
  import opened Basics
  import opened Strings
  import opened TemplatesStore

  /** The form's partially filled template; every field may still be unset. */
  datatype TemplateDraft = TemplateDraft(
    name: Option<string>,
    channel: Option<ChannelType>,
    subject: Option<string>,
    body: Option<string>,
    format: Option<Format>)

  /** The form's state on opening, after a creation and after "reset". */
  function DefaultTemplateDraft(): TemplateDraft {
    TemplateDraft(None, Some(Email), None, Some(""), Some(Plain))
  }

  datatype CreateError = MissingNameOrBody

  /** The template `handleCreateTemplate` builds from a draft, or the refusal when the
      name or the body is blank. Channel and format fall back to e-mail and plain text. */
  function NewTemplate(id: string, d: TemplateDraft): (r: Result<Template, CreateError>)
    ensures r.Ok? <==> Filled(d.name) && Filled(d.body)
    ensures r.Ok? ==> r.value.id == id && r.value.name != [] && r.value.body != []
    ensures r.Ok? ==> r.value.name == d.name.value && r.value.body == d.body.value
  {
    if !Filled(d.name) || !Filled(d.body) then Err(MissingNameOrBody)
    else Ok(Template(id, d.name.value, d.channel.GetOr(Email), d.subject, d.body.value, d.format.GetOr(Plain)))
  }

  /** The draft a complete template would leave in the form. */
  function DraftOf(t: Template): TemplateDraft {
    TemplateDraft(Some(t.name), Some(t.channel), t.subject, Some(t.body), Some(t.format))
  }

  /** Unset channel and format take their defaults; set ones and the subject pass through. */
  lemma NewTemplateDefaults(id: string, d: TemplateDraft)
    requires Filled(d.name) && Filled(d.body)
    ensures NewTemplate(id, d).Ok?
    ensures NewTemplate(id, d).value.channel == if d.channel.None? then Email else d.channel.value
    ensures NewTemplate(id, d).value.format == if d.format.None? then Plain else d.format.value
    ensures NewTemplate(id, d).value.subject == d.subject
    ensures NewTemplate(id, d).value.name == d.name.value && NewTemplate(id, d).value.body == d.body.value
  {
  }

  /** Creating from the draft of a template with a name and a body rebuilds that template. */
  lemma NewTemplateFromOwnDraft(t: Template)
    requires t.name != [] && t.body != []
    ensures NewTemplate(t.id, DraftOf(t)) == Ok(t)
  {
  }

  // ---------------------------------------------------------------- preview

  /** The sample variables of the preview, in the order they are substituted. */
  function SampleData(): seq<(string, string)> {
    [ ("rule_name", "高频支付失败"),
      ("window_start", "2025-11-14 14:00:00"),
      ("window_end", "2025-11-14 14:30:00"),
      ("count", "8"),
      ("severity", "critical"),
      ("call_links", "- call_001\n- call_002\n- call_003"),
      ("dashboard_link", "https://dashboard.example.com/alerts/123") ]
  }

  /** `s` after `replaceAll("{key}", value)` for each entry in turn. */
  function RenderWith(s: string, entries: seq<(string, string)>): string
    decreases |entries|
  {
    if entries == [] then s
    else
      var last := entries[|entries| - 1];
      ReplaceAll(RenderWith(s, entries[..|entries| - 1]), Placeholder(last.0), last.1)
  }

  /** The preview of a template body; a missing body previews as the empty text. */
  function Preview(body: Option<string>): string {
    RenderWith(body.GetOr(""), SampleData())
  }

  /** Variables whose keys and values have no braces and whose values are not part of any key. */
  predicate Separated(entries: seq<(string, string)>) {
    forall k :: 0 <= k < |entries| ==> EntrySeparated(entries, k)
  }

  /** Entry `k` has no braces and its value is part of no key. */
  predicate EntrySeparated(entries: seq<(string, string)>, k: nat)
    requires k < |entries|
  {
    BraceFree(entries[k].0) && BraceFree(entries[k].1) && ApartFromKeys(entries, entries[k].1)
  }

  /** `v` is part of none of the keys. */
  predicate ApartFromKeys(entries: seq<(string, string)>, v: string) {
    forall i :: 0 <= i < |entries| ==> !Occurs(entries[i].0, v)
  }

  lemma SeparatedPrefix(entries: seq<(string, string)>, n: nat)
    requires Separated(entries) && n <= |entries|
    ensures Separated(entries[..n])
  {
    forall k | 0 <= k < n ensures EntrySeparated(entries[..n], k) {
      assert EntrySeparated(entries, k);
      forall i | 0 <= i < n ensures !Occurs(entries[..n][i].0, entries[k].1) {
        assert entries[..n][i] == entries[i];
      }
    }
  }

  /** Text without `{` renders to itself. */
  lemma {:induction false} RenderWithoutBraces(s: string, entries: seq<(string, string)>)
    requires '{' !in s
    ensures RenderWith(s, entries) == s
    decreases |entries|
  {
    if entries != [] {
      var last := entries[|entries| - 1];
      RenderWithoutBraces(s, entries[..|entries| - 1]);
      NoOpenBraceNoOccurrence(s, Placeholder(last.0));
      ReplaceAllAbsent(s, Placeholder(last.0), last.1);
    }
  }

  /** Text that holds none of the placeholders renders to itself. */
  lemma {:induction false} RenderWithoutPlaceholders(s: string, entries: seq<(string, string)>)
    requires forall i :: 0 <= i < |entries| ==> !Occurs(s, Placeholder(entries[i].0))
    ensures RenderWith(s, entries) == s
    decreases |entries|
  {
    if entries != [] {
      var last := entries[|entries| - 1];
      RenderWithoutPlaceholders(s, entries[..|entries| - 1]);
      ReplaceAllAbsent(s, Placeholder(last.0), last.1);
    }
  }

  /** After rendering with separated variables no placeholder of theirs is left. */
  lemma {:induction false} RenderLeavesNoPlaceholder(s: string, entries: seq<(string, string)>)
    requires Separated(entries)
    ensures forall i :: 0 <= i < |entries| ==> !Occurs(RenderWith(s, entries), Placeholder(entries[i].0))
    decreases |entries|
  {
    if entries != [] {
      var n := |entries| - 1;
      var last := entries[n];
      var before := RenderWith(s, entries[..n]);
      SeparatedPrefix(entries, n);
      RenderLeavesNoPlaceholder(s, entries[..n]);
      forall i | 0 <= i < |entries|
        ensures !Occurs(RenderWith(s, entries), Placeholder(entries[i].0))
      {
        assert EntrySeparated(entries, i) && EntrySeparated(entries, n);
        ReplaceAllCreatesNoPlaceholder(before, Placeholder(last.0), last.1, entries[i].0);
        if i < n {
          assert entries[..n][i] == entries[i];
        }
      }
    }
  }

  /** A placeholder whose key is not among the variables is left as it is. */
  lemma {:induction false} RenderKeepsUnknownPlaceholder(s: string, entries: seq<(string, string)>, key: string)
    requires forall i :: 0 <= i < |entries| ==> BraceFree(entries[i].0) && entries[i].0 != key
    requires BraceFree(key)
    requires Occurs(s, Placeholder(key))
    ensures Occurs(RenderWith(s, entries), Placeholder(key))
    decreases |entries|
  {
    if entries != [] {
      var last := entries[|entries| - 1];
      RenderKeepsUnknownPlaceholder(s, entries[..|entries| - 1], key);
      ReplaceAllKeepsOtherPlaceholder(RenderWith(s, entries[..|entries| - 1]), last.0, last.1, key);
    }
  }

  /** Rendering twice with separated variables is rendering once. */
  lemma RenderIdempotent(s: string, entries: seq<(string, string)>)
    requires Separated(entries)
    ensures RenderWith(RenderWith(s, entries), entries) == RenderWith(s, entries)
  {
    RenderLeavesNoPlaceholder(s, entries);
    RenderWithoutPlaceholders(RenderWith(s, entries), entries);
  }

  /** Rendering with one more entry applies that entry's substitution last. */
  lemma RenderStep(s: string, entries: seq<(string, string)>, k: nat)
    requires k < |entries|
    ensures RenderWith(s, entries[..k + 1]) == ReplaceAll(RenderWith(s, entries[..k]), Placeholder(entries[k].0), entries[k].1)
  {
    assert entries[..k + 1][..k] == entries[..k];
  }

  /** Rendering with `xs + ys` is rendering with `xs`, then with `ys`. */
  lemma {:induction false} RenderAppend(s: string, xs: seq<(string, string)>, ys: seq<(string, string)>)
    ensures RenderWith(s, xs + ys) == RenderWith(RenderWith(s, xs), ys)
    decreases |ys|
  {
    if ys == [] {
      assert xs + ys == xs;
    } else {
      var n := |ys| - 1;
      assert (xs + ys)[..|xs + ys| - 1] == xs + ys[..n];
      RenderAppend(s, xs, ys[..n]);
    }
  }

  // ---------------------------------------------------------------- the sample values

  function SampleKeys(): (keys: seq<string>)
    ensures |keys| == |SampleData()| && forall i :: 0 <= i < |keys| ==> keys[i] == SampleData()[i].0
  {
    ["rule_name", "window_start", "window_end", "count", "severity", "call_links", "dashboard_link"]
  }

  lemma NotInSampleKeys(v: string, c: char)
    requires c in v
    requires forall i :: 0 <= i < |SampleData()| ==> c !in SampleData()[i].0
    ensures ApartFromKeys(SampleData(), v)
  {
    forall i | 0 <= i < |SampleData()| ensures !Occurs(SampleData()[i].0, v) {
      ForeignCharNotOccurs(SampleData()[i].0, v, c);
    }
  }

  /** An entry whose key and value hold no brace. */
  lemma RuleNameBraceFree(e: (string, string))
    requires e == ("rule_name", "高频支付失败")
    ensures BraceFree(e.0) && BraceFree(e.1)
  {
  }

  lemma RuleNameValueApart()
    ensures ApartFromKeys(SampleData(), SampleData()[0].1)
  {
    NotInSampleKeys(SampleData()[0].1, '高');
  }

  lemma WindowStartBraceFree(e: (string, string))
    requires e == ("window_start", "2025-11-14 14:00:00")
    ensures BraceFree(e.0) && BraceFree(e.1)
  {
  }

  lemma WindowStartValueApart()
    ensures ApartFromKeys(SampleData(), SampleData()[1].1)
  {
    NotInSampleKeys(SampleData()[1].1, '2');
  }

  lemma WindowEndBraceFree(e: (string, string))
    requires e == ("window_end", "2025-11-14 14:30:00")
    ensures BraceFree(e.0) && BraceFree(e.1)
  {
  }

  lemma WindowEndValueApart()
    ensures ApartFromKeys(SampleData(), SampleData()[2].1)
  {
    NotInSampleKeys(SampleData()[2].1, '2');
  }

  lemma CountBraceFree(e: (string, string))
    requires e == ("count", "8")
    ensures BraceFree(e.0) && BraceFree(e.1)
  {
  }

  lemma CountValueApart()
    ensures ApartFromKeys(SampleData(), SampleData()[3].1)
  {
    NotInSampleKeys(SampleData()[3].1, '8');
  }

  lemma SeverityBraceFree(e: (string, string))
    requires e == ("severity", "critical")
    ensures BraceFree(e.0) && BraceFree(e.1)
  {
  }

  lemma SeverityValueApart()
    ensures ApartFromKeys(SampleData(), SampleData()[4].1)
  {
    var v := SampleData()[4].1;
    forall i | 0 <= i < |SampleData()| ensures !Occurs(SampleData()[i].0, v) {
      if 'c' in SampleData()[i].0 {
        ForeignCharNotOccurs(SampleData()[i].0, v, 'r');
      } else {
        ForeignCharNotOccurs(SampleData()[i].0, v, 'c');
      }
    }
  }

  lemma CallLinksBraceFree(e: (string, string))
    requires e == ("call_links", "- call_001\n- call_002\n- call_003")
    ensures BraceFree(e.0) && BraceFree(e.1)
  {
  }

  lemma CallLinksValueApart()
    ensures ApartFromKeys(SampleData(), SampleData()[5].1)
  {
    NotInSampleKeys(SampleData()[5].1, '-');
  }

  lemma DashboardLinkBraceFree(e: (string, string))
    requires e == ("dashboard_link", "https://dashboard.example.com/alerts/123")
    ensures BraceFree(e.0) && BraceFree(e.1)
  {
  }

  lemma DashboardLinkValueApart()
    ensures ApartFromKeys(SampleData(), SampleData()[6].1)
  {
    NotInSampleKeys(SampleData()[6].1, ':');
  }

  lemma RuleNameEntrySeparated()
    ensures EntrySeparated(SampleData(), 0)
  {
    RuleNameBraceFree(SampleData()[0]);
    RuleNameValueApart();
  }

  lemma WindowStartEntrySeparated()
    ensures EntrySeparated(SampleData(), 1)
  {
    WindowStartBraceFree(SampleData()[1]);
    WindowStartValueApart();
  }

  lemma WindowEndEntrySeparated()
    ensures EntrySeparated(SampleData(), 2)
  {
    WindowEndBraceFree(SampleData()[2]);
    WindowEndValueApart();
  }

  lemma CountEntrySeparated()
    ensures EntrySeparated(SampleData(), 3)
  {
    CountBraceFree(SampleData()[3]);
    CountValueApart();
  }

  lemma SeverityEntrySeparated()
    ensures EntrySeparated(SampleData(), 4)
  {
    SeverityBraceFree(SampleData()[4]);
    SeverityValueApart();
  }

  lemma CallLinksEntrySeparated()
    ensures EntrySeparated(SampleData(), 5)
  {
    CallLinksBraceFree(SampleData()[5]);
    CallLinksValueApart();
  }

  lemma DashboardLinkEntrySeparated()
    ensures EntrySeparated(SampleData(), 6)
  {
    DashboardLinkBraceFree(SampleData()[6]);
    DashboardLinkValueApart();
  }

  /** The seven sample variables are separated. */
  lemma SampleDataSeparated()
    ensures Separated(SampleData())
  {
    forall k | 0 <= k < |SampleData()| ensures EntrySeparated(SampleData(), k) {
      if k == 0 { RuleNameEntrySeparated(); }
      else if k == 1 { WindowStartEntrySeparated(); }
      else if k == 2 { WindowEndEntrySeparated(); }
      else if k == 3 { CountEntrySeparated(); }
      else if k == 4 { SeverityEntrySeparated(); }
      else if k == 5 { CallLinksEntrySeparated(); }
      else { DashboardLinkEntrySeparated(); }
    }
  }

  // ---------------------------------------------------------------- preview properties

  /** A missing body previews as the empty text. */
  lemma PreviewOfMissingBody()
    ensures Preview(None) == ""
  {
    RenderWithoutBraces("", SampleData());
  }

  /** A body without `{` previews as itself. */
  lemma PreviewWithoutBraces(body: string)
    requires '{' !in body
    ensures Preview(Some(body)) == body
  {
    RenderWithoutBraces(body, SampleData());
  }

  /** No `{key}` of the seven sample variables survives in a preview. */
  lemma PreviewReplacesEveryVariable(body: Option<string>)
    ensures forall i :: 0 <= i < |SampleData()| ==> !Occurs(Preview(body), Placeholder(SampleData()[i].0))
  {
    SampleDataSeparated();
    RenderLeavesNoPlaceholder(body.GetOr(""), SampleData());
  }

  /** A placeholder outside the seven variables, such as `{examples}`, is left verbatim. */
  lemma PreviewKeepsUnknownPlaceholder(body: string, key: string)
    requires BraceFree(key) && key !in SampleKeys()
    requires Occurs(body, Placeholder(key))
    ensures Occurs(Preview(Some(body)), Placeholder(key))
  {
    SampleDataSeparated();
    RenderKeepsUnknownPlaceholder(body, SampleData(), key);
  }

  lemma ExampleCountStep()
    ensures ReplaceAll("规则 高频支付失败 触发 {count} 次", Placeholder("count"), "8") == "规则 高频支付失败 触发 8 次"
  {
    assert "规则 高频支付失败 触发 {count} 次" == "规则 高频支付失败 触发 " + Placeholder("count") + " 次";
    NoOpenBraceNoOccurrence(" 次", Placeholder("count"));
    ReplaceAllSingle("规则 高频支付失败 触发 ", " 次", Placeholder("count"), "8");
  }

  lemma ExampleWindowSteps(s: string)
    requires s == "规则 高频支付失败 触发 {count} 次"
    ensures ReplaceAll(s, Placeholder("window_start"), "2025-11-14 14:00:00") == s
    ensures ReplaceAll(s, Placeholder("window_end"), "2025-11-14 14:30:00") == s
  {
    ForeignCharNotOccurs(s, Placeholder("window_start"), 'w');
    ReplaceAllAbsent(s, Placeholder("window_start"), "2025-11-14 14:00:00");
    ForeignCharNotOccurs(s, Placeholder("window_end"), 'w');
    ReplaceAllAbsent(s, Placeholder("window_end"), "2025-11-14 14:30:00");
  }

  lemma ExampleFirstOne(s0: string, entries: seq<(string, string)>, head: string, tail: string)
    requires head == "规则 " && tail == " 触发 {count} 次" && s0 == head + "{rule_name}" + tail
    requires |entries| >= 1 && entries[0] == ("rule_name", "高频支付失败")
    ensures RenderWith(s0, entries[..1]) == head + "高频支付失败" + tail
  {
    assert entries[..0] == [];
    RenderStep(s0, entries, 0);
    assert Placeholder("rule_name") == "{rule_name}";
    ForeignCharNotOccurs(tail, "{rule_name}", 'r');
    ReplaceAllSingle(head, tail, "{rule_name}", "高频支付失败");
  }

  lemma ExampleNextThree(s0: string, entries: seq<(string, string)>)
    requires |entries| >= 4
    requires RenderWith(s0, entries[..1]) == "规则 高频支付失败 触发 {count} 次"
    requires entries[1] == ("window_start", "2025-11-14 14:00:00")
    requires entries[2] == ("window_end", "2025-11-14 14:30:00")
    requires entries[3] == ("count", "8")
    ensures RenderWith(s0, entries[..4]) == "规则 高频支付失败 触发 8 次"
  {
    RenderStep(s0, entries, 1);
    RenderStep(s0, entries, 2);
    ExampleWindowSteps("规则 高频支付失败 触发 {count} 次");
    RenderStep(s0, entries, 3);
    ExampleCountStep();
  }

  lemma ExampleSplit(head: string, tail: string)
    requires head == "规则 " && tail == " 触发 {count} 次"
    ensures "规则 {rule_name} 触发 {count} 次" == head + "{rule_name}" + tail
    ensures head + "高频支付失败" + tail == "规则 高频支付失败 触发 {count} 次"
  {
  }

  lemma SampleFirstFour(sd: seq<(string, string)>)
    requires sd == SampleData()
    ensures |sd| >= 4 && sd[0] == ("rule_name", "高频支付失败")
    ensures sd[1] == ("window_start", "2025-11-14 14:00:00") && sd[2] == ("window_end", "2025-11-14 14:30:00")
    ensures sd[3] == ("count", "8")
  {
  }

  lemma ExampleFirstFour(s0: string, sd: seq<(string, string)>)
    requires s0 == "规则 {rule_name} 触发 {count} 次" && sd == SampleData()
    ensures RenderWith(s0, sd[..4]) == "规则 高频支付失败 触发 8 次"
  {
    var head, tail := "规则 ", " 触发 {count} 次";
    ExampleSplit(head, tail);
    SampleFirstFour(sd);
    ExampleFirstOne(s0, sd, head, tail);
    ExampleNextThree(s0, sd);
  }

  /** The worked example: a rule name and a count substituted into a one-line body. */
  lemma PreviewExample()
    ensures Preview(Some("规则 {rule_name} 触发 {count} 次")) == "规则 高频支付失败 触发 8 次"
  {
    var sd := SampleData();
    var s0 := "规则 {rule_name} 触发 {count} 次";
    ExampleFirstFour(s0, sd);
    var rest := sd[4..];
    assert sd == sd[..4] + rest;
    RenderAppend(s0, sd[..4], rest);
    RenderWithoutBraces("规则 高频支付失败 触发 8 次", rest);
  }

  /** Previewing a preview changes nothing more. */
  lemma PreviewIdempotent(body: Option<string>)
    ensures RenderWith(Preview(body), SampleData()) == Preview(body)
  {
    SampleDataSeparated();
    RenderIdempotent(body.GetOr(""), SampleData());
  }

  /** The form's editor for new templates, over the shared store. */
  class TemplateEditor {
    const store: TemplateStore
    var editingTemplate: TemplateDraft

    constructor (store: TemplateStore)
      ensures this.store == store && editingTemplate == DefaultTemplateDraft()
    {
      this.store := store;
      editingTemplate := DefaultTemplateDraft();
    }

    /** `handleCreateTemplate`: refuse a blank name or body; otherwise append the new
        template to the store and reset the form. `created` says which happened. */
    method CreateTemplate(id: string) returns (created: bool)
      modifies this, store
      ensures created <==> Filled(old(editingTemplate).name) && Filled(old(editingTemplate).body)
      ensures created ==> (store.templates == old(store.templates) + [NewTemplate(id, old(editingTemplate)).value]
                           && editingTemplate == DefaultTemplateDraft())
      ensures !created ==> store.templates == old(store.templates) && editingTemplate == old(editingTemplate)
    {
      var r := NewTemplate(id, editingTemplate);
      if r.Err? {
        return false;
      }
      store.AddTemplate(r.value);
      editingTemplate := DefaultTemplateDraft();
      created := true;
    }

    /** The "reset" button. */
    method ResetDraft()
      modifies this
      ensures editingTemplate == DefaultTemplateDraft()
    {
      editingTemplate := DefaultTemplateDraft();
    }

    /** `renderPreview`: substitute each sample variable into the draft body in turn. */
    method RenderPreview() returns (preview: string)
      ensures preview == Preview(editingTemplate.body)
    {
      var sample := SampleData();
      preview := editingTemplate.body.GetOr("");
      var i := 0;
      while i < |sample|
        invariant 0 <= i <= |sample|
        invariant preview == RenderWith(editingTemplate.body.GetOr(""), sample[..i])
      {
        assert sample[..i + 1][..i] == sample[..i];
        preview := ReplaceAll(preview, Placeholder(sample[i].0), sample[i].1);
        i := i + 1;
      }
      assert sample[..i] == sample;
    }
  }
}
