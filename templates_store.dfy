/** The shared list of notification templates: an id-keyed list that the template screen
    adds to and the rule screen reads, with add, remove and update. */
module TemplatesStore {
  import opened Basics
  import opened Seqs

  datatype ChannelType = Email | Teams | Webhook
  datatype Format = Html | Plain | Json

  datatype Template = Template(
    id: string,
    name: string,
    channel: ChannelType,
    subject: Option<string>,
    body: string,
    format: Format)

  /** The two templates every store starts with. */
  function InitialTemplates(): seq<Template> {
    [ Template("1", "默认邮件模板", Email, Some("【告警】{rule_name} 触发"), DefaultEmailBody(), Plain),
      Template("2", "Teams 卡片模板", Teams, None, TeamsCardBody(), Json) ]
  }

  function DefaultEmailBody(): string {
    "您好，\n\n" + "规则 \"" + "{rule_name}" + "\" 在 " + "{window_start}" + " 至 " + "{window_end}"
    + " 期间触发了告警。\n"
    + "\n触发次数: " + "{count}" + "\n严重程度: " + "{severity}" + "\n"
    + "\n示例通话ID:\n" + "{call_links}" + "\n"
    + "\n请及时查看并处理。\n" + "\n---\n" + "此邮件由系统自动发送，" + "请勿回复。"
  }

  function TeamsCardBody(): string {
    "{\"@type\":" + "\"MessageCard\"," + "\"@context\":" + "\"https://" + "schema.org/" + "extensions\","
    + "\"summary\":" + "\"告警通知\"," + "\"themeColor\":" + "\"FF0000\","
    + "\"title\":" + "\"告警: " + "{rule_name}\","
    + "\"sections\":[{" + "\"activityTitle\":" + "\"规则触发详情\","
    + "\"facts\":[{" + "\"name\":" + "\"时间窗口\"," + "\"value\":" + "\"{window_start}" + " ~ {window_end}\"},"
    + "{\"name\":" + "\"触发次数\"," + "\"value\":" + "\"{count}\"},"
    + "{\"name\":" + "\"严重程度\"," + "\"value\":" + "\"{severity}\"}]}],"
    + "\"potentialAction\":" + "[{\"@type\":" + "\"OpenUri\"," + "\"name\":" + "\"查看详情\","
    + "\"targets\":" + "[{\"os\":" + "\"default\"," + "\"uri\":" + "\"{dashboard_link}" + "\"}]}]}"
  }

  /** What `removeTemplate(id)` leaves: every template whose id differs, in order. */
  function Removed(ts: seq<Template>, id: string): seq<Template> {
    Filter(ts, (t: Template) => t.id != id)
  }

  /** What `updateTemplate(tpl)` leaves: each template with `tpl`'s id swapped for `tpl`. */
  function Replaced(ts: seq<Template>, tpl: Template): (r: seq<Template>)
    ensures |r| == |ts|
    ensures forall i :: 0 <= i < |ts| ==> r[i] == if ts[i].id == tpl.id then tpl else ts[i]
  {
    if ts == [] then []
    else [if ts[0].id == tpl.id then tpl else ts[0]] + Replaced(ts[1..], tpl)
  }

  function Ids(ts: seq<Template>): (r: seq<string>)
    ensures |r| == |ts| && forall i :: 0 <= i < |ts| ==> r[i] == ts[i].id
  {
    seq(|ts|, i requires 0 <= i < |ts| => ts[i].id)
  }

  predicate HasId(ts: seq<Template>, id: string) {
    exists i :: 0 <= i < |ts| && ts[i].id == id
  }

  /** Only emails carry a subject. */
  predicate SubjectFitsChannel(t: Template) {
    t.subject.Some? <==> t.channel == Email
  }

  /** The starting store: ids "1" and "2", an e-mail template in plain text with a subject
      and a Teams card in JSON without one. */
  lemma InitialTemplatesShape()
    ensures Ids(InitialTemplates()) == ["1", "2"]
    ensures InitialTemplates()[0].channel == Email && InitialTemplates()[0].format == Plain
    ensures InitialTemplates()[1].channel == Teams && InitialTemplates()[1].format == Json
    ensures forall t :: t in InitialTemplates() ==> SubjectFitsChannel(t)
  {
  }

  /** Removal keeps exactly the templates with another id, in their order, each as often as before. */
  lemma RemovedExactly(ts: seq<Template>, id: string)
    ensures forall t :: t in Removed(ts, id) <==> t in ts && t.id != id
    ensures IsSubsequence(Removed(ts, id), ts)
    ensures forall t :: multiset(Removed(ts, id))[t] == if t.id != id then multiset(ts)[t] else 0
  {
    var p := (t: Template) => t.id != id;
    FilterIsSubsequence(ts, p);
    forall t ensures multiset(Removed(ts, id))[t] == if t.id != id then multiset(ts)[t] else 0 {
      FilterMultiplicity(ts, p, t);
    }
  }

  /** Removing or updating an id that is not in the store leaves it unchanged. */
  lemma AbsentIdUnchanged(ts: seq<Template>, tpl: Template, id: string)
    requires !HasId(ts, id) && !HasId(ts, tpl.id)
    ensures Removed(ts, id) == ts
    ensures Replaced(ts, tpl) == ts
  {
    FilterKeepsAll(ts, (t: Template) => t.id != id);
  }

  /** An update never changes the ids, so it keeps their order and their uniqueness. */
  lemma ReplacedKeepsIds(ts: seq<Template>, tpl: Template)
    ensures Ids(Replaced(ts, tpl)) == Ids(ts)
  {
  }

  /** A later update of the same id overrides an earlier one. */
  lemma {:induction false} ReplacedTwice(ts: seq<Template>, a: Template, b: Template)
    requires a.id == b.id
    ensures Replaced(Replaced(ts, a), b) == Replaced(ts, b)
  {
    if ts != [] {
      ReplacedTwice(ts[1..], a, b);
    }
  }

  /** Removing an id erases any update made to it. */
  lemma {:induction false} RemoveAfterReplace(ts: seq<Template>, tpl: Template)
    ensures Removed(Replaced(ts, tpl), tpl.id) == Removed(ts, tpl.id)
  {
    if ts != [] {
      RemoveAfterReplace(ts[1..], tpl);
      assert Replaced(ts, tpl)[1..] == Replaced(ts[1..], tpl);
    }
  }

  /** The store as the template and rule screens share it. */
  class TemplateStore {
    var templates: seq<Template>

    constructor ()
      ensures templates == InitialTemplates()
    {
      templates := InitialTemplates();
    }

    /** `addTemplate`: the new template goes at the end; all others stay where they are. */
    method AddTemplate(tpl: Template)
      modifies this
      ensures templates == old(templates) + [tpl]
      ensures |templates| == |old(templates)| + 1 && templates[..|old(templates)|] == old(templates)
    {
      templates := templates + [tpl];
    }

    /** `removeTemplate`: drop every template with this id. */
    method RemoveTemplate(id: string)
      modifies this
      ensures templates == Removed(old(templates), id)
      ensures forall t :: t in templates <==> t in old(templates) && t.id != id
    {
      templates := Removed(templates, id);
      RemovedExactly(old(templates), id);
    }

    /** `updateTemplate`: the template with `tpl`'s id becomes `tpl`. */
    method UpdateTemplate(tpl: Template)
      modifies this
      ensures templates == Replaced(old(templates), tpl)
    {
      templates := Replaced(templates, tpl);
    }
  }
}
