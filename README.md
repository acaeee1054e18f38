# Alert configuration UI: handler logic in Dafny

This project models the deterministic logic behind the handlers of a React configuration UI
for an alerting system of a call-monitoring platform. Operators use it to define alert rules
and notification templates and to review fired alerts. The UI contains no rule-evaluation
engine, so none is modelled. What is modelled are the list and string operations its
handlers perform:

- **Template store** (`TemplatesStore`, `web/src/lib/templates-store.tsx`). An id-keyed list of
  notification templates with add, remove and update, and the two templates it starts with.
  `TemplateStore` is a class whose `templates` field the methods reassign.
- **Notification templates** (`NotificationTemplates`, `NotificationTemplates.tsx`). Building a
  template from the form draft, with validation and defaults. The preview substitutes seven
  sample variables into the body with `replaceAll("{key}", value)`, one variable after
  another. `TemplateEditor` holds the draft and shares the store. Its `RenderPreview` is the
  `forEach` loop, proved against `Preview`.
- **Alert list** (`Alerts`, `AlertList.tsx`):
  - the severity, read-state and name-search filter;
  - mark one alert read, and mark all read;
  - the unread counter;
  - the CSV export text;
  - the call-id list shortened to five entries plus a "+N 更多" note.

  `AlertList` holds the alerts and the filter controls.
- **Rule editor** (`RuleCreation`, `RuleCreation.tsx`):
  - building a rule from the draft, with the JavaScript falsy-value defaults;
  - delete and enable-toggle by id;
  - the notification-channel editors, including full `splice` semantics for removal;
  - the comma-separated operand field (`split`/`trim`/`filter(Boolean)`);
  - the template menu filtered by channel type.

  `RuleEditor` holds the rules and the draft.

Some helper modules give JavaScript built-ins a precise meaning:
- `Seqs`: `Array.prototype.filter`, plus a sub-sequence relation.
- `Strings`: `includes`, `replaceAll` with a literal pattern, ASCII `toLowerCase`, and `trim` over the exact ECMAScript whitespace set.
- `Delimited`: `join` and `split` on one character.
- `Decimal`: integer-to-decimal text and its parse.
- `Basics`: `Option` and `Result`, plus JavaScript truthiness of an optional string.

The product's intended rules go further than its handlers enforce. Three examples:
- an e-mail template should carry a subject;
- a rule's threshold should be at least 1;
- a channel's template should be of the channel's type.

The handlers enforce none of these, so the model follows the handlers. `handleCreateTemplate` passes the subject through whatever the channel is. `handleCreateRule` keeps any non-zero number, including negative ones. `updateNotificationTemplate` stores any id. The type rule holds only for choices taken from the filtered menu (`RuleCreation.OfferedChoiceMatchesType`).

## Model

| member | source | states |
|---|---|---|
| TemplatesStore.InitialTemplatesShape | web/src/lib/templates-store.tsx:23-39 | The store starts with ids "1" and "2". The first is an e-mail template in plain text with a subject; the second a Teams card in JSON without one. |
| TemplatesStore.TemplateStore.constructor | web/src/lib/templates-store.tsx:23-39 | The store starts with the two built-in templates. |
| TemplatesStore.TemplateStore.AddTemplate | web/src/lib/templates-store.tsx:44 | The new template is appended at the end. The length grows by one and every earlier entry stays in place. |
| TemplatesStore.TemplateStore.RemoveTemplate | web/src/lib/templates-store.tsx:45 | The new list is the old one without the entries carrying `id`. A template is kept exactly when it was present and has another id. |
| TemplatesStore.RemovedExactly | web/src/lib/templates-store.tsx:45 | Removal keeps exactly the templates with another id. It keeps them in their original order and as often as before. |
| TemplatesStore.TemplateStore.UpdateTemplate | web/src/lib/templates-store.tsx:46-47 | The list becomes the old one with every entry of `tpl.id` replaced. |
| TemplatesStore.Replaced | web/src/lib/templates-store.tsx:46-47 | The length is kept. Entries with `tpl.id` become `tpl`; all others are untouched. |
| TemplatesStore.AbsentIdUnchanged | web/src/lib/templates-store.tsx:45-47 | Removing an absent id leaves the list identical, and so does updating with one. |
| TemplatesStore.ReplacedKeepsIds | web/src/lib/templates-store.tsx:46-47 | An update never changes the sequence of ids. |
| TemplatesStore.ReplacedTwice | web/src/lib/templates-store.tsx:46-47 | A second update of the same id overrides the first. |
| TemplatesStore.RemoveAfterReplace | web/src/lib/templates-store.tsx:45-47 | Removing an id after updating it gives the same list as removing it directly. |
| NotificationTemplates.NewTemplate | web/src/components/settings/NotificationTemplates.tsx:35-47 | Creation succeeds exactly when both the name and the body are non-empty. The template gets the given id, that name and that body. |
| NotificationTemplates.NewTemplateDefaults | web/src/components/settings/NotificationTemplates.tsx:40-47 | An unset type becomes e-mail and an unset format becomes plain; set ones are kept. The subject is passed through unchanged. |
| NotificationTemplates.NewTemplateFromOwnDraft | web/src/components/settings/NotificationTemplates.tsx:40-47 | Creating from the draft of a template with a name and a body rebuilds that template. |
| NotificationTemplates.TemplateEditor.constructor | web/src/components/settings/NotificationTemplates.tsx:26-30 | The form opens with type e-mail, format plain and an empty body. |
| NotificationTemplates.TemplateEditor.CreateTemplate | web/src/components/settings/NotificationTemplates.tsx:34-52 | A blank name or body adds nothing and keeps the draft. Otherwise exactly the new template is appended to the store and the draft is reset. |
| NotificationTemplates.TemplateEditor.ResetDraft | web/src/components/settings/NotificationTemplates.tsx:198 | Reset restores the opening draft. |
| NotificationTemplates.TemplateEditor.RenderPreview | web/src/components/settings/NotificationTemplates.tsx:54-71 | The loop over the sample entries returns `Preview` of the draft body. |
| NotificationTemplates.RenderWithoutBraces | web/src/components/settings/NotificationTemplates.tsx:65-68 | A body without `{` renders to itself, for any variables. |
| NotificationTemplates.RenderWithoutPlaceholders | web/src/components/settings/NotificationTemplates.tsx:65-68 | A body holding none of the placeholders renders to itself. |
| NotificationTemplates.RenderLeavesNoPlaceholder | web/src/components/settings/NotificationTemplates.tsx:65-68 | Take variables whose keys and values have no braces and whose values are part of no key. No `{key}` of theirs survives rendering. |
| NotificationTemplates.RenderKeepsUnknownPlaceholder | web/src/components/settings/NotificationTemplates.tsx:65-68 | A `{key}` whose key is not a variable is still present after rendering. |
| NotificationTemplates.RenderIdempotent | web/src/components/settings/NotificationTemplates.tsx:65-68 | With such variables, rendering a rendered text changes nothing. |
| NotificationTemplates.RenderStep | web/src/components/settings/NotificationTemplates.tsx:66-68 | One more variable applies its `replaceAll` after the earlier ones. |
| NotificationTemplates.RenderAppend | web/src/components/settings/NotificationTemplates.tsx:66-68 | Rendering with two lists of variables in a row is rendering with their concatenation. |
| NotificationTemplates.SampleDataSeparated | web/src/components/settings/NotificationTemplates.tsx:55-63 | The seven sample variables have brace-free keys and values, and no value is part of any key. |
| NotificationTemplates.PreviewOfMissingBody | web/src/components/settings/NotificationTemplates.tsx:65 | A missing body previews as the empty string. |
| NotificationTemplates.PreviewWithoutBraces | web/src/components/settings/NotificationTemplates.tsx:65-68 | A body without `{` previews as itself. |
| NotificationTemplates.PreviewReplacesEveryVariable | web/src/components/settings/NotificationTemplates.tsx:55-68 | None of the seven placeholders survives in a preview. |
| NotificationTemplates.PreviewKeepsUnknownPlaceholder | web/src/components/settings/NotificationTemplates.tsx:55-68 | A placeholder outside the seven keys, such as `{examples}`, stays verbatim. |
| NotificationTemplates.PreviewExample | web/src/components/settings/NotificationTemplates.tsx:55-68 | `规则 {rule_name} 触发 {count} 次` previews as `规则 高频支付失败 触发 8 次`. |
| NotificationTemplates.PreviewIdempotent | web/src/components/settings/NotificationTemplates.tsx:54-71 | Previewing a preview changes nothing. |
| Strings.ReplaceAllAbsent | web/src/components/settings/NotificationTemplates.tsx:67 | `replaceAll` of a pattern that does not occur returns the text unchanged. |
| Strings.ReplaceAllCreatesNoPlaceholder | web/src/components/settings/NotificationTemplates.tsx:67 | Replacing with a brace-free value that is part of no key creates no placeholder that was absent before. It also removes every occurrence of the pattern itself. |
| Strings.ReplaceAllKeepsOtherPlaceholder | web/src/components/settings/NotificationTemplates.tsx:67 | Replacing one placeholder keeps every occurrence of a different one. |
| Strings.ToLower | web/src/components/settings/AlertList.tsx:82 | Lower-casing keeps the length and maps each character by itself. No upper-case ASCII letter is left. |
| Strings.ToLowerIdempotent | web/src/components/settings/AlertList.tsx:82 | Lower-casing twice is lower-casing once. |
| Alerts.SeverityNameInjective | web/src/components/settings/AlertList.tsx:13 | Distinct severities have distinct names, so comparing names compares severities. |
| Alerts.InitialUnreadCount | web/src/components/settings/AlertList.tsx:23-72 | Of the four starting alerts exactly one is unread. |
| Alerts.AlertList.constructor | web/src/components/settings/AlertList.tsx:23-76 | The screen starts with the four mock alerts and every filter at "all" or empty. |
| Alerts.FilteredExactly | web/src/components/settings/AlertList.tsx:78-84 | The filtered list is an order-preserving sub-list. It holds exactly the alerts that pass all filters. |
| Alerts.SeverityFilter | web/src/components/settings/AlertList.tsx:79 | A severity other than "all" keeps exactly the alerts of that severity among those "all" would show. |
| Alerts.ReadFilter | web/src/components/settings/AlertList.tsx:80-81 | "unread" shows exactly the unread alerts that "all" shows, and "read" exactly the read ones. "all" shows every alert either of them shows. |
| Alerts.SearchFilter | web/src/components/settings/AlertList.tsx:82 | A non-empty query keeps exactly the alerts whose lower-cased rule name contains the lower-cased query. |
| Alerts.NoFilterKeepsAll | web/src/components/settings/AlertList.tsx:74-84 | With the initial filter values every alert is shown, in order. |
| Alerts.MarkedReadEffect | web/src/components/settings/AlertList.tsx:87 | An alert becomes read exactly when it was read or carries the id. No other field changes. |
| Alerts.MarkedReadIdempotent | web/src/components/settings/AlertList.tsx:87 | Marking the same id twice equals marking it once. |
| Alerts.MarkedReadAbsent | web/src/components/settings/AlertList.tsx:87 | Marking an id no alert carries changes nothing. |
| Alerts.MarkedReadUnreadCount | web/src/components/settings/AlertList.tsx:86-88 | Marking read never raises the unread counter. |
| Alerts.AlertList.MarkAsRead | web/src/components/settings/AlertList.tsx:86-88 | The alerts become `MarkedRead` of the old list and the filters are unchanged. |
| Alerts.AllReadEffect | web/src/components/settings/AlertList.tsx:90-92 | Every alert is read afterwards, with every other field unchanged, and the unread counter is 0. |
| Alerts.AlertList.MarkAllAsRead | web/src/components/settings/AlertList.tsx:90-92 | The alerts become `AllRead` of the old list and the unread counter is 0. |
| Alerts.UnreadCount | web/src/components/settings/AlertList.tsx:137 | The counter never exceeds the number of alerts. |
| Alerts.UnreadCountZero | web/src/components/settings/AlertList.tsx:137 | The counter is 0 exactly when every alert is read. |
| Alerts.CsvStartsWithHeader | web/src/components/settings/AlertList.tsx:95-107 | The first line of the export is always the eight-column header. |
| Alerts.CsvLines | web/src/components/settings/AlertList.tsx:95-107 | When no cell holds a newline, the export has 1 + n lines: the header, then one row per alert, in order. |
| Alerts.RowRoundTrip | web/src/components/settings/AlertList.tsx:97-106 | When no cell holds a comma, a row splits back into its eight cells. The count parses back from its cell. The call ids split back on `;` when none contains one. |
| Alerts.AlertList.Export | web/src/components/settings/AlertList.tsx:94-107 | The export is the CSV of the filtered alerts, and its first line is the header. |
| Alerts.ShownCallIds | web/src/components/settings/AlertList.tsx:253 | At most five call ids are shown, and they are the first ones. |
| Alerts.MoreNote | web/src/components/settings/AlertList.tsx:264-268 | The "+N 更多" note appears exactly when there are more than five call ids. |
| Alerts.CallIdsAccounted | web/src/components/settings/AlertList.tsx:253-268 | The shown ids followed by the hidden ones are all the ids, and the note counts the hidden ones. With five or fewer, all are shown and there is no note. |
| Alerts.MoreNoteCount | web/src/components/settings/AlertList.tsx:264-268 | The number in the note parses back to the count of hidden call ids. |
| Decimal.IntToStringRoundTrip | web/src/components/settings/AlertList.tsx:104 | The decimal text of a count parses back to that count. |
| Delimited.SplitJoin | web/src/components/settings/AlertList.tsx:95-107 | Joining separator-free parts and splitting on the separator gives the parts back. |
| RuleCreation.NumberOr | web/src/components/settings/RuleCreation.tsx:82-84 | A missing, NaN or zero numeric input gives the default; any other number is kept. |
| RuleCreation.NewRule | web/src/components/settings/RuleCreation.tsx:69-88 | Creation succeeds exactly when both the name and the trigger tag are non-empty. The rule carries the id, that name and that tag. |
| RuleCreation.NewRuleDefaults | web/src/components/settings/RuleCreation.tsx:79-88 | The defaults, field by field:<br>- window, threshold and cooldown become 30, 5 and 1200 when missing, NaN or 0;<br>- `enabled` is true unless explicitly false;<br>- an empty or missing operator becomes "IN";<br>- severity, tag type, values and channels fall back only when unset. |
| RuleCreation.NewRuleFromDefaultDraft | web/src/components/settings/RuleCreation.tsx:57-88 | The opening draft plus a name and a tag gives an enum/IN rule. It has no values, 30/5/1200, is enabled, has warning severity and no channels. |
| RuleCreation.NewRuleFromOwnDraft | web/src/components/settings/RuleCreation.tsx:75-88 | The draft of a rule with truthy text fields and numbers rebuilds that rule. |
| RuleCreation.RuleEditor.constructor | web/src/components/settings/RuleCreation.tsx:37-67 | The screen starts with the one mock rule and the opening draft. |
| RuleCreation.RuleEditor.CreateRule | web/src/components/settings/RuleCreation.tsx:69-103 | A blank name or tag leaves the rules and the draft unchanged. Otherwise exactly the new rule is appended and the draft is reset. |
| RuleCreation.RulesWithoutExactly | web/src/components/settings/RuleCreation.tsx:106 | Deletion keeps exactly the rules with another id, in order. An absent id changes nothing. |
| RuleCreation.RuleEditor.DeleteRule | web/src/components/settings/RuleCreation.tsx:105-108 | The rules become `RulesWithout` of the old list and the draft is unchanged. |
| RuleCreation.ToggledEffect | web/src/components/settings/RuleCreation.tsx:111 | `enabled` flips on the rules with the id, and nothing else changes. |
| RuleCreation.ToggledTwice | web/src/components/settings/RuleCreation.tsx:111 | Toggling twice is the identity. |
| RuleCreation.RuleEditor.ToggleRule | web/src/components/settings/RuleCreation.tsx:110-112 | The rules become `Toggled` of the old list and the draft is unchanged. |
| RuleCreation.RuleEditor.AddNotificationChannel | web/src/components/settings/RuleCreation.tsx:114-122 | An e-mail channel with no target and no template is appended. An unset list counts as empty. |
| RuleCreation.SplicedOut | web/src/components/settings/RuleCreation.tsx:124-128 | `splice(index, 1)` shortens a non-empty list by one for any index below its length, and otherwise keeps the length. |
| RuleCreation.SplicedOutAt | web/src/components/settings/RuleCreation.tsx:124-128 | For a shown index, exactly that entry is removed and the rest keep their order. |
| RuleCreation.RemoveAfterAdd | web/src/components/settings/RuleCreation.tsx:114-128 | Removing the just-added channel gives back the list before, by its index or by -1. |
| RuleCreation.RuleEditor.RemoveNotificationChannel | web/src/components/settings/RuleCreation.tsx:124-128 | The channel list becomes `SplicedOut` of the old one and nothing else changes. |
| RuleCreation.EditedChannel | web/src/components/settings/RuleCreation.tsx:130-138 | A new type clears the chosen template. A new target keeps it. |
| RuleCreation.ChannelsEdited | web/src/components/settings/RuleCreation.tsx:130-138 | Only the entry at the index changes, and the length is kept. |
| RuleCreation.RetargetBack | web/src/components/settings/RuleCreation.tsx:135 | Setting a target and then the old one back restores the list. |
| RuleCreation.RuleEditor.UpdateNotificationChannel | web/src/components/settings/RuleCreation.tsx:130-138 | The channel list becomes `ChannelsEdited` of the old one and nothing else changes. |
| RuleCreation.TemplateChosen | web/src/components/settings/RuleCreation.tsx:140-144 | Only the entry at the index gets the template id. |
| RuleCreation.TypeChangeClearsChoice | web/src/components/settings/RuleCreation.tsx:130-144 | A type change after a template choice leaves no template. The result is the same as if none had been chosen. |
| RuleCreation.RuleEditor.UpdateNotificationTemplate | web/src/components/settings/RuleCreation.tsx:140-144 | The channel list becomes `TemplateChosen` of the old one and nothing else changes. |
| RuleCreation.ParseValues | web/src/components/settings/RuleCreation.tsx:281 | Every parsed value is non-empty, has no surrounding whitespace and no comma. |
| RuleCreation.ParseJoinedValues | web/src/components/settings/RuleCreation.tsx:278-281 | The field shows `values.join(",")`. Parsing that text gives the values back when each is non-empty, trimmed and comma-free. |
| RuleCreation.ParseValuesStable | web/src/components/settings/RuleCreation.tsx:278-281 | Re-reading the re-displayed values changes nothing. |
| RuleCreation.RuleEditor.SetValuesText | web/src/components/settings/RuleCreation.tsx:279-282 | The draft's values become `ParseValues` of the typed text. |
| RuleCreation.RuleEditor.ResetDraft | web/src/components/settings/RuleCreation.tsx:401 | Reset clears every draft field and keeps the rules. |
| RuleCreation.TemplatesForExactly | web/src/components/settings/RuleCreation.tsx:360 | The menu holds exactly the store's templates of the channel's type, in store order. |
| RuleCreation.TemplatesForPartition | web/src/components/settings/RuleCreation.tsx:360 | Every template appears in exactly one channel type's menu. |
| RuleCreation.OfferedChoiceMatchesType | web/src/components/settings/RuleCreation.tsx:352-362 | A template picked from a channel's menu is of that channel's type. |
| Strings.Trim | web/src/components/settings/RuleCreation.tsx:281 | `trim` returns a string with no whitespace at either end, no longer than its input. |
| Strings.TrimSlice | web/src/components/settings/RuleCreation.tsx:281 | The trimmed string is a slice of the input. Everything cut before and after it is whitespace. |
| Strings.TrimOfTrimmed | web/src/components/settings/RuleCreation.tsx:281 | A string with no whitespace at either end trims to itself. |
| Strings.TrimIdempotent | web/src/components/settings/RuleCreation.tsx:281 | Trimming twice is trimming once. |
| Delimited.JoinSplit | web/src/components/settings/RuleCreation.tsx:281 | Splitting and re-joining on the separator gives the text back. |
| Delimited.SplitCount | web/src/components/settings/RuleCreation.tsx:281 | `split` yields one more piece than there are separators. |
| Seqs.FilterIsSubsequence | web/src/lib/templates-store.tsx:45 | `filter` yields an order-preserving sub-list. |
| Seqs.FilterMultiplicity | web/src/lib/templates-store.tsx:45 | `filter` keeps each passing value as often as it occurs and drops the others. |

## Left out

- JSX rendering, layout, badges, tabs, icons, and the preview/edit toggle (`previewMode`) are presentation only.
- The dashboard page, both settings dialogs and the two App files are not part of this model: they hold static mock data or compose components.
- Toast messages are console output. Each creating handler instead returns whether it created something.
- `Date.now()` ids are nondeterministic, so the id is a parameter of `CreateTemplate` and `CreateRule`.
- The file download in the export is browser I/O (Blob, object URL, anchor click); only the CSV text is modelled.
- The React context and memo plumbing of the store, including `useTemplates` throwing outside its provider, is left out. The editors reach the store through a shared `TemplateStore` object.
- The duplicate local `Template` interface in the templates screen is replaced by the store's single `Template` datatype.
- The single-field setters of both forms (name, tag, type, format, subject, body, severity, operator, numeric inputs) each overwrite one draft field. That is a datatype update in Dafny, so they are not separate members. The alert list's filter controls (`setFilterSeverity`, `setFilterRead`, `setSearchQuery`, AlertList.tsx:74-76) are plain field writes of the same kind; `AlertList` holds the three filter fields but has no setter methods for them. `parseInt` is not modelled: a numeric input is whatever number or NaN it produced.
- The operator options offered per tag type (RuleCreation.tsx:241-268) are only a menu. No handler checks them.
- Strings are `seq<char>`, one element per Unicode scalar value. JavaScript strings are UTF-16 code units, so `trim`, `split`, `includes` and lengths can differ on characters outside the Basic Multilingual Plane.
- Strings.ToLower: lower-cases the ASCII letters only. JavaScript's `toLowerCase` also maps non-ASCII letters, so a search with non-ASCII capitals is modelled case-sensitively.
- Strings.ReplaceAll: uses the replacement text literally. JavaScript would interpret `$` patterns in it, but none of the sample values contains `$`.
- Decimal.IntToString: formats integers only. A JavaScript count that is fractional or at least 1e21 would print differently; the model's count is an unbounded `int`.
- RuleCreation.RuleEditor.UpdateNotificationChannel: requires an index inside the list. The UI passes only indices of rendered channels; JavaScript would grow the array for any other index.
- RuleCreation.RuleEditor.UpdateNotificationTemplate: requires an index inside the list, for the same reason.
