# Gmail MCP tool handlers in Dafny

This project models the deterministic layer of a small MCP (Model Context
Protocol) server that lets an AI agent manage Gmail filters and labels. The
server registers seven tools. Each tool checks its arguments, makes Gmail API
calls through an authenticated client, and returns a text view and a structured
view of the result. The model covers what the handlers do around those calls:

- the argument rules of every tool;
- create_filter's two admission checks and the request it builds;
- bulk_create_filters' loop, which isolates failures, and its counts;
- how list_filters and list_labels render and project what Gmail returns;
- the echo returned by both delete tools.

The Gmail client is an oracle. `Gmail.Client` is a datatype with one field per
remote call. List calls are values. Create and delete calls are functions of
the request. `createFilter` also takes the call's position within one tool
invocation, so sequential bulk calls can answer differently. Obtaining the
client (`getGmailClient`, which throws without credentials) is a parameter
`access: Result<Client, string>`. The two handlers that send filter creations
are methods that also return the list of requests they sent, so "no upstream
call" is the statement `sent == []`.

Modules: `Wrappers` (Option, Result), `Lists` (order-preserving filter),
`Text` (join, decimal rendering, template interpolation, `.filter(Boolean)`),
`Gmail` (resources, client oracle, error kinds), `Labels`
(gmailmcp/tools/labels.ts), `Filters` (gmailmcp/tools/filters.ts), and
`Scenarios` (fixed example cases, derived from the handlers'
contracts).

JavaScript objects with optional keys are datatypes with `Option` fields.
An absent key is `None`. Truthiness is written out: a string counts when it is
present and non-empty (`Gmail.Truthy`), and a flag is truthy only when it is
`true` (`Gmail.IsTrue`). In create_filter, a boolean criterion counts as given
whenever it is defined, even when it is `false`. Keys are inserted into
create_filter's criteria object in its schema order. So `Object.entries`
yields that fixed order, and the model renders the entries in it.

## Model

| member | source | states |
|---|---|---|
| `Filters.ListFilters` | gmailmcp/tools/filters.ts:25-63 | Client and upstream errors are passed on unchanged. No filters gives the fixed "No filters found" text and an empty list. Otherwise the structured result is the upstream list unchanged, and the text is a header carrying the count followed by the numbered entries. |
| `Filters.FilterLines` | gmailmcp/tools/filters.ts:37-57 | One listing entry per filter, in order; entry `i` renders filter `i` at position `i`. |
| `Filters.FilterNumbering` | gmailmcp/tools/filters.ts:56 | The entry of the filter at position `i` opens with the label `**Filter i+1**`, and that number reads back as `i+1`. |
| `Filters.CriteriaPartsInOrder` | gmailmcp/tools/filters.ts:40-49 | The criteria summary is each field's fragment or nothing, in the fixed order from, to, subject, query, has attachment, exclude chats. |
| `Filters.FalsyCriteriaOmitted` | gmailmcp/tools/filters.ts:41-48 | `hasAttachment: false`, `excludeChats: false` and empty strings render exactly like absent fields. |
| `Filters.CriteriaSummaryNone` | gmailmcp/tools/filters.ts:40-56 | The criteria summary is "none" exactly when no criteria field is truthy. |
| `Filters.ActionParts` | gmailmcp/tools/filters.ts:51-54 | The action fragments are every add-label, then every remove-label, each in the original order, and nothing else. |
| `Filters.ActionSummaryNone` | gmailmcp/tools/filters.ts:51-56 | The action summary is "none" exactly when both label lists are absent or empty. |
| `Filters.RequestFor` | gmailmcp/tools/filters.ts:129-139 | The built criteria hold exactly the truthy strings among from/to/subject/query and the booleans that are defined, with their given values. The built action holds exactly the non-empty label lists. |
| `Filters.BuildRequest` | gmailmcp/tools/filters.ts:129-139 | Conditional field assignment builds exactly `RequestFor`'s request. |
| `Filters.AdmissionMatchesRequest` | gmailmcp/tools/filters.ts:117-139 | The criteria check passes exactly when the built criteria object is not `{}`. The action check passes exactly when the built action object is not `{}`. |
| `Filters.CreateFilter` | gmailmcp/tools/filters.ts:116-161 | The criteria check runs first, so it wins when both checks fail. Either refusal comes back even when no client can be obtained, and no request is sent. Otherwise exactly one request, `RequestFor`, is sent, and an upstream error is passed on. On success the structured result is the returned id with the built criteria and action. |
| `Filters.DeleteFilter` | gmailmcp/tools/filters.ts:176-193 | An absent or empty `filterId` is a schema error. Upstream errors are passed on. Success returns `{deleted: true, filterId}`, echoing the input. |
| `Filters.BulkCreateFilters` | gmailmcp/tools/filters.ts:212-274 | The `filters` length must be 1..50. Every item is sent in input order with its criteria and action verbatim, with no admission check. There is one result per item, with the item's name, a success flag matching that call's outcome, and the id or the error message. A failing call does not stop later items. `succeeded` and `failed` count the two kinds of entry and add up to the number of items. |
| `Filters.CountsAddUp` | gmailmcp/tools/filters.ts:258-259 | Every result entry is counted exactly once, as succeeded or as failed. |
| `Labels.Formatted` | gmailmcp/tools/labels.ts:30-36 | One entry per listed label, in order. Each entry keeps the label's id, name, type and both visibilities. |
| `Labels.OfType` | gmailmcp/tools/labels.ts:38-39 | A section holds exactly the entries of its type. An entry of any other type is in no section. |
| `Labels.OfTypeAppend` | gmailmcp/tools/labels.ts:38-39 | Selecting a section from a concatenation concatenates the selections, so sections keep the listing order. |
| `Labels.SectionSizes` | gmailmcp/tools/labels.ts:38-39 | The two sections together never exceed the listing. They cover it exactly when every label is a user or a system label. |
| `Labels.TextLayout` | gmailmcp/tools/labels.ts:41-46 | The User header, carrying the user section's size, comes first, then the user lines. The System header, carrying the system section's size, follows, then the system lines. |
| `Labels.ListLabels` | gmailmcp/tools/labels.ts:25-52 | Client and upstream errors are passed on. Otherwise the structured result projects every listed label in order, and the text is `LabelsTextLines` joined by newlines. |
| `Labels.ParseMessageListVisibility` | gmailmcp/tools/labels.ts:77-80 | Accepts exactly "show" and "hide" and defaults to show. An accepted value's wire name is the given string. |
| `Labels.ParseLabelListVisibility` | gmailmcp/tools/labels.ts:81-84 | Accepts exactly "labelShow", "labelShowIfUnread" and "labelHide" and defaults to labelShow. An accepted value's wire name is the given string. |
| `Labels.ParseCreateLabelArgs` | gmailmcp/tools/labels.ts:71-85 | Accepts exactly a name of length 1..225 together with valid or omitted visibilities. A rejection names every offending field. |
| `Labels.ParseUnparse` | gmailmcp/tools/labels.ts:71-85 | Every valid argument object, with every field spelled out, validates back to itself. |
| `Labels.CreateLabelDefaults` | gmailmcp/tools/labels.ts:77-84 | Omitted visibilities become show and labelShow. |
| `Labels.CreateLabel` | gmailmcp/tools/labels.ts:93-111 | Schema errors come back first. Otherwise the request carries the given name and visibilities (or their defaults) unchanged. The structured result is the id and name that Gmail returns. |
| `Labels.DeleteLabel` | gmailmcp/tools/labels.ts:126-146 | An absent or empty `labelId` is a schema error. Upstream errors are passed on. Success returns `{deleted: true, labelId}`, echoing the input. |
| `Text.Compact` | gmailmcp/tools/filters.ts:47-48 | `.filter(Boolean)` keeps exactly the present fragments. |
| `Text.CompactAppend` | gmailmcp/tools/filters.ts:47-48 | Compacting a concatenation concatenates the compacted parts, so `.filter(Boolean)` keeps the surviving fragments in their original order. |
| `Text.NatToStringInjective` | gmailmcp/tools/filters.ts:60 | Different counts render as different numbers, so different counts give different headers. |
| `Text.NatToStringRoundTrip` | gmailmcp/tools/filters.ts:60 | A rendered count reads back as the count, so the counts in the headers mean what they say. |
| `Scenarios.FixtureHeaders` | gmailmcp/tools/labels.ts:41-46 | Two user labels and three system labels give the headers "## User Labels (2)" and "## System Labels (3)". |
| `Scenarios.ListLabelsFixture` | gmailmcp/tools/labels.ts:30-50 | Listing those five labels gives five structured entries in the listed order. |
| `Scenarios.BulkFixture` | gmailmcp/tools/filters.ts:242-273 | Three items whose second call throws give 2 succeeded and 1 failed. The entries stay in input order, and the failed one carries its error. |
| `Scenarios.CreateFilterRefusesEmpty` | gmailmcp/tools/filters.ts:118-120 | No criteria and no action produce the criteria error, with no request sent, even when no client can be had. |
| `Scenarios.CreateFilterKeepsFalseFlag` | gmailmcp/tools/filters.ts:118-139 | `hasAttachment: false` alone passes the criteria check, and it is sent, while an empty `from` and an empty remove list are dropped. |
| `Scenarios.BulkSkipsAdmission` | gmailmcp/tools/filters.ts:244-250 | The bulk tool sends an item with empty criteria and action, which create_filter would refuse. |

## Left out

- gmailmcp/dist/index.js and gmailmcp/dist/auth.js are bundler output that duplicates the TypeScript sources, so only the TypeScript is modelled.
- gmailmcp/auth.ts, the interactive OAuth consent flow, is not part of this model. It is all terminal and file I/O.
- gmailmcp/services/gmail.ts, which reads credentials and tokens and persists refreshed tokens, is not part of this model. Its effect is the `access` parameter. `getGmailClient` creates the client once per process and caches it (services/gmail.ts:53-59), so once one invocation has obtained a client, no later one can fail there. The model does not track the cache: each invocation takes `access` as an input, so the model allows any sequence of outcomes, a superset of the source's, where an Ok stays Ok.
- gmailmcp/index.ts (server construction, stdio transport) and the MCP SDK's tool registration and dispatch by name are not modelled. The tools' titles, descriptions and annotation flags carry no behaviour.
- Zod itself is not modelled. Type-shape errors (a number where a string is expected, say) cannot arise, because the Dafny types already rule them out. Only the length, enum, required and default rules are modelled, as predicates and parse functions. The schemas of create_filter and bulk_create_filters constrain no field beyond its type, apart from the length of the bulk list.
- Gmail fields that the handlers neither read nor build are left out: a filter's size criteria, negated query and forward action, and a label's colour. list_filters returns the modelled fields unchanged.
- Async/await is modelled as sequential oracle calls. The exact Gmail error semantics are left out. `err instanceof Error ? err.message : String(err)` is the message string that the oracle returns.
- Interpolating a missing value renders "undefined". A JSON `null` from Gmail would render "null", and the model does not distinguish the two.
- Zod measures string length in UTF-16 code units. The model uses sequence length.
- The round trip create_label then list_labels, where the listing shows the new label, depends on the remote mailbox's state, not on this code, so it is not stated. Listing twice gives identical results because the handlers are functions of the upstream answer.
- The tool description of create_filter (gmailmcp/tools/filters.ts:73) says at least one criterion is required; the check at gmailmcp/tools/filters.ts:118 treats an empty string as absent. The model follows the check.
