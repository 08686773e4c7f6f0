/** The filter tools of gmailmcp/tools/filters.ts: list, create, delete and bulk-create filters. */
module Filters {
  import opened Wrappers
  import opened Text
  import opened Lists
  import opened Gmail

  // ---------------------------------------------------------------- list_filters

  /** One criteria fragment of the listing: `value && `${key}: ${value}``. */
  function TextSlot(key: string, value: Option<string>): Option<string> {
    if Truthy(value) then Some(key + ": " + value.value) else None
  }

  /** One flag fragment of the listing: `flag && text`. */
  function FlagSlot(text: string, flag: Option<bool>): Option<string> {
    if IsTrue(flag) then Some(text) else None
  }

  /** The six candidate fragments, in their fixed order. */
  function CriteriaSlots(c: Criteria): seq<Option<string>> {
    [TextSlot("from", c.from), TextSlot("to", c.to), TextSlot("subject", c.subject), TextSlot("query", c.query),
     FlagSlot("has attachment", c.hasAttachment), FlagSlot("exclude chats", c.excludeChats)]
  }

  /** The criteria fragments that survive `.filter(Boolean)`. */
  function CriteriaParts(c: Criteria): seq<string> {
    Compact(CriteriaSlots(c))
  }

  /**
   * The criteria summary is each field's fragment, or nothing when the field is
   * falsy, in the fixed order from, to, subject, query, hasAttachment, excludeChats.
   */
  lemma CriteriaPartsInOrder(c: Criteria)
    ensures CriteriaParts(c) ==
      Emit(TextSlot("from", c.from)) + (Emit(TextSlot("to", c.to)) + (Emit(TextSlot("subject", c.subject)) +
      (Emit(TextSlot("query", c.query)) + (Emit(FlagSlot("has attachment", c.hasAttachment)) +
      Emit(FlagSlot("exclude chats", c.excludeChats))))))
  {
    CompactSix(TextSlot("from", c.from), TextSlot("to", c.to), TextSlot("subject", c.subject),
      TextSlot("query", c.query), FlagSlot("has attachment", c.hasAttachment),
      FlagSlot("exclude chats", c.excludeChats));
  }

  /** A falsy field renders exactly as an absent one: `hasAttachment: false` and empty strings are dropped. */
  lemma FalsyCriteriaOmitted(c: Criteria)
    ensures CriteriaParts(c.(hasAttachment := Some(false))) == CriteriaParts(c.(hasAttachment := None))
    ensures CriteriaParts(c.(excludeChats := Some(false))) == CriteriaParts(c.(excludeChats := None))
    ensures CriteriaParts(c.(from := Some(""))) == CriteriaParts(c.(from := None))
    ensures CriteriaParts(c.(to := Some(""))) == CriteriaParts(c.(to := None))
    ensures CriteriaParts(c.(subject := Some(""))) == CriteriaParts(c.(subject := None))
    ensures CriteriaParts(c.(query := Some(""))) == CriteriaParts(c.(query := None))
  {
  }

  /** The action fragments: every label to add, then every label to remove, each list in its order. */
  function ActionParts(a: Action): (parts: seq<string>)
    ensures var add, remove := a.addLabelIds.GetOr([]), a.removeLabelIds.GetOr([]);
      |parts| == |add| + |remove| &&
      (forall i :: 0 <= i < |add| ==> parts[i] == "add label: " + add[i]) &&
      (forall j :: 0 <= j < |remove| ==> parts[|add| + j] == "remove label: " + remove[j])
  {
    Framed("add label: ", a.addLabelIds.GetOr([]), "") + Framed("remove label: ", a.removeLabelIds.GetOr([]), "")
  }

  /** `summary || "none"`. */
  function OrNone(summary: string): string {
    if summary == "" then "none" else summary
  }

  function CriteriaSummary(c: Criteria): string {
    OrNone(Join(CriteriaParts(c), ", "))
  }

  function ActionSummary(a: Action): string {
    OrNone(Join(ActionParts(a), ", "))
  }

  /** The criteria summary reads "none" exactly when no criteria field is truthy. */
  lemma CriteriaSummaryNone(c: Criteria)
    ensures CriteriaSummary(c) == "none" <==>
      !Truthy(c.from) && !Truthy(c.to) && !Truthy(c.subject) && !Truthy(c.query) &&
      !IsTrue(c.hasAttachment) && !IsTrue(c.excludeChats)
  {
    var parts := CriteriaParts(c);
    if parts != [] {
      assert parts[0] in parts;
      assert Some(parts[0]) in CriteriaSlots(c);
      assert |parts[0]| > 4;
      assert parts[0] <= Join(parts, ", ");
    }
  }

  /** The action summary reads "none" exactly when both label lists are absent or empty. */
  lemma ActionSummaryNone(a: Action)
    ensures ActionSummary(a) == "none" <==> a.addLabelIds.GetOr([]) == [] && a.removeLabelIds.GetOr([]) == []
  {
  }

  /** The bold number heading a filter's entry. */
  function FilterLabel(n: nat): string {
    "**Filter " + NatToString(n) + "**"
  }

  /** The listing entry of the filter at zero-based position `i`. */
  function FilterLine(i: nat, f: Filter): string {
    FilterLabel(i + 1) + " (id: `" + Display(f.id) + "`)\n  Criteria: " + CriteriaSummary(f.criteria.GetOr(EmptyCriteria)) +
    "\n  Actions: " + ActionSummary(f.action.GetOr(EmptyAction))
  }

  function FilterLines(filters: seq<Filter>): (r: seq<string>)
    ensures |r| == |filters|
    ensures forall i :: 0 <= i < |filters| ==> r[i] == FilterLine(i, filters[i])
  {
    seq(|filters|, i requires 0 <= i < |filters| => FilterLine(i, filters[i]))
  }

  /** The filter at position `i` is numbered `i + 1`, and that number reads back as `i + 1`. */
  lemma FilterNumbering(filters: seq<Filter>, i: nat)
    requires i < |filters|
    ensures FilterLabel(i + 1) <= FilterLines(filters)[i]
    ensures DigitsValue(NatToString(i + 1)) == i + 1
  {
    NatToStringRoundTrip(i + 1);
  }

  const NoFiltersText := "No filters found in this Gmail account."

  function FiltersHeader(n: nat): string {
    "## Gmail Filters (" + NatToString(n) + ")\n\n"
  }

  /**
   * gmail_list_filters: no filters gives the fixed message and an empty list;
   * otherwise the text opens with a header counting the filters, and the
   * structured result is the upstream list unchanged.
   */
  function ListFilters(access: Result<Client, string>): (r: Result<Reply<seq<Filter>>, ToolError>)
    ensures access.Err? ==> r == Err(ClientUnavailable(access.error))
    ensures access.Ok? && access.value.listFilters.Err? ==> r == Err(UpstreamError(access.value.listFilters.error))
    ensures access.Ok? && access.value.listFilters.Ok? ==>
      var filters := access.value.listFilters.value.GetOr([]);
      r.Ok? &&
      (filters == [] ==> r.value == Reply(NoFiltersText, [])) &&
      (filters != [] ==>
        r.value.structured == filters && FiltersHeader(|filters|) <= r.value.text &&
        r.value.text[|FiltersHeader(|filters|)|..] == Join(FilterLines(filters), "\n\n"))
  {
    match access
    case Err(m) => Err(ClientUnavailable(m))
    case Ok(client) =>
      match client.listFilters
      case Err(m) => Err(UpstreamError(m))
      case Ok(listed) =>
        var filters := listed.GetOr([]);
        if |filters| == 0 then Ok(Reply(NoFiltersText, []))
        else Ok(Reply(FiltersHeader(|filters|) + Join(FilterLines(filters), "\n\n"), filters))
  }

  // ---------------------------------------------------------------- create_filter

  /** The arguments of gmail_create_filter; every field is optional in its schema. */
  datatype CreateFilterArgs = CreateFilterArgs(
    from: Option<string>,
    to: Option<string>,
    subject: Option<string>,
    query: Option<string>,
    hasAttachment: Option<bool>,
    excludeChats: Option<bool>,
    addLabelIds: Option<seq<string>>,
    removeLabelIds: Option<seq<string>>)

  /** The criteria check passes: a truthy string criterion, or a boolean criterion given at all (even `false`). */
  predicate CriteriaGiven(a: CreateFilterArgs) {
    Truthy(a.from) || Truthy(a.to) || Truthy(a.subject) || Truthy(a.query) ||
    a.hasAttachment.Some? || a.excludeChats.Some?
  }

  /** The action check passes: one of the label lists is non-empty. */
  predicate ActionGiven(a: CreateFilterArgs) {
    NonEmpty(a.addLabelIds) || NonEmpty(a.removeLabelIds)
  }

  const CriteriaRequired :=
    "At least one filter criteria is required (from, to, subject, query, hasAttachment, or excludeChats)."

  const ActionRequired := "At least one action is required (addLabelIds or removeLabelIds)."

  /** `built` keeps `given` when it is truthy and is absent otherwise. */
  predicate KeptIfTruthy(given: Option<string>, built: Option<string>) {
    (built.Some? <==> Truthy(given)) && (built.Some? ==> built == given)
  }

  /** `built` keeps `given` when it is a non-empty list and is absent otherwise. */
  predicate KeptIfNonEmpty(given: Option<seq<string>>, built: Option<seq<string>>) {
    (built.Some? <==> NonEmpty(given)) && (built.Some? ==> built == given)
  }

  /**
   * The request create_filter sends: the truthy strings, the booleans that
   * are given (with their values) and the non-empty label lists, nothing else.
   */
  function RequestFor(a: CreateFilterArgs): (request: FilterRequest)
    ensures KeptIfTruthy(a.from, request.criteria.from) && KeptIfTruthy(a.to, request.criteria.to)
    ensures KeptIfTruthy(a.subject, request.criteria.subject) && KeptIfTruthy(a.query, request.criteria.query)
    ensures request.criteria.hasAttachment == a.hasAttachment && request.criteria.excludeChats == a.excludeChats
    ensures KeptIfNonEmpty(a.addLabelIds, request.action.addLabelIds)
    ensures KeptIfNonEmpty(a.removeLabelIds, request.action.removeLabelIds)
  {
    FilterRequest(
      Criteria(
        if Truthy(a.from) then a.from else None,
        if Truthy(a.to) then a.to else None,
        if Truthy(a.subject) then a.subject else None,
        if Truthy(a.query) then a.query else None,
        a.hasAttachment,
        a.excludeChats),
      Action(
        if NonEmpty(a.addLabelIds) then a.addLabelIds else None,
        if NonEmpty(a.removeLabelIds) then a.removeLabelIds else None))
  }

  /** The two admission checks pass exactly when the criteria, resp. action, object built from the arguments is not `{}`. */
  lemma AdmissionMatchesRequest(a: CreateFilterArgs)
    ensures CriteriaGiven(a) <==> RequestFor(a).criteria != EmptyCriteria
    ensures ActionGiven(a) <==> RequestFor(a).action != EmptyAction
  {
  }

  /** Builds the criteria and action objects by conditional field assignment. */
  method BuildRequest(a: CreateFilterArgs) returns (request: FilterRequest)
    ensures request == RequestFor(a)
  {
    var criteria := EmptyCriteria;
    if Truthy(a.from) { criteria := criteria.(from := a.from); }
    if Truthy(a.to) { criteria := criteria.(to := a.to); }
    if Truthy(a.subject) { criteria := criteria.(subject := a.subject); }
    if Truthy(a.query) { criteria := criteria.(query := a.query); }
    if a.hasAttachment.Some? { criteria := criteria.(hasAttachment := a.hasAttachment); }
    if a.excludeChats.Some? { criteria := criteria.(excludeChats := a.excludeChats); }
    var action := EmptyAction;
    if NonEmpty(a.addLabelIds) { action := action.(addLabelIds := a.addLabelIds); }
    if NonEmpty(a.removeLabelIds) { action := action.(removeLabelIds := a.removeLabelIds); }
    request := FilterRequest(criteria, action);
  }

  /** `Object.entries(criteria).map(([k, v]) => `${k}: ${v}`)`, entries in insertion order. */
  function CriteriaEntries(c: Criteria): seq<string> {
    Compact([
      if c.from.Some? then Some("from: " + c.from.value) else None,
      if c.to.Some? then Some("to: " + c.to.value) else None,
      if c.subject.Some? then Some("subject: " + c.subject.value) else None,
      if c.query.Some? then Some("query: " + c.query.value) else None,
      if c.hasAttachment.Some? then Some("hasAttachment: " + BoolText(c.hasAttachment.value)) else None,
      if c.excludeChats.Some? then Some("excludeChats: " + BoolText(c.excludeChats.value)) else None])
  }

  function CreatedFilterText(id: Option<string>, criteria: Criteria, a: CreateFilterArgs): string {
    var actions := Framed("add label \"", a.addLabelIds.GetOr([]), "\"") +
      Framed("remove label \"", a.removeLabelIds.GetOr([]), "\"");
    "✅ Filter created successfully!\n- ID: `" + Display(id) + "`\n- Criteria: " + Join(CriteriaEntries(criteria), ", ") +
    "\n- Actions: " + Join(actions, ", ")
  }

  /** The structured result of gmail_create_filter. */
  datatype CreatedFilter = CreatedFilter(id: Option<string>, criteria: Criteria, action: Action)

  /**
   * gmail_create_filter. Returns the result and the create requests sent upstream.
   * The criteria check runs first, then the action check; either refusal is
   * reported before the client is obtained and without any request sent.
   */
  method CreateFilter(a: CreateFilterArgs, access: Result<Client, string>)
    returns (r: Result<Reply<CreatedFilter>, ToolError>, sent: seq<FilterRequest>)
    ensures !CriteriaGiven(a) ==> r == Err(Refused(CriteriaRequired)) && sent == []
    ensures CriteriaGiven(a) && !ActionGiven(a) ==> r == Err(Refused(ActionRequired)) && sent == []
    ensures CriteriaGiven(a) && ActionGiven(a) && access.Err? ==> r == Err(ClientUnavailable(access.error)) && sent == []
    ensures CriteriaGiven(a) && ActionGiven(a) && access.Ok? ==>
      sent == [RequestFor(a)] &&
      match access.value.createFilter(0, RequestFor(a))
      case Err(m) => r == Err(UpstreamError(m))
      case Ok(f) => r.Ok? && r.value.structured == CreatedFilter(f.id, RequestFor(a).criteria, RequestFor(a).action)
  {
    if !CriteriaGiven(a) {
      return Err(Refused(CriteriaRequired)), [];
    }
    if !ActionGiven(a) {
      return Err(Refused(ActionRequired)), [];
    }
    if access.Err? {
      return Err(ClientUnavailable(access.error)), [];
    }
    var client := access.value;
    var request := BuildRequest(a);
    sent := [request];
    match client.createFilter(0, request) {
      case Err(m) =>
        r := Err(UpstreamError(m));
      case Ok(f) =>
        var text := CreatedFilterText(f.id, request.criteria, a);
        r := Ok(Reply(text, CreatedFilter(f.id, request.criteria, request.action)));
    }
  }

  // ---------------------------------------------------------------- delete_filter

  /** The structured result of gmail_delete_filter. */
  datatype FilterDeletion = FilterDeletion(deleted: bool, filterId: string)

  /**
   * gmail_delete_filter: an absent or empty id is a schema error; otherwise the
   * upstream error is passed on verbatim, and a success echoes the id.
   */
  function DeleteFilter(filterId: Option<string>, access: Result<Client, string>): (r: Result<Reply<FilterDeletion>, ToolError>)
    ensures !ValidId(filterId) ==> r == Err(InvalidArguments(["filterId"]))
    ensures ValidId(filterId) && access.Err? ==> r == Err(ClientUnavailable(access.error))
    ensures ValidId(filterId) && access.Ok? ==>
      match access.value.deleteFilter(filterId.value)
      case Err(m) => r == Err(UpstreamError(m))
      case Ok(_) => r.Ok? && r.value.structured == FilterDeletion(true, filterId.value)
  {
    if !ValidId(filterId) then Err(InvalidArguments(["filterId"]))
    else
      match access
      case Err(m) => Err(ClientUnavailable(m))
      case Ok(client) =>
        match client.deleteFilter(filterId.value)
        case Err(m) => Err(UpstreamError(m))
        case Ok(_) => Ok(Reply("✅ Filter `" + filterId.value + "` deleted successfully.", FilterDeletion(true, filterId.value)))
  }

  // ---------------------------------------------------------------- bulk_create_filters

  /** One element of gmail_bulk_create_filters' `filters` argument. */
  datatype BulkItem = BulkItem(name: string, criteria: Criteria, action: Action)

  /** One per-item outcome: an id on success, an error message on failure. */
  datatype BulkEntry = BulkEntry(name: string, success: bool, id: Option<string>, error: Option<string>)

  /** The structured result of gmail_bulk_create_filters. */
  datatype BulkReport = BulkReport(results: seq<BulkEntry>, succeeded: nat, failed: nat)

  const MaxBulkFilters := 50

  /** `.min(1).max(50)` on the `filters` array. */
  predicate ValidBulkSize(n: nat) {
    1 <= n <= MaxBulkFilters
  }

  /** `entry` records the item named `name` whose create call answered `response`. */
  predicate Records(entry: BulkEntry, name: string, response: Response<Filter>) {
    entry.name == name &&
    (entry.success <==> response.Ok?) &&
    (response.Ok? ==> entry.id == response.value.id && entry.error.None?) &&
    (response.Err? ==> entry.error == Some(response.error) && entry.id.None?)
  }

  function Succeeded(results: seq<BulkEntry>): seq<BulkEntry> {
    Where(results, (e: BulkEntry) => e.success)
  }

  function Failed(results: seq<BulkEntry>): seq<BulkEntry> {
    Where(results, (e: BulkEntry) => !e.success)
  }

  /** Every entry is counted once: as succeeded or as failed. */
  lemma {:induction false} CountsAddUp(results: seq<BulkEntry>)
    ensures |Succeeded(results)| + |Failed(results)| == |results|
    decreases |results|
  {
    if results != [] {
      CountsAddUp(results[1..]);
    }
  }

  function ResultLine(e: BulkEntry): string {
    if e.success then "✅ **" + e.name + "** — id: `" + Display(e.id) + "`"
    else "❌ **" + e.name + "** — " + Display(e.error)
  }

  function BulkText(results: seq<BulkEntry>, succeeded: nat, failed: nat): string {
    var lines := seq(|results|, i requires 0 <= i < |results| => ResultLine(results[i]));
    Join(["## Bulk Filter Creation Results",
          "✅ " + NatToString(succeeded) + " created, ❌ " + NatToString(failed) + " failed\n"] + lines, "\n")
  }

  /**
   * gmail_bulk_create_filters. Returns the result and the create requests sent
   * upstream. Every item is sent in order with its criteria and action
   * verbatim (no admission check), a failing call is recorded and the loop
   * goes on, and the counts partition the entries.
   */
  method BulkCreateFilters(items: seq<BulkItem>, access: Result<Client, string>)
    returns (r: Result<Reply<BulkReport>, ToolError>, sent: seq<FilterRequest>)
    ensures !ValidBulkSize(|items|) ==> r == Err(InvalidArguments(["filters"])) && sent == []
    ensures ValidBulkSize(|items|) && access.Err? ==> r == Err(ClientUnavailable(access.error)) && sent == []
    ensures ValidBulkSize(|items|) && access.Ok? ==>
      |sent| == |items| &&
      (forall k :: 0 <= k < |items| ==> sent[k] == FilterRequest(items[k].criteria, items[k].action)) &&
      r.Ok? &&
      var report := r.value.structured;
      |report.results| == |items| &&
      (forall k :: 0 <= k < |items| ==>
        Records(report.results[k], items[k].name, access.value.createFilter(k, sent[k]))) &&
      report.succeeded == |Succeeded(report.results)| && report.failed == |Failed(report.results)| &&
      report.succeeded + report.failed == |items|
  {
    if !ValidBulkSize(|items|) {
      return Err(InvalidArguments(["filters"])), [];
    }
    if access.Err? {
      return Err(ClientUnavailable(access.error)), [];
    }
    var client := access.value;
    var results: seq<BulkEntry> := [];
    sent := [];
    for k := 0 to |items|
      invariant |sent| == k && |results| == k
      invariant forall j :: 0 <= j < k ==> sent[j] == FilterRequest(items[j].criteria, items[j].action)
      invariant forall j :: 0 <= j < k ==> Records(results[j], items[j].name, client.createFilter(j, sent[j]))
    {
      var request := FilterRequest(items[k].criteria, items[k].action);
      var response := client.createFilter(k, request);
      sent := sent + [request];
      match response {
        case Ok(f) =>
          results := results + [BulkEntry(items[k].name, true, f.id, None)];
        case Err(m) =>
          results := results + [BulkEntry(items[k].name, false, None, Some(m))];
      }
    }
    var succeeded, failed := |Succeeded(results)|, |Failed(results)|;
    CountsAddUp(results);
    r := Ok(Reply(BulkText(results, succeeded, failed), BulkReport(results, succeeded, failed)));
  }
}
