/**
 * Fixed example cases: the tools against fixed client answers, derived from
 * the handlers' contracts alone.
 */
module Scenarios {
  import opened Wrappers
  import opened Gmail
  import Lists
  import Text
  import Labels
  import Filters

  function UserLabel(id: string, name: string): Label {
    Label(Some(id), Some(name), Some("user"), Some("show"), Some("labelShow"), None, None, None, None)
  }

  function SystemLabel(id: string): Label {
    Label(Some(id), Some(id), Some("system"), None, None, Some(0), Some(0), Some(0), Some(0))
  }

  /** A client that lists `labels`, answers filter creation with `create`, and accepts everything else. */
  function FixtureClient(labels: seq<Label>, create: (nat, FilterRequest) -> Response<Filter>): Client {
    Client(
      Ok(Some(labels)),
      (request: LabelRequest) => Ok(Label(Some("Label_9"), Some(request.name), Some("user"), None, None, None, None, None, None)),
      (id: string) => Ok(()),
      Ok(None),
      create,
      (id: string) => Ok(()))
  }

  /** The fixture's five entries, mixing the two sections. */
  function FixtureLabels(): seq<Label> {
    [UserLabel("Label_1", "Work"), SystemLabel("INBOX"), UserLabel("Label_2", "Work/Invoices"),
     SystemLabel("SPAM"), SystemLabel("TRASH")]
  }

  /** The fixture's sections hold two user entries and three system entries. */
  lemma FixtureSections()
    ensures |Labels.UserSection(Labels.Formatted(FixtureLabels()))| == 2
    ensures |Labels.SystemSection(Labels.Formatted(FixtureLabels()))| == 3
  {
  }

  /** With two user and three system entries the text view counts 2 and 3 in its headers. */
  lemma HeadersForTwoAndThree(f: seq<Labels.LabelEntry>)
    requires |Labels.UserSection(f)| == 2 && |Labels.SystemSection(f)| == 3
    ensures var lines := Labels.LabelsTextLines(f);
      |lines| == 7 && lines[0] == "## User Labels (2)" && lines[3] == "\n## System Labels (3)"
  {
  }

  /** The fixture's text view opens with "## User Labels (2)" and has "## System Labels (3)" after the two user lines. */
  lemma FixtureHeaders()
    ensures var lines := Labels.LabelsTextLines(Labels.Formatted(FixtureLabels()));
      |lines| == 7 && lines[0] == "## User Labels (2)" && lines[3] == "\n## System Labels (3)"
  {
    FixtureSections();
    HeadersForTwoAndThree(Labels.Formatted(FixtureLabels()));
  }

  /** Listing the fixture gives five structured entries, in the listed order. */
  lemma ListLabelsFixture()
    ensures var r := Labels.ListLabels(Ok(FixtureClient(FixtureLabels(), (k: nat, request: FilterRequest) => Err("unused"))));
      r.Ok? && r.value.structured == Labels.Formatted(FixtureLabels()) && |r.value.structured| == 5
  {
  }

  /** Three items whose second create call throws: two created, one failed, entries in input order. */
  method BulkFixture() returns (report: Filters.BulkReport)
    ensures report.succeeded == 2 && report.failed == 1
    ensures |report.results| == 3
    ensures report.results[0].success && !report.results[1].success && report.results[2].success
    ensures report.results[1].name == "Receipts" && report.results[1].error == Some("Rate Limit Exceeded")
  {
    var items := [
      Filters.BulkItem("Newsletters", EmptyCriteria.(query := Some("unsubscribe")), EmptyAction.(removeLabelIds := Some(["INBOX"]))),
      Filters.BulkItem("Receipts", EmptyCriteria.(subject := Some("receipt")), EmptyAction.(addLabelIds := Some(["Label_7"]))),
      Filters.BulkItem("Boss", EmptyCriteria.(from := Some("boss@company.com")), EmptyAction.(addLabelIds := Some(["STARRED"])))];
    var create := (k: nat, request: FilterRequest) =>
      if k == 1 then Err("Rate Limit Exceeded") else Ok(Filter(Some(if k == 0 then "f0" else "f2"), None, None));
    var r, sent := Filters.BulkCreateFilters(items, Ok(FixtureClient([], create)));
    report := r.value.structured;
    var rs := report.results;
    assert rs == [rs[0]] + ([rs[1]] + [rs[2]]);
    Lists.WhereAppend([rs[0]], [rs[1]] + [rs[2]], (e: Filters.BulkEntry) => e.success);
    Lists.WhereAppend([rs[1]], [rs[2]], (e: Filters.BulkEntry) => e.success);
    assert |Filters.Succeeded(rs)| == 2;
  }

  /** With no criteria and no action, create_filter refuses with the criteria error, even with no client to be had. */
  method CreateFilterRefusesEmpty() returns (r: Result<Reply<Filters.CreatedFilter>, ToolError>, sent: seq<FilterRequest>)
    ensures r == Err(Refused(Filters.CriteriaRequired)) && sent == []
  {
    var none := Filters.CreateFilterArgs(None, None, None, None, None, None, None, None);
    r, sent := Filters.CreateFilter(none, Err("token.json not found"));
  }

  /** `hasAttachment: false` alone passes the criteria check and is sent as given. */
  method CreateFilterKeepsFalseFlag() returns (sent: seq<FilterRequest>)
    ensures sent == [FilterRequest(EmptyCriteria.(hasAttachment := Some(false)), EmptyAction.(addLabelIds := Some(["STARRED"])))]
  {
    var a := Filters.CreateFilterArgs(Some(""), None, None, None, Some(false), None, Some(["STARRED"]), Some([]));
    var client := FixtureClient([], (k: nat, request: FilterRequest) => Ok(Filter(Some("f"), None, None)));
    var r;
    r, sent := Filters.CreateFilter(a, Ok(client));
  }

  /** The bulk tool sends an item with no criteria and no action, which create_filter would refuse. */
  method BulkSkipsAdmission() returns (sent: seq<FilterRequest>)
    ensures sent == [FilterRequest(EmptyCriteria, EmptyAction)]
    ensures !Filters.CriteriaGiven(Filters.CreateFilterArgs(None, None, None, None, None, None, None, None))
  {
    var client := FixtureClient([], (k: nat, request: FilterRequest) => Err("Filter has no criteria"));
    var r;
    r, sent := Filters.BulkCreateFilters([Filters.BulkItem("empty", EmptyCriteria, EmptyAction)], Ok(client));
  }
}
