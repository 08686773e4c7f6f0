/** The label tools of gmailmcp/tools/labels.ts: list, create and delete labels. */
module Labels {
  import opened Wrappers
  import opened Text
  import opened Lists
  import opened Gmail

  // ---------------------------------------------------------------- list_labels

  /** A label as the tool reports it: the five fields it keeps. */
  datatype LabelEntry = LabelEntry(
    id: Option<string>,
    name: Option<string>,
    labelType: Option<string>,
    messageListVisibility: Option<string>,
    labelListVisibility: Option<string>)

  function Project(l: Label): LabelEntry {
    LabelEntry(l.id, l.name, l.labelType, l.messageListVisibility, l.labelListVisibility)
  }

  /** The projected list: one entry per listed label, in order, each keeping the label's five fields. */
  function Formatted(labels: seq<Label>): (r: seq<LabelEntry>)
    ensures |r| == |labels|
    ensures forall i :: 0 <= i < |labels| ==>
      r[i].id == labels[i].id && r[i].name == labels[i].name && r[i].labelType == labels[i].labelType &&
      r[i].messageListVisibility == labels[i].messageListVisibility &&
      r[i].labelListVisibility == labels[i].labelListVisibility
  {
    seq(|labels|, i requires 0 <= i < |labels| => Project(labels[i]))
  }

  /** The entries whose type is `t`, in order; entries of any other type are in no section. */
  function OfType(es: seq<LabelEntry>, t: string): (r: seq<LabelEntry>)
    ensures |r| <= |es|
    ensures forall e :: e in r <==> e in es && e.labelType == Some(t)
  {
    Where(es, (e: LabelEntry) => e.labelType == Some(t))
  }

  function UserSection(es: seq<LabelEntry>): seq<LabelEntry> {
    OfType(es, "user")
  }

  function SystemSection(es: seq<LabelEntry>): seq<LabelEntry> {
    OfType(es, "system")
  }

  /** The sections keep the relative order of the entries: selecting from a concatenation concatenates the selections. */
  lemma OfTypeAppend(a: seq<LabelEntry>, b: seq<LabelEntry>, t: string)
    ensures OfType(a + b, t) == OfType(a, t) + OfType(b, t)
  {
    WhereAppend(a, b, (e: LabelEntry) => e.labelType == Some(t));
  }

  /**
   * The two sections together never hold more entries than were listed, and
   * they hold all of them exactly when every entry is a user or a system label.
   */
  lemma {:induction false} SectionSizes(es: seq<LabelEntry>)
    ensures |UserSection(es)| + |SystemSection(es)| <= |es|
    ensures |UserSection(es)| + |SystemSection(es)| == |es| <==>
      forall i :: 0 <= i < |es| ==> es[i].labelType == Some("user") || es[i].labelType == Some("system")
    decreases |es|
  {
    if es != [] {
      SectionSizes(es[1..]);
      assert forall i :: 1 <= i < |es| ==> es[i] == es[1..][i - 1];
    }
  }

  function UserHeader(n: nat): string {
    "## User Labels (" + NatToString(n) + ")"
  }

  function SystemHeader(n: nat): string {
    "\n## System Labels (" + NatToString(n) + ")"
  }

  function UserLine(e: LabelEntry): string {
    "- **" + Display(e.name) + "** (id: `" + Display(e.id) + "`)"
  }

  function SystemLine(e: LabelEntry): string {
    "- " + Display(e.name) + " (id: `" + Display(e.id) + "`)"
  }

  function EntryLines(es: seq<LabelEntry>, line: LabelEntry -> string): (r: seq<string>)
    ensures |r| == |es|
    ensures forall i :: 0 <= i < |es| ==> r[i] == line(es[i])
  {
    seq(|es|, i requires 0 <= i < |es| => line(es[i]))
  }

  /** The lines of the text view, before they are joined with newlines. */
  function LabelsTextLines(formatted: seq<LabelEntry>): seq<string> {
    var user, system := UserSection(formatted), SystemSection(formatted);
    [UserHeader(|user|)] + EntryLines(user, UserLine) + [SystemHeader(|system|)] + EntryLines(system, SystemLine)
  }

  /**
   * The text view opens with the User header, counting the user section, then
   * that section's lines, then the System header, counting the system section,
   * then that section's lines.
   */
  lemma TextLayout(formatted: seq<LabelEntry>)
    ensures var user, system, lines := UserSection(formatted), SystemSection(formatted), LabelsTextLines(formatted);
      |lines| == 2 + |user| + |system| &&
      lines[0] == UserHeader(|user|) &&
      (forall i :: 0 <= i < |user| ==> lines[1 + i] == UserLine(user[i])) &&
      lines[1 + |user|] == SystemHeader(|system|) &&
      (forall j :: 0 <= j < |system| ==> lines[2 + |user| + j] == SystemLine(system[j]))
  {
  }

  /** gmail_list_labels. */
  function ListLabels(access: Result<Client, string>): (r: Result<Reply<seq<LabelEntry>>, ToolError>)
    ensures access.Err? ==> r == Err(ClientUnavailable(access.error))
    ensures access.Ok? && access.value.listLabels.Err? ==> r == Err(UpstreamError(access.value.listLabels.error))
    ensures access.Ok? && access.value.listLabels.Ok? ==>
      var labels := access.value.listLabels.value.GetOr([]);
      r.Ok? && |r.value.structured| == |labels| &&
      (forall i :: 0 <= i < |labels| ==> r.value.structured[i] == Project(labels[i])) &&
      r.value.text == Join(LabelsTextLines(r.value.structured), "\n")
  {
    match access
    case Err(m) => Err(ClientUnavailable(m))
    case Ok(client) =>
      match client.listLabels
      case Err(m) => Err(UpstreamError(m))
      case Ok(listed) =>
        var formatted := Formatted(listed.GetOr([]));
        Ok(Reply(Join(LabelsTextLines(formatted), "\n"), formatted))
  }

  // ---------------------------------------------------------------- create_label

  datatype MessageListVisibility = Show | Hide

  datatype LabelListVisibility = LabelShow | LabelShowIfUnread | LabelHide

  function MessageListVisibilityName(v: MessageListVisibility): string {
    match v
    case Show => "show"
    case Hide => "hide"
  }

  function LabelListVisibilityName(v: LabelListVisibility): string {
    match v
    case LabelShow => "labelShow"
    case LabelShowIfUnread => "labelShowIfUnread"
    case LabelHide => "labelHide"
  }

  /** `z.enum(["show", "hide"]).default("show")`: None when the given value is not in the enum. */
  function ParseMessageListVisibility(raw: Option<string>): (r: Option<MessageListVisibility>)
    ensures raw.None? ==> r == Some(Show)
    ensures raw.Some? ==> (r.Some? <==> raw.value == "show" || raw.value == "hide")
    ensures raw.Some? && r.Some? ==> MessageListVisibilityName(r.value) == raw.value
  {
    match raw
    case None => Some(Show)
    case Some(s) => if s == "show" then Some(Show) else if s == "hide" then Some(Hide) else None
  }

  /** `z.enum(["labelShow", "labelShowIfUnread", "labelHide"]).default("labelShow")`. */
  function ParseLabelListVisibility(raw: Option<string>): (r: Option<LabelListVisibility>)
    ensures raw.None? ==> r == Some(LabelShow)
    ensures raw.Some? ==>
      (r.Some? <==> raw.value == "labelShow" || raw.value == "labelShowIfUnread" || raw.value == "labelHide")
    ensures raw.Some? && r.Some? ==> LabelListVisibilityName(r.value) == raw.value
  {
    match raw
    case None => Some(LabelShow)
    case Some(s) =>
      if s == "labelShow" then Some(LabelShow)
      else if s == "labelShowIfUnread" then Some(LabelShowIfUnread)
      else if s == "labelHide" then Some(LabelHide)
      else None
  }

  const MaxLabelNameLength := 225

  /** `z.string().min(1).max(225)`. */
  predicate ValidLabelName(name: Option<string>) {
    name.Some? && 1 <= |name.value| <= MaxLabelNameLength
  }

  /** The arguments of gmail_create_label as the caller sends them. */
  datatype RawCreateLabelArgs = RawCreateLabelArgs(
    name: Option<string>,
    messageListVisibility: Option<string>,
    labelListVisibility: Option<string>)

  /** The arguments after schema validation, defaults applied. */
  datatype CreateLabelArgs = CreateLabelArgs(
    name: string,
    messageListVisibility: MessageListVisibility,
    labelListVisibility: LabelListVisibility)

  /** Every field that breaks the schema, in schema order. */
  function CreateLabelIssues(raw: RawCreateLabelArgs): seq<string> {
    (if ValidLabelName(raw.name) then [] else ["name"]) +
    (if ParseMessageListVisibility(raw.messageListVisibility).Some? then [] else ["messageListVisibility"]) +
    (if ParseLabelListVisibility(raw.labelListVisibility).Some? then [] else ["labelListVisibility"])
  }

  /** The create_label input schema: accepts exactly the valid argument objects and names every offending field. */
  function ParseCreateLabelArgs(raw: RawCreateLabelArgs): (r: Result<CreateLabelArgs, ToolError>)
    ensures r.Ok? <==>
      ValidLabelName(raw.name) &&
      ParseMessageListVisibility(raw.messageListVisibility).Some? &&
      ParseLabelListVisibility(raw.labelListVisibility).Some?
    ensures r.Ok? ==>
      Some(r.value.name) == raw.name &&
      Some(r.value.messageListVisibility) == ParseMessageListVisibility(raw.messageListVisibility) &&
      Some(r.value.labelListVisibility) == ParseLabelListVisibility(raw.labelListVisibility)
    ensures r.Err? ==>
      r.error.InvalidArguments? &&
      ("name" in r.error.fields <==> !ValidLabelName(raw.name)) &&
      ("messageListVisibility" in r.error.fields <==> ParseMessageListVisibility(raw.messageListVisibility).None?) &&
      ("labelListVisibility" in r.error.fields <==> ParseLabelListVisibility(raw.labelListVisibility).None?)
  {
    var issues := CreateLabelIssues(raw);
    if issues != [] then
      Err(InvalidArguments(issues))
    else
      Ok(CreateLabelArgs(
        raw.name.value,
        ParseMessageListVisibility(raw.messageListVisibility).value,
        ParseLabelListVisibility(raw.labelListVisibility).value))
  }

  /** The arguments a caller would send to obtain `args`, spelling out every field. */
  function Unparse(args: CreateLabelArgs): RawCreateLabelArgs {
    RawCreateLabelArgs(
      Some(args.name),
      Some(MessageListVisibilityName(args.messageListVisibility)),
      Some(LabelListVisibilityName(args.labelListVisibility)))
  }

  /** Every valid argument object, spelled out, validates back to itself. */
  lemma ParseUnparse(args: CreateLabelArgs)
    requires 1 <= |args.name| <= MaxLabelNameLength
    ensures ParseCreateLabelArgs(Unparse(args)) == Ok(args)
  {
  }

  /** Omitted visibilities default to show and labelShow. */
  lemma CreateLabelDefaults(name: string)
    requires 1 <= |name| <= MaxLabelNameLength
    ensures ParseCreateLabelArgs(RawCreateLabelArgs(Some(name), None, None)) == Ok(CreateLabelArgs(name, Show, LabelShow))
  {
  }

  /** The structured result of gmail_create_label. */
  datatype CreatedLabel = CreatedLabel(id: Option<string>, name: Option<string>)

  function CreatedLabelText(created: Label): string {
    "✅ Label created successfully!\n- Name: **" + Display(created.name) + "**\n- ID: `" + Display(created.id) +
    "`\n\nUse this ID when creating filters."
  }

  /**
   * gmail_create_label: schema errors come back before the client is touched;
   * otherwise the request carries the given name and visibilities (or their
   * defaults) unchanged, and the result is the id and name Gmail returns.
   */
  function CreateLabel(raw: RawCreateLabelArgs, access: Result<Client, string>): (r: Result<Reply<CreatedLabel>, ToolError>)
    ensures ParseCreateLabelArgs(raw).Err? ==> r == Err(ParseCreateLabelArgs(raw).error)
    ensures ParseCreateLabelArgs(raw).Ok? && access.Err? ==> r == Err(ClientUnavailable(access.error))
    ensures ParseCreateLabelArgs(raw).Ok? && access.Ok? ==>
      var request := LabelRequest(raw.name.value,
        raw.messageListVisibility.GetOr("show"), raw.labelListVisibility.GetOr("labelShow"));
      match access.value.createLabel(request)
      case Err(m) => r == Err(UpstreamError(m))
      case Ok(created) => r.Ok? && r.value.structured == CreatedLabel(created.id, created.name)
  {
    match ParseCreateLabelArgs(raw)
    case Err(e) => Err(e)
    case Ok(args) =>
      match access
      case Err(m) => Err(ClientUnavailable(m))
      case Ok(client) =>
        var request := LabelRequest(args.name,
          MessageListVisibilityName(args.messageListVisibility), LabelListVisibilityName(args.labelListVisibility));
        match client.createLabel(request)
        case Err(m) => Err(UpstreamError(m))
        case Ok(created) => Ok(Reply(CreatedLabelText(created), CreatedLabel(created.id, created.name)))
  }

  // ---------------------------------------------------------------- delete_label

  /** The structured result of gmail_delete_label. */
  datatype LabelDeletion = LabelDeletion(deleted: bool, labelId: string)

  /**
   * gmail_delete_label: an absent or empty id is a schema error; otherwise the
   * upstream error is passed on verbatim, and a success echoes the id.
   */
  function DeleteLabel(labelId: Option<string>, access: Result<Client, string>): (r: Result<Reply<LabelDeletion>, ToolError>)
    ensures !ValidId(labelId) ==> r == Err(InvalidArguments(["labelId"]))
    ensures ValidId(labelId) && access.Err? ==> r == Err(ClientUnavailable(access.error))
    ensures ValidId(labelId) && access.Ok? ==>
      match access.value.deleteLabel(labelId.value)
      case Err(m) => r == Err(UpstreamError(m))
      case Ok(_) => r.Ok? && r.value.structured == LabelDeletion(true, labelId.value)
  {
    if !ValidId(labelId) then Err(InvalidArguments(["labelId"]))
    else
      match access
      case Err(m) => Err(ClientUnavailable(m))
      case Ok(client) =>
        match client.deleteLabel(labelId.value)
        case Err(m) => Err(UpstreamError(m))
        case Ok(_) => Ok(Reply("✅ Label `" + labelId.value + "` deleted successfully.", LabelDeletion(true, labelId.value)))
  }
}
