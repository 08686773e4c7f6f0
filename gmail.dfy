/**
 * The Gmail side of the adapter: the resources the handlers read and send, the
 * authenticated client seen as an oracle, and the shapes every tool returns.
 */
module Gmail {
  import opened Wrappers

  /** A filter's matching criteria (the API's `criteria` object); every field optional. */
  datatype Criteria = Criteria(
    from: Option<string>,
    to: Option<string>,
    subject: Option<string>,
    query: Option<string>,
    hasAttachment: Option<bool>,
    excludeChats: Option<bool>)

  /** `{}` as a criteria object. */
  const EmptyCriteria := Criteria(None, None, None, None, None, None)

  /** A filter's label actions (the API's `action` object). */
  datatype Action = Action(addLabelIds: Option<seq<string>>, removeLabelIds: Option<seq<string>>)

  /** `{}` as an action object. */
  const EmptyAction := Action(None, None)

  /** A filter as the API lists or returns it. */
  datatype Filter = Filter(id: Option<string>, criteria: Option<Criteria>, action: Option<Action>)

  /** The body of a filters.create call. */
  datatype FilterRequest = FilterRequest(criteria: Criteria, action: Action)

  /** A label as the API lists or returns it, with the counters the projection drops. */
  datatype Label = Label(
    id: Option<string>,
    name: Option<string>,
    labelType: Option<string>,
    messageListVisibility: Option<string>,
    labelListVisibility: Option<string>,
    messagesTotal: Option<int>,
    messagesUnread: Option<int>,
    threadsTotal: Option<int>,
    threadsUnread: Option<int>)

  /** The body of a labels.create call. */
  datatype LabelRequest = LabelRequest(name: string, messageListVisibility: string, labelListVisibility: string)

  /** What one remote call gives back: its data, or the message of the error it throws. */
  type Response<T> = Result<T, string>

  /**
   * The authenticated Gmail client, as an oracle answering the six remote calls
   * the tools make for user "me". A list call takes no argument besides the
   * user, so its answer is a value; `createFilter` also receives the ordinal of
   * the call within one tool invocation, so that sequential calls may answer
   * differently.
   */
  datatype Client = Client(
    listLabels: Response<Option<seq<Label>>>,
    createLabel: LabelRequest -> Response<Label>,
    deleteLabel: string -> Response<()>,
    listFilters: Response<Option<seq<Filter>>>,
    createFilter: (nat, FilterRequest) -> Response<Filter>,
    deleteFilter: string -> Response<()>)

  /**
   * Why a tool call fails: its arguments do not match the input schema (the
   * offending fields, in schema order), a handler's own precondition refuses
   * them, obtaining the client throws (no credentials or token), or a remote
   * call throws; the messages are passed on unchanged.
   */
  datatype ToolError =
    | InvalidArguments(fields: seq<string>)
    | Refused(message: string)
    | ClientUnavailable(message: string)
    | UpstreamError(message: string)

  /** A successful tool result: the text content and the structured content. */
  datatype Reply<S> = Reply(text: string, structured: S)

  /** JavaScript truthiness of an optional string: present and non-empty. */
  predicate Truthy(s: Option<string>) {
    s.Some? && s.value != ""
  }

  /** JavaScript truthiness of an optional boolean. */
  predicate IsTrue(b: Option<bool>) {
    b == Some(true)
  }

  /** `ids && ids.length > 0` for an optional array. */
  predicate NonEmpty(ids: Option<seq<string>>) {
    ids.Some? && |ids.value| > 0
  }

  /** `z.string().min(1)`: the schema of both delete tools' id argument. */
  predicate ValidId(id: Option<string>) {
    id.Some? && |id.value| >= 1
  }
}
