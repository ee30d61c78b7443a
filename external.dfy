/** The libraries the pipeline calls but does not implement: the template
    engine, encoding/json, net/url, the feed parser and the file system. Each
    is a function-valued field of `Foreign`, so every property proved about
    the pipeline holds whatever these libraries do. */
module External {
  import opened Engine
  import opened Sync

  /** What `json.Unmarshal` (or the feed parser) makes of a string: a decoded
      value, or an error. */
  datatype Decoded<T> = Ok(value: T) | Malformed

  /** What `json.Marshal` makes of a value: an error, or bytes, given here by
      what `json.Unmarshal` then makes of them as an object. */
  datatype Marshalled = MarshalFailed | Marshalled(bytes: Decoded<map<string, Json>>)

  datatype FeedItem = FeedItem(title: string, details: Json)

  /** A parsed feed: everything but its items, and its items. */
  datatype Feed = Feed(header: Json, items: seq<FeedItem>)

  datatype Issue = Issue(details: Json)

  datatype CalendarEvent = CalendarEvent(details: Json)

  /** The outputs of the http `call`, jira `list` and google-calendar
      `getEvents` endpoints. */
  datatype CallReturns = CallReturns(body: string)
  datatype ListReturns = ListReturns(issues: seq<Issue>)
  datatype GetEventsReturns = GetEventsReturns(events: seq<CalendarEvent>)

  /** Every Go value the pipeline hands to `json.Marshal`. */
  datatype Marshallable =
    | MSource(src: Source)
    | MBinding(binding: Binding)
    | MTarget(target: Target)
    | MFeed(feed: Feed)
    | MItem(item: FeedItem)
    | MIssue(issue: Issue)

  /** User information that `url.UserPassword` attaches to a URL. */
  datatype Userinfo = Userinfo(username: string, password: string)

  /** Reading the service-account file and decoding it. */
  datatype AccountFile = Unreadable | Read(account: Decoded<ServiceAccount>)

  datatype Foreign = Foreign(
    /** Executes a (non-nil) template against data. */
    render: (string, Data) -> string,
    marshal: Marshallable -> Marshalled,
    /** Whether `url.Parse` accepts a string. */
    urlParses: string -> bool,
    /** `u.String()` of a parsed URL, with the user information set, if any. */
    urlString: (string, Option<Userinfo>) -> string,
    parseFeed: string -> Decoded<Feed>,
    unmarshalObject: string -> Decoded<map<string, Json>>,
    unmarshalArray: string -> Decoded<seq<map<string, Json>>>,
    readServiceAccount: string -> AccountFile,
    /** `json.Unmarshal` of a task's output into the endpoint's return type. */
    decodeCall: string -> Decoded<CallReturns>,
    decodeList: string -> Decoded<ListReturns>,
    decodeEvents: string -> Decoded<GetEventsReturns>,
    /** `googleCalendarEventToJSON`, whose definition is not among the
        files modelled. */
    projectEvent: CalendarEvent -> Json)
}
