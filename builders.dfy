/** The task builders of cmd/run.go (and their copies in main.go): the http
    fetch task, the jira list task, the trello card task and the calendar
    query task, with the card names the handlers give them. */
module Builders {
  import opened Engine
  import opened Sync
  import Template

  /** The resolved `{target, binding, source}` triple of one reaction. */
  datatype Candidate = Candidate(target: Target, binding: Binding, src: Source)

  const ZeroCandidate := Candidate(ZeroTarget, ZeroBinding, ZeroSource)

  /** Decimal digits of `n`, as `%d` prints it. */
  function NatToString(n: nat): (s: string)
    ensures |s| > 0
    ensures forall i :: 0 <= i < |s| ==> '0' <= s[i] <= '9'
    decreases n
  {
    if n < 10 then ["0123456789"[n]]
    else NatToString(n / 10) + ["0123456789"[n % 10]]
  }

  /** The value of a decimal digit; 0 for any other character. */
  function DigitValue(c: char): (d: nat)
    ensures d < 10
  {
    if '0' <= c <= '9' then (c as int - '0' as int) else 0
  }

  /** The number a string of decimal digits denotes, most significant
      digit first. */
  function DecimalValue(s: string): nat
  {
    if s == [] then 0 else DecimalValue(s[..|s| - 1]) * 10 + DigitValue(s[|s| - 1])
  }

  /** `NatToString(n)` is the decimal form `%d` prints: it denotes `n`, and
      it has no leading zero. */
  lemma {:induction false} NatToStringDecimal(n: nat)
    ensures DecimalValue(NatToString(n)) == n
    ensures |NatToString(n)| > 1 ==> NatToString(n)[0] != '0'
    ensures n > 0 ==> NatToString(n)[0] != '0'
    decreases n
  {
    var s := NatToString(n);
    if n < 10 {
      assert s[..0] == [];
    } else {
      var p := NatToString(n / 10);
      NatToStringDecimal(n / 10);
      assert s == p + ["0123456789"[n % 10]];
      assert s[..|s| - 1] == p;
    }
  }

  /** `fmt.Sprintf("%d-created-card-%s", i, suffix)`. */
  function CardName(i: nat, suffix: string): string
  {
    NatToString(i) + "-created-card-" + suffix
  }

  /** `buildHTTPTask(name, url)`: an http `call` with exactly URL and Verb GET. */
  function BuildHttpTask(name: string, url: string): (t: Task)
    ensures t.name == name && t.service == "http" && t.endpoint == "call"
    ensures Keys(t.arguments) == ["URL", "Verb"]
    ensures t.arguments[0].value == Text(url) && t.arguments[1].value == Text("GET")
  {
    Task(name, "http", "call", [Argument("URL", Text(url)), Argument("Verb", Text("GET"))])
  }

  datatype JiraOptions = JiraOptions(taskName: string, token: string, endpoint: string, user: string, jql: string)

  const JiraKeys := ["API_Token", "Endpoint", "User", "JQL", "QueryFields"]

  /** `createJiraTask(options)`: a jira `list` with the five arguments in
      their fixed order, QueryFields always "*all". */
  function CreateJiraTask(o: JiraOptions): (t: Task)
    ensures t.name == o.taskName && t.service == "jira" && t.endpoint == "list"
    ensures Keys(t.arguments) == JiraKeys
    ensures t.arguments[0].value == Text(o.token) && t.arguments[1].value == Text(o.endpoint)
    ensures t.arguments[2].value == Text(o.user) && t.arguments[3].value == Text(o.jql)
    ensures t.arguments[4].value == Text("*all")
  {
    Task(o.taskName, "jira", "list", [
      Argument("API_Token", Text(o.token)),
      Argument("Endpoint", Text(o.endpoint)),
      Argument("User", Text(o.user)),
      Argument("JQL", Text(o.jql)),
      Argument("QueryFields", Text("*all"))])
  }

  /** The target has both the trello block and its card block. */
  predicate CardReady(t: Target)
  {
    t.trello.Some? && t.trello.value.card.Some?
  }

  const TrelloKeys := ["App", "Token", "Board", "List", "Name", "Description", "Labels"]

  /** `createTrelloTask(name, tc, data)`: a trello `addcard` task. It reads
      through the target's trello and card pointers, so a target without
      either ends the run (`None` here). Only Name and Description are
      rendered against the data; everything else, labels included, with none. */
  function CreateTrelloTask(name: string, tc: Candidate, data: Data, render: (string, Data) -> string): (r: Option<Task>)
    ensures r.Some? <==> CardReady(tc.target)
    ensures r.Some? ==> r.value.name == name && r.value.service == "trello" && r.value.endpoint == "addcard"
  {
    match tc.target.trello
    case None => None
    case Some(tr) =>
      match tr.card
      case None => None
      case Some(card) =>
        Some(Task(name, "trello", "addcard", [
          Argument("App", Text(Template.String(Some(tr.key), NoData, render))),
          Argument("Token", Text(Template.String(Some(tr.token), NoData, render))),
          Argument("Board", Text(Template.String(Some(tr.boardId), NoData, render))),
          Argument("List", Text(Template.String(Some(tr.listId), NoData, render))),
          Argument("Name", Text(Template.String(card.title, data, render))),
          Argument("Description", Text(Template.String(card.description, data, render))),
          Argument("Labels", Texts(Template.RenderAll(card.labels, render)))]))
  }

  /** A card carries the seven trello arguments in a fixed order. Two cards
      built for the same candidate differ at most in Name and Description;
      the labels are the templates rendered with no data. */
  lemma TrelloDataOnlyInNameAndDescription(name: string, tc: Candidate, d1: Data, d2: Data, render: (string, Data) -> string)
    requires CardReady(tc.target)
    ensures Keys(CreateTrelloTask(name, tc, d1, render).value.arguments) == TrelloKeys
    ensures var a1 := CreateTrelloTask(name, tc, d1, render).value.arguments;
      var a2 := CreateTrelloTask(name, tc, d2, render).value.arguments;
      forall j :: 0 <= j < 7 && j != 4 && j != 5 ==> a1[j] == a2[j]
    ensures CreateTrelloTask(name, tc, d1, render).value.arguments[6].value ==
      Texts(Template.RenderAll(tc.target.trello.value.card.value.labels, render))
    ensures tc.target.trello.value.card.value.title.None? ==>
      CreateTrelloTask(name, tc, d1, render).value.arguments[4].value == Text("")
  {
  }

  /** What a card says: App, Token, Board and List are the trello block's
      strings rendered with no data; Name and Description are the card's
      title and description rendered in the card's own data (empty when
      unset); Labels are the label templates rendered with no data. */
  lemma TrelloCardContents(name: string, tc: Candidate, data: Data, render: (string, Data) -> string)
    requires CardReady(tc.target)
    ensures var tr := tc.target.trello.value;
      var card := tr.card.value;
      var a := CreateTrelloTask(name, tc, data, render).value.arguments;
      |a| == 7 &&
      a[0] == Argument("App", Text(render(tr.key, NoData))) &&
      a[1] == Argument("Token", Text(render(tr.token, NoData))) &&
      a[2] == Argument("Board", Text(render(tr.boardId, NoData))) &&
      a[3] == Argument("List", Text(render(tr.listId, NoData))) &&
      a[4] == Argument("Name", Text(if card.title.Some? then render(card.title.value, data) else "")) &&
      a[5] == Argument("Description", Text(if card.description.Some? then render(card.description.value, data) else "")) &&
      a[6].key == "Labels" && a[6].value.Texts? && |a[6].value.ss| == |card.labels| &&
      forall j :: 0 <= j < |card.labels| ==> a[6].value.ss[j] == render(card.labels[j], NoData)
  {
  }

  /** `createGoogleCalendarTaskOptions`; a Go pointer is an `Option`. */
  datatype CalendarOptions = CalendarOptions(
    taskName: string,
    serviceAccount: ServiceAccount,
    calendarId: string,
    iCalUid: Option<string>,
    maxAttendees: Option<int>,
    maxResults: Option<int>,
    orderBy: Option<string>,
    privateExtendedProperty: Option<string>,
    q: Option<string>,
    sharedExtendedProperty: Option<string>,
    showDeleted: bool,
    showHiddenInvitations: Option<bool>,
    singleEvents: Option<bool>,
    timeMax: string,
    timeMin: string,
    timeZone: Option<string>,
    updatedMin: Option<string>)

  /** One argument when the option is set, none otherwise. */
  function Optional(key: string, v: Option<ArgValue>): seq<Argument>
  {
    if v.Some? then [Argument(key, v.value)] else []
  }

  function TextOpt(v: Option<string>): Option<ArgValue>
  {
    if v.Some? then Some(Text(v.value)) else None
  }

  function CountOpt(v: Option<int>): Option<ArgValue>
  {
    if v.Some? then Some(Count(v.value)) else None
  }

  function FlagOpt(v: Option<bool>): Option<ArgValue>
  {
    if v.Some? then Some(Flag(v.value)) else None
  }

  function NonEmpty(s: string): Option<ArgValue>
  {
    if s != "" then Some(Text(s)) else None
  }

  /** The calendar arguments: the three fixed ones, then each optional one,
      in the fixed order, exactly when it is set. */
  function CalendarArguments(o: CalendarOptions): seq<Argument>
  {
    [Argument("ServiceAccount", Account(o.serviceAccount)),
     Argument("CalendarID", Text(o.calendarId)),
     Argument("ShowDeleted", Flag(o.showDeleted))]
    + Optional("ICalUID", TextOpt(o.iCalUid))
    + Optional("MaxAttendees", CountOpt(o.maxAttendees))
    + Optional("MaxResults", CountOpt(o.maxResults))
    + Optional("OrderBy", TextOpt(o.orderBy))
    + Optional("PrivateExtendedProperty", TextOpt(o.privateExtendedProperty))
    + Optional("Q", TextOpt(o.q))
    + Optional("SharedExtendedProperty", TextOpt(o.sharedExtendedProperty))
    + Optional("ShowHiddenInvitations", FlagOpt(o.showHiddenInvitations))
    + Optional("SingleEvents", FlagOpt(o.singleEvents))
    + Optional("TimeMax", NonEmpty(o.timeMax))
    + Optional("TimeMin", NonEmpty(o.timeMin))
    + Optional("TimeZone", TextOpt(o.timeZone))
    + Optional("UpdatedMin", TextOpt(o.updatedMin))
  }

  /** One `if options.X != nil { arguments = append(arguments, ...) }` step. */
  method AppendIfSet(arguments: seq<Argument>, key: string, v: Option<ArgValue>) returns (r: seq<Argument>)
    ensures r == arguments + Optional(key, v)
  {
    r := arguments;
    if v.Some? {
      r := r + [Argument(key, v.value)];
    }
  }

  /** `createGoogleCalerndarTask(options)`: grows the argument list one
      optional argument at a time. */
  method CreateGoogleCalendarTask(o: CalendarOptions) returns (t: Task)
    ensures t == Task(o.taskName, "google-calendar", "getEvents", CalendarArguments(o))
  {
    var arguments := [
      Argument("ServiceAccount", Account(o.serviceAccount)),
      Argument("CalendarID", Text(o.calendarId)),
      Argument("ShowDeleted", Flag(o.showDeleted))];
    arguments := AppendIfSet(arguments, "ICalUID", TextOpt(o.iCalUid));
    arguments := AppendIfSet(arguments, "MaxAttendees", CountOpt(o.maxAttendees));
    arguments := AppendIfSet(arguments, "MaxResults", CountOpt(o.maxResults));
    arguments := AppendIfSet(arguments, "OrderBy", TextOpt(o.orderBy));
    arguments := AppendIfSet(arguments, "PrivateExtendedProperty", TextOpt(o.privateExtendedProperty));
    arguments := AppendIfSet(arguments, "Q", TextOpt(o.q));
    arguments := AppendIfSet(arguments, "SharedExtendedProperty", TextOpt(o.sharedExtendedProperty));
    arguments := AppendIfSet(arguments, "ShowHiddenInvitations", FlagOpt(o.showHiddenInvitations));
    arguments := AppendIfSet(arguments, "SingleEvents", FlagOpt(o.singleEvents));
    arguments := AppendIfSet(arguments, "TimeMax", NonEmpty(o.timeMax));
    arguments := AppendIfSet(arguments, "TimeMin", NonEmpty(o.timeMin));
    arguments := AppendIfSet(arguments, "TimeZone", TextOpt(o.timeZone));
    arguments := AppendIfSet(arguments, "UpdatedMin", TextOpt(o.updatedMin));
    t := Task(o.taskName, "google-calendar", "getEvents", arguments);
  }

  /** Some argument of `args` has key `k`. */
  predicate HasKey(args: seq<Argument>, k: string)
  {
    exists i :: 0 <= i < |args| && args[i].key == k
  }

  lemma HasKeyConcat(a: seq<Argument>, b: seq<Argument>, k: string)
    ensures HasKey(a + b, k) <==> HasKey(a, k) || HasKey(b, k)
  {
    if HasKey(a + b, k) {
      var i :| 0 <= i < |a + b| && (a + b)[i].key == k;
      if i >= |a| {
        assert b[i - |a|].key == k;
      } else {
        assert a[i].key == k;
      }
    }
    if HasKey(a, k) {
      var i :| 0 <= i < |a| && a[i].key == k;
      assert (a + b)[i].key == k;
    }
    if HasKey(b, k) {
      var i :| 0 <= i < |b| && b[i].key == k;
      assert (a + b)[|a| + i].key == k;
    }
  }

  lemma HasKeyOptional(key: string, v: Option<ArgValue>, k: string)
    ensures HasKey(Optional(key, v), k) <==> key == k && v.Some?
  {
    if key == k && v.Some? {
      assert Optional(key, v)[0].key == k;
    }
  }

  /** The calendar arguments open with the three fixed ones. */
  lemma {:induction false} CalendarFixedPrefix(o: CalendarOptions)
    ensures |CalendarArguments(o)| >= 3
    ensures Keys(CalendarArguments(o))[..3] == ["ServiceAccount", "CalendarID", "ShowDeleted"]
    ensures CalendarArguments(o)[0].value == Account(o.serviceAccount)
    ensures CalendarArguments(o)[1].value == Text(o.calendarId)
    ensures CalendarArguments(o)[2].value == Flag(o.showDeleted)
  {
    var args := CalendarArguments(o);
    var base := [Argument("ServiceAccount", Account(o.serviceAccount)),
     Argument("CalendarID", Text(o.calendarId)),
     Argument("ShowDeleted", Flag(o.showDeleted))];
    var rest := args[3..];
    assert args == base + rest;
    assert args[..3] == base;
  }

  /** A key occurs among the calendar arguments exactly when it is one of
      the three fixed keys, or an optional key whose option is set. */
  lemma {:induction false} CalendarHasKey(o: CalendarOptions, k: string)
    ensures HasKey(CalendarArguments(o), k) <==>
      k == "ServiceAccount" ||
      k == "CalendarID" ||
      k == "ShowDeleted" ||
      (k == "ICalUID" && o.iCalUid.Some?) ||
      (k == "MaxAttendees" && o.maxAttendees.Some?) ||
      (k == "MaxResults" && o.maxResults.Some?) ||
      (k == "OrderBy" && o.orderBy.Some?) ||
      (k == "PrivateExtendedProperty" && o.privateExtendedProperty.Some?) ||
      (k == "Q" && o.q.Some?) ||
      (k == "SharedExtendedProperty" && o.sharedExtendedProperty.Some?) ||
      (k == "ShowHiddenInvitations" && o.showHiddenInvitations.Some?) ||
      (k == "SingleEvents" && o.singleEvents.Some?) ||
      (k == "TimeMax" && o.timeMax != "") ||
      (k == "TimeMin" && o.timeMin != "") ||
      (k == "TimeZone" && o.timeZone.Some?) ||
      (k == "UpdatedMin" && o.updatedMin.Some?)
  {
    var p0 := [Argument("ServiceAccount", Account(o.serviceAccount)),
      Argument("CalendarID", Text(o.calendarId)),
      Argument("ShowDeleted", Flag(o.showDeleted))];
    assert HasKey(p0, k) <==> k == "ServiceAccount" || k == "CalendarID" || k == "ShowDeleted" by {
      if HasKey(p0, k) {
        var i :| 0 <= i < |p0| && p0[i].key == k;
        assert i == 0 || i == 1 || i == 2;
      }
      if k == "ServiceAccount" {
        assert p0[0].key == k;
      }
      if k == "CalendarID" {
        assert p0[1].key == k;
      }
      if k == "ShowDeleted" {
        assert p0[2].key == k;
      }
    }
    var p1 := p0 + Optional("ICalUID", TextOpt(o.iCalUid));
    HasKeyConcat(p0, Optional("ICalUID", TextOpt(o.iCalUid)), k);
    HasKeyOptional("ICalUID", TextOpt(o.iCalUid), k);
    var p2 := p1 + Optional("MaxAttendees", CountOpt(o.maxAttendees));
    HasKeyConcat(p1, Optional("MaxAttendees", CountOpt(o.maxAttendees)), k);
    HasKeyOptional("MaxAttendees", CountOpt(o.maxAttendees), k);
    var p3 := p2 + Optional("MaxResults", CountOpt(o.maxResults));
    HasKeyConcat(p2, Optional("MaxResults", CountOpt(o.maxResults)), k);
    HasKeyOptional("MaxResults", CountOpt(o.maxResults), k);
    var p4 := p3 + Optional("OrderBy", TextOpt(o.orderBy));
    HasKeyConcat(p3, Optional("OrderBy", TextOpt(o.orderBy)), k);
    HasKeyOptional("OrderBy", TextOpt(o.orderBy), k);
    var p5 := p4 + Optional("PrivateExtendedProperty", TextOpt(o.privateExtendedProperty));
    HasKeyConcat(p4, Optional("PrivateExtendedProperty", TextOpt(o.privateExtendedProperty)), k);
    HasKeyOptional("PrivateExtendedProperty", TextOpt(o.privateExtendedProperty), k);
    var p6 := p5 + Optional("Q", TextOpt(o.q));
    HasKeyConcat(p5, Optional("Q", TextOpt(o.q)), k);
    HasKeyOptional("Q", TextOpt(o.q), k);
    var p7 := p6 + Optional("SharedExtendedProperty", TextOpt(o.sharedExtendedProperty));
    HasKeyConcat(p6, Optional("SharedExtendedProperty", TextOpt(o.sharedExtendedProperty)), k);
    HasKeyOptional("SharedExtendedProperty", TextOpt(o.sharedExtendedProperty), k);
    var p8 := p7 + Optional("ShowHiddenInvitations", FlagOpt(o.showHiddenInvitations));
    HasKeyConcat(p7, Optional("ShowHiddenInvitations", FlagOpt(o.showHiddenInvitations)), k);
    HasKeyOptional("ShowHiddenInvitations", FlagOpt(o.showHiddenInvitations), k);
    var p9 := p8 + Optional("SingleEvents", FlagOpt(o.singleEvents));
    HasKeyConcat(p8, Optional("SingleEvents", FlagOpt(o.singleEvents)), k);
    HasKeyOptional("SingleEvents", FlagOpt(o.singleEvents), k);
    var p10 := p9 + Optional("TimeMax", NonEmpty(o.timeMax));
    HasKeyConcat(p9, Optional("TimeMax", NonEmpty(o.timeMax)), k);
    HasKeyOptional("TimeMax", NonEmpty(o.timeMax), k);
    var p11 := p10 + Optional("TimeMin", NonEmpty(o.timeMin));
    HasKeyConcat(p10, Optional("TimeMin", NonEmpty(o.timeMin)), k);
    HasKeyOptional("TimeMin", NonEmpty(o.timeMin), k);
    var p12 := p11 + Optional("TimeZone", TextOpt(o.timeZone));
    HasKeyConcat(p11, Optional("TimeZone", TextOpt(o.timeZone)), k);
    HasKeyOptional("TimeZone", TextOpt(o.timeZone), k);
    var p13 := p12 + Optional("UpdatedMin", TextOpt(o.updatedMin));
    HasKeyConcat(p12, Optional("UpdatedMin", TextOpt(o.updatedMin)), k);
    HasKeyOptional("UpdatedMin", TextOpt(o.updatedMin), k);
    assert CalendarArguments(o) == p13;
  }

  /** An unset MaxResults never yields a MaxResults argument; a set one
      always does. */
  lemma CalendarMaxResults(o: CalendarOptions)
    ensures HasKey(CalendarArguments(o), "MaxResults") <==> o.maxResults.Some?
  {
    CalendarHasKey(o, "MaxResults");
  }

  /** TimeMax and TimeMin are passed exactly when they are non-empty. */
  lemma CalendarTimeBounds(o: CalendarOptions)
    ensures HasKey(CalendarArguments(o), "TimeMax") <==> o.timeMax != ""
    ensures HasKey(CalendarArguments(o), "TimeMin") <==> o.timeMin != ""
  {
    CalendarHasKey(o, "TimeMax");
    CalendarHasKey(o, "TimeMin");
  }
}
