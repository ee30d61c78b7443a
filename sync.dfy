/** The sync configuration (cmd/sync.go): targets, sources and bindings, and
    the three first-match lookups by name. */
module Sync {
  import opened Engine

  datatype Card = Card(title: Option<string>, description: Option<string>, labels: seq<string>)

  datatype Trello = Trello(token: string, key: string, boardId: string, listId: string, card: Option<Card>)

  datatype Target = Target(name: string, trello: Option<Trello>)

  datatype Auth = Auth(username: string, password: string)

  datatype RssSource = RssSource(url: string, auth: Option<Auth>)

  datatype JsonSource = JsonSource(url: string, itemType: string)

  datatype JiraSource = JiraSource(user: string, token: string, endpoint: string, jql: string)

  datatype CalendarSource = CalendarSource(serviceAccount: string, calendarId: string, timeMin: string, timeMax: string)

  /** A source: four optional variants (any number of them may be set) and
      the filter templates, which Go keeps in a `map[string]string`. */
  datatype Source = Source(
    name: string,
    rss: Option<RssSource>,
    json: Option<JsonSource>,
    jira: Option<JiraSource>,
    googleCalendar: Option<CalendarSource>,
    filter: map<string, string>)

  datatype Binding = Binding(name: string, source: string, target: string)

  datatype Sync = Sync(targets: seq<Target>, sources: seq<Source>, bindings: seq<Binding>)

  /** Go's zero values, returned beside `errNotFound`. */
  const ZeroTarget := Target("", None)
  const ZeroSource := Source("", None, None, None, None, map[])
  const ZeroBinding := Binding("", "", "")

  datatype LookupError = ErrNotFound

  /** The `(value, error)` pair a lookup returns. */
  datatype Lookup<T> = Lookup(value: T, err: Option<LookupError>)

  /** Index of the first element of `list` whose name is `name`. */
  function FirstNamed<T>(list: seq<T>, nameOf: T -> string, name: string): (i: Option<nat>)
    ensures i.Some? ==> i.value < |list| && nameOf(list[i.value]) == name
    ensures i.Some? ==> forall j :: 0 <= j < i.value ==> nameOf(list[j]) != name
    ensures i.None? ==> forall j :: 0 <= j < |list| ==> nameOf(list[j]) != name
  {
    if list == [] then None
    else if nameOf(list[0]) == name then Some(0)
    else match FirstNamed(list[1..], nameOf, name)
      case None => None
      case Some(k) => Some(k + 1)
  }

  function GetBinding(name: string, list: seq<Binding>): (r: Lookup<Binding>)
    ensures r.err.None? <==> exists i :: 0 <= i < |list| && list[i].name == name
    ensures r.err.None? ==> r.value.name == name
    ensures r.err.None? ==> exists i :: (0 <= i < |list| && list[i] == r.value &&
      forall j :: 0 <= j < i ==> list[j].name != name)
    ensures r.err.Some? ==> r.value == ZeroBinding
  {
    match FirstNamed(list, (b: Binding) => b.name, name)
    case Some(i) => Lookup(list[i], None)
    case None => Lookup(ZeroBinding, Some(ErrNotFound))
  }

  function GetSource(name: string, list: seq<Source>): (r: Lookup<Source>)
    ensures r.err.None? <==> exists i :: 0 <= i < |list| && list[i].name == name
    ensures r.err.None? ==> r.value.name == name
    ensures r.err.None? ==> exists i :: (0 <= i < |list| && list[i] == r.value &&
      forall j :: 0 <= j < i ==> list[j].name != name)
    ensures r.err.Some? ==> r.value == ZeroSource
  {
    match FirstNamed(list, (s: Source) => s.name, name)
    case Some(i) => Lookup(list[i], None)
    case None => Lookup(ZeroSource, Some(ErrNotFound))
  }

  function GetTarget(name: string, list: seq<Target>): (r: Lookup<Target>)
    ensures r.err.None? <==> exists i :: 0 <= i < |list| && list[i].name == name
    ensures r.err.None? ==> r.value.name == name
    ensures r.err.None? ==> exists i :: (0 <= i < |list| && list[i] == r.value &&
      forall j :: 0 <= j < i ==> list[j].name != name)
    ensures r.err.Some? ==> r.value == ZeroTarget
  {
    match FirstNamed(list, (t: Target) => t.name, name)
    case Some(i) => Lookup(list[i], None)
    case None => Lookup(ZeroTarget, Some(ErrNotFound))
  }

  /** The binding found is the one at the first index carrying the name. */
  lemma GetBindingFirst(list: seq<Binding>, k: nat)
    requires k < |list|
    requires forall j :: 0 <= j < k ==> list[j].name != list[k].name
    ensures GetBinding(list[k].name, list) == Lookup(list[k], None)
  {
    var r := GetBinding(list[k].name, list);
    assert r.err.None?;
    var i :| 0 <= i < |list| && list[i] == r.value && forall j :: 0 <= j < i ==> list[j].name != list[k].name;
  }
}
