/** Helpers of the current command (cmd/cmdutils.go): the task-name codec,
    the filter predicate, the credential decision of `buildURL`, and the JSON
    projections that swallow their errors. */
module CmdUtils {
  import opened Engine
  import opened Sync
  import opened External
  import Template

  const Separator: string := ":::"

  /** The separator occurs in `s` starting at index `j`. */
  predicate SeparatorAt(s: string, j: nat)
  {
    j + |Separator| <= |s| && s[j..j + |Separator|] == Separator
  }

  predicate SeparatorFree(s: string)
  {
    forall j: nat :: j < |s| ==> !SeparatorAt(s, j)
  }

  /** `buildTaskName`: the binding name, the separator, the source name. */
  function BuildTaskName(b: Binding): (r: string)
    ensures |r| == |b.name| + |Separator| + |b.source|
    ensures r[..|b.name|] == b.name && SeparatorAt(r, |b.name|) && r[|b.name| + |Separator|..] == b.source
  {
    b.name + Separator + b.source
  }

  /** The first index at or after `from` where the separator starts, or |s|. */
  function SeparatorIndex(s: string, from: nat): (i: nat)
    requires from <= |s|
    ensures from <= i <= |s|
    ensures i < |s| ==> SeparatorAt(s, i)
    ensures forall j: nat :: from <= j < i ==> !SeparatorAt(s, j)
    ensures i == |s| ==> forall j: nat :: from <= j < |s| ==> !SeparatorAt(s, j)
    decreases |s| - from
  {
    if from + |Separator| > |s| then |s|
    else if s[from..from + |Separator|] == Separator then from
    else SeparatorIndex(s, from + 1)
  }

  /** `getBindingNameFromTaskName`: `strings.Split(name, ":::")[0]`, the part
      before the first separator, or the whole name when there is none. */
  function GetBindingNameFromTaskName(name: string): (r: string)
    ensures |r| <= |name| && r == name[..|r|]
    ensures SeparatorFree(name) ==> r == name
    ensures |r| < |name| ==> SeparatorAt(name, |r|) && forall j: nat :: j < |r| ==> !SeparatorAt(name, j)
  {
    name[..SeparatorIndex(name, 0)]
  }

  /** The names the codec gives back unchanged. */
  predicate RoundTrips(name: string)
  {
    SeparatorFree(name) && (name == [] || name[|name| - 1] != ':')
  }

  lemma SeparatorAtChars(s: string, j: nat)
    ensures SeparatorAt(s, j) <==> j + 3 <= |s| && s[j] == ':' && s[j + 1] == ':' && s[j + 2] == ':'
  {
    if j + 3 <= |s| && s[j] == ':' && s[j + 1] == ':' && s[j + 2] == ':' {
      assert s[j..j + 3] == Separator;
    }
  }

  lemma SeparatorAtPrefix(name: string, rest: string, j: nat)
    requires SeparatorAt(name, j)
    ensures SeparatorAt(name + rest, j)
  {
    assert (name + rest)[j..j + |Separator|] == name[j..j + |Separator|];
  }

  /** A name that round-trips is found again before the separator. */
  lemma {:induction false} RoundTripHolds(b: Binding)
    requires RoundTrips(b.name)
    ensures GetBindingNameFromTaskName(BuildTaskName(b)) == b.name
  {
    var s := BuildTaskName(b);
    var n := |b.name|;
    SeparatorAtChars(s, n);
    forall j: nat | j < n
      ensures !SeparatorAt(s, j)
    {
      SeparatorAtChars(s, j);
      SeparatorAtChars(b.name, j);
      if j + 3 > n {
        assert s[n - 1] == b.name[n - 1];
      }
    }
    assert s[..n] == b.name;
  }

  /** A name holding the separator decodes to a strict prefix of itself. */
  lemma {:induction false} SeparatorInNameTruncates(b: Binding)
    requires !SeparatorFree(b.name)
    ensures var r := GetBindingNameFromTaskName(BuildTaskName(b));
      |r| < |b.name| && r == b.name[..|r|]
  {
    var j: nat :| j < |b.name| && SeparatorAt(b.name, j);
    SeparatorAtPrefix(b.name, Separator + b.source, j);
    assert BuildTaskName(b) == b.name + (Separator + b.source);
  }

  /** A name ending in ':' runs into the separator, which then starts early. */
  lemma {:induction false} TrailingColonTruncates(b: Binding)
    requires b.name != [] && b.name[|b.name| - 1] == ':'
    ensures var r := GetBindingNameFromTaskName(BuildTaskName(b));
      |r| < |b.name| && r == b.name[..|r|]
  {
    var s := BuildTaskName(b);
    var n := |b.name|;
    SeparatorAtChars(s, n - 1);
    assert s[n - 1] == b.name[n - 1];
    assert s[..n] == b.name;
  }

  /** Decoding an encoded binding gives its name back exactly when the name
      holds no separator and does not end in ':'. */
  lemma RoundTrip(b: Binding)
    ensures GetBindingNameFromTaskName(BuildTaskName(b)) == b.name <==> RoundTrips(b.name)
  {
    if RoundTrips(b.name) {
      RoundTripHolds(b);
    } else if !SeparatorFree(b.name) {
      SeparatorInNameTruncates(b);
    } else {
      TrailingColonTruncates(b);
    }
  }

  /** A binding named "feed:" holds no separator, yet its task name decodes
      to "feed". */
  lemma TrailingColonDecodesShort()
    ensures GetBindingNameFromTaskName(BuildTaskName(Binding("feed:", "news", "board"))) == "feed"
  {
    var s := BuildTaskName(Binding("feed:", "news", "board"));
    assert s[..5] == "feed:" && SeparatorAt(s, 5);
    SeparatorAtChars(s, 5);
    assert s[4] == ':';
    var i := SeparatorIndex(s, 0);
    SeparatorAtChars(s, 4);
    if i != 4 {
      SeparatorAtChars(s, i);
    }
    assert s[..4] == "feed";
  }

  /** `filter(data, f)`: the template renders to exactly "true". */
  predicate Filter(data: Data, f: string, render: (string, Data) -> string): (b: bool)
    ensures b <==> render(f, data) == "true"
  {
    Template.String(Some(f), data, render) == "true"
  }

  /** The user information `buildURL` attaches. */
  function Credentials(username: string, password: string, render: (string, Data) -> string): (u: Option<Userinfo>)
    ensures u.Some? <==> username != "" && password != ""
    ensures u.Some? ==> u.value.username == render(username, NoData) && u.value.password == render(password, NoData)
  {
    if username != "" && password != "" then
      Some(Userinfo(Template.String(Some(username), NoData, render), Template.String(Some(password), NoData, render)))
    else None
  }

  /** `buildURL(URL, username, password)`: renders the URL, fails when it does
      not parse, otherwise gives its string form with the credentials. */
  function BuildUrl(url: string, username: string, password: string, f: Foreign): (r: Option<string>)
    ensures r.None? <==> !f.urlParses(f.render(url, NoData))
    ensures r.Some? ==> r.value == f.urlString(f.render(url, NoData), Credentials(username, password, f.render))
  {
    var u := Template.String(Some(url), NoData, f.render);
    if !f.urlParses(u) then None
    else Some(f.urlString(u, Credentials(username, password, f.render)))
  }

  /** `toJSON`: whatever happens, a map; the empty map when decoding fails. */
  function ToJson(input: Decoded<map<string, Json>>): (m: map<string, Json>)
    ensures input.Malformed? ==> m == map[]
    ensures input.Ok? ==> m == input.value
  {
    match input
    case Ok(v) => v
    case Malformed => map[]
  }

  /** `toArrayJSON`: whatever happens, a list; the empty list when decoding fails. */
  function ToArrayJson(input: Decoded<seq<map<string, Json>>>): (l: seq<map<string, Json>>)
    ensures input.Malformed? ==> l == []
    ensures input.Ok? ==> l == input.value
  {
    match input
    case Ok(v) => v
    case Malformed => []
  }

  /** `srcToJSON`, `bindingToJSON`, `targetToJSON`, `gofeedItemToJSON`,
      `jiraIssueToJSON`: nil when marshalling fails, otherwise `toJSON` of
      the bytes, so never an error. */
  function Project(x: Marshallable, f: Foreign): (j: Json)
    ensures f.marshal(x).MarshalFailed? <==> j == JNull
    ensures j.JObject? <==> f.marshal(x).Marshalled?
    ensures f.marshal(x).Marshalled? ==> j == JObject(ToJson(f.marshal(x).bytes))
  {
    match f.marshal(x)
    case MarshalFailed => JNull
    case Marshalled(bytes) => JObject(ToJson(bytes))
  }

  /** `feedToJSON`: the projection of the feed with its item list emptied. */
  function FeedToJson(feed: Feed, f: Foreign): (j: Json)
    ensures var m := f.marshal(MFeed(Feed(feed.header, [])));
      (m.MarshalFailed? <==> j == JNull) && (m.Marshalled? ==> j == JObject(ToJson(m.bytes)))
  {
    Project(MFeed(feed.(items := [])), f)
  }

  /** The feed scope does not depend on the feed's items. */
  lemma FeedToJsonIgnoresItems(feed: Feed, items: seq<FeedItem>, f: Foreign)
    ensures FeedToJson(feed.(items := items), f) == FeedToJson(feed, f)
    ensures FeedToJson(feed, f) == Project(MFeed(Feed(feed.header, [])), f)
  {
  }
}
