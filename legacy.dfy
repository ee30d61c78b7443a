/** The helpers of the older `main` package (utils.go) where they differ from
    the current command: bindings that name an RSS entry, a filter that sees
    only the item, an item projection that never yields nil, and a
    `buildURL` that attaches credentials whenever an auth block is present.
    The helpers that are the same (`templateString`, `templateStringArray`,
    `getBindingNameFromTaskName`) are those of modules Template and CmdUtils. */
module Legacy {
  import opened Engine
  import opened Sync
  import opened External
  import opened CmdUtils
  import Template

  /** A binding of the older configuration: its source field is `RSS`. */
  datatype LegacyBinding = LegacyBinding(name: string, rss: string, target: string)

  /** `buildTaskName`: the binding name, the separator, the RSS entry name. */
  function BuildTaskName(b: LegacyBinding): (r: string)
    ensures r == CmdUtils.BuildTaskName(Binding(b.name, b.rss, b.target))
  {
    b.name + Separator + b.rss
  }

  /** The older codec behaves as the current one: the name comes back exactly
      when it holds no separator and does not end in ':'. */
  lemma LegacyRoundTrip(b: LegacyBinding)
    ensures GetBindingNameFromTaskName(BuildTaskName(b)) == b.name <==> RoundTrips(b.name)
  {
    RoundTrip(Binding(b.name, b.rss, b.target));
  }

  /** `gofeedItemToJSON` of utils.go: the empty map when marshalling or
      decoding fails, never nil. */
  function ItemToJson(item: FeedItem, f: Foreign): (m: map<string, Json>)
    ensures f.marshal(MItem(item)).MarshalFailed? ==> m == map[]
    ensures f.marshal(MItem(item)).Marshalled? ==> m == ToJson(f.marshal(MItem(item)).bytes)
  {
    match f.marshal(MItem(item))
    case MarshalFailed => map[]
    case Marshalled(bytes) => ToJson(bytes)
  }

  /** The item projection the older RSS handler puts under "item". */
  function ItemProjection(f: Foreign): FeedItem -> Json
  {
    item => JObject(ItemToJson(item, f))
  }

  /** The older projection agrees with the current one whenever marshalling
      succeeds; when it fails the older one gives an empty object where the
      current one gives nil. */
  lemma ItemProjectionAgrees(item: FeedItem, f: Foreign)
    ensures ItemProjection(f)(item).JObject?
    ensures f.marshal(MItem(item)).Marshalled? ==> ItemProjection(f)(item) == Project(MItem(item), f)
    ensures f.marshal(MItem(item)).MarshalFailed? ==>
      ItemProjection(f)(item) == JObject(map[]) && Project(MItem(item), f) == JNull
  {
  }

  /** The context the older `filter` renders in: the item alone. */
  function ItemContext(item: FeedItem, f: Foreign): (m: map<string, Json>)
    ensures m.Keys == {"item"}
  {
    map["item" := JObject(ItemToJson(item, f))]
  }

  /** `filter(item, f)` of utils.go: the template, executed against the
      item-only context, prints exactly "true". */
  function FilterItem(item: FeedItem, tmpl: string, f: Foreign): (b: bool)
    ensures b <==> f.render(tmpl, Context(map["item" := JObject(ItemToJson(item, f))])) == "true"
  {
    Template.String(Some(tmpl), Context(ItemContext(item, f)), f.render) == "true"
  }

  /** The older filter decides on the item alone: it agrees with the current
      filter run over the item-only context, and two items with the same
      projection are filtered alike. */
  lemma FilterItemMeans(item: FeedItem, other: FeedItem, tmpl: string, f: Foreign)
    ensures FilterItem(item, tmpl, f) <==> f.render(tmpl, Context(map["item" := JObject(ItemToJson(item, f))])) == "true"
    ensures FilterItem(item, tmpl, f) == Filter(Context(ItemContext(item, f)), tmpl, f.render)
    ensures ItemToJson(item, f) == ItemToJson(other, f) ==> FilterItem(item, tmpl, f) == FilterItem(other, tmpl, f)
  {
  }

  /** The user information the older `buildURL` attaches: present exactly
      when the auth block is, with both strings rendered with no data. */
  function Credentials(auth: Option<Auth>, render: (string, Data) -> string): (u: Option<Userinfo>)
    ensures u.Some? <==> auth.Some?
    ensures u.Some? ==> u.value == Userinfo(render(auth.value.username, NoData), render(auth.value.password, NoData))
  {
    match auth
    case None => None
    case Some(a) =>
      Some(Userinfo(Template.String(Some(a.username), NoData, render), Template.String(Some(a.password), NoData, render)))
  }

  /** `buildURL(rss)` of utils.go: the URL is parsed as written, without
      rendering it as a template. */
  function BuildUrl(rss: RssSource, f: Foreign): (r: Option<string>)
    ensures r.None? <==> !f.urlParses(rss.url)
    ensures r.Some? ==> r.value == f.urlString(rss.url, Credentials(rss.auth, f.render))
  {
    if !f.urlParses(rss.url) then None
    else Some(f.urlString(rss.url, Credentials(rss.auth, f.render)))
  }

  /** Where the two `buildURL`s part: an auth block with an empty username
      gives credentials in the older one and none in the current one. */
  lemma EmptyCredentialsDiffer(rss: RssSource, f: Foreign)
    requires rss.auth.Some? && (rss.auth.value.username == "" || rss.auth.value.password == "")
    ensures Credentials(rss.auth, f.render).Some?
    ensures CmdUtils.Credentials(rss.auth.value.username, rss.auth.value.password, f.render).None?
  {
  }

  /** With both credentials non-empty and a URL that renders to itself, the
      two `buildURL`s give the same result. */
  lemma BuildUrlAgrees(rss: RssSource, f: Foreign)
    requires rss.auth.Some? && rss.auth.value.username != "" && rss.auth.value.password != ""
    requires f.render(rss.url, NoData) == rss.url
    ensures BuildUrl(rss, f) == CmdUtils.BuildUrl(rss.url, rss.auth.value.username, rss.auth.value.password, f)
  {
  }
}
