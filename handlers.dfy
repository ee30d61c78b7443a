/** The four completion handlers of cmd/run.go (the RSS, JSON and JIRA ones
    also appear in main.go): each decodes the finished task's output,
    resolves the binding named in the task name, filters the items and
    emits one trello card task per surviving item. A failing decode, and the
    nil dereference of a missing trello block, card block or JSON block, end
    the run. */
module Handlers {
  import opened Engine
  import opened Sync
  import opened External
  import opened Builders
  import opened CmdUtils
  import opened TaskCandidates
  import Values

  /** The context an RSS item is filtered in: the base scopes and the item. */
  function ItemScopes(tc: Candidate, item: FeedItem, f: Foreign, project: FeedItem -> Json): map<string, Json>
  {
    BaseScopes(tc, f)["item" := project(item)]
  }

  /** The context an RSS card is rendered in: the item's, plus the feed. */
  function CardScopes(tc: Candidate, item: FeedItem, feedJson: Json, f: Foreign, project: FeedItem -> Json): (m: map<string, Json>)
    ensures m.Keys == {"source", "binding", "target", "item", "feed"}
  {
    ItemScopes(tc, item, f, project)["feed" := feedJson]
  }

  /** The items that pass every filter of the candidate's source, in order. */
  function Kept(items: seq<FeedItem>, tc: Candidate, f: Foreign, project: FeedItem -> Json): seq<FeedItem>
    decreases |items|
  {
    if items == [] then []
    else
      var last := items[|items| - 1];
      Kept(items[..|items| - 1], tc, f, project) +
        (if Passes(tc, Context(ItemScopes(tc, last, f, project)), f.render) then [last] else [])
  }

  /** Card i for the i-th kept item, named after its title. */
  function RssCard(kept: seq<FeedItem>, i: nat, tc: Candidate, feedJson: Json, f: Foreign, project: FeedItem -> Json): (t: Task)
    requires i < |kept| && CardReady(tc.target)
    ensures t.name == CardName(i, kept[i].title) && t.service == "trello"
  {
    CreateTrelloTask(CardName(i, kept[i].title), tc, Context(CardScopes(tc, kept[i], feedJson, f, project)), f.render).value
  }

  /** The cards of the kept items; the first one dereferences the target's
      trello and card blocks. */
  function RssCardsOutcome(kept: seq<FeedItem>, tc: Candidate, feedJson: Json, f: Foreign, project: FeedItem -> Json): Outcome
  {
    if kept == [] then Tasks([])
    else if !CardReady(tc.target) then Halt(NilDereference)
    else Tasks(RssCardSeq(kept, |kept|, tc, feedJson, f, project))
  }

  /** The cards of the first `n` kept items, in order. */
  function RssCardSeq(kept: seq<FeedItem>, n: nat, tc: Candidate, feedJson: Json, f: Foreign, project: FeedItem -> Json): (r: seq<Task>)
    requires n <= |kept| && CardReady(tc.target)
    ensures |r| == n
  {
    if n == 0 then [] else RssCardSeq(kept, n - 1, tc, feedJson, f, project) + [RssCard(kept, n - 1, tc, feedJson, f, project)]
  }

  /** `reactToRSSCompletedTask`. The task candidate is populated once per
      item; populating is idempotent, so it is `Resolve` of the decoded
      binding name throughout. */
  function ReactToRssSpec(cnf: Sync, taskName: string, output: string, f: Foreign, project: FeedItem -> Json): Outcome
  {
    match f.decodeCall(output)
    case Malformed => Halt(UnreadableOutput)
    case Ok(res) =>
      match f.parseFeed(res.body)
      case Malformed => Halt(UnparsableFeed)
      case Ok(feed) =>
        var tc := Resolve(GetBindingNameFromTaskName(taskName), cnf);
        RssCardsOutcome(Kept(feed.items, tc, f, project), tc, FeedToJson(feed, f), f, project)
  }

  lemma KeptSnoc(items: seq<FeedItem>, i: nat, tc: Candidate, f: Foreign, project: FeedItem -> Json)
    requires i < |items|
    ensures Kept(items[..i + 1], tc, f, project) == Kept(items[..i], tc, f, project) +
      (if Passes(tc, Context(ItemScopes(tc, items[i], f, project)), f.render) then [items[i]] else [])
  {
    assert items[..i + 1][..i] == items[..i];
  }

  /** The first loop of the RSS handler: for each item, populate the
      candidate, build the item's context and keep the item if it passes. */
  method KeepItems(feedItems: seq<FeedItem>, name: string, cnf: Sync, f: Foreign, project: FeedItem -> Json,
                   tc: TaskCandidate) returns (items: seq<FeedItem>)
    requires tc.Value() == ZeroCandidate
    modifies tc
    ensures items == Kept(feedItems, Resolve(name, cnf), f, project)
    ensures feedItems != [] ==> tc.Value() == Resolve(name, cnf)
  {
    ghost var resolved := Resolve(name, cnf);
    items := [];
    for i := 0 to |feedItems|
      invariant i == 0 ==> tc.Value() == ZeroCandidate
      invariant i > 0 ==> tc.Value() == resolved
      invariant items == Kept(feedItems[..i], resolved, f, project)
    {
      var _ := tc.Populate(name, cnf);
      PopulateIdempotent(name, ZeroCandidate, cnf);
      var data := BuildValues(tc.Value(), f);
      data.Add("item", project(feedItems[i]));
      KeptSnoc(feedItems, i, resolved, f, project);
      assert data.entries == ItemScopes(resolved, feedItems[i], f, project);
      var matched := FilterSource(tc.Value(), Context(data.entries), f.render);
      if !matched {
        continue;
      }
      items := items + [feedItems[i]];
    }
    assert feedItems[..|feedItems|] == feedItems;
  }

  /** The second loop of the RSS handler: card i for kept item i, in a
      context holding the item and the feed. */
  method RssCards(items: seq<FeedItem>, tc: Candidate, feedValues: Json, f: Foreign, project: FeedItem -> Json) returns (out: Outcome)
    ensures out == RssCardsOutcome(items, tc, feedValues, f, project)
  {
    var tasks: seq<Task> := [];
    for i := 0 to |items|
      invariant i > 0 ==> CardReady(tc.target)
      invariant i == 0 ==> tasks == []
      invariant i > 0 ==> tasks == RssCardSeq(items, i, tc, feedValues, f, project)
    {
      var root := BuildValues(tc, f);
      root.Add("item", project(items[i]));
      root.Add("feed", feedValues);
      assert root.entries == CardScopes(tc, items[i], feedValues, f, project);
      var t := CreateTrelloTask(CardName(i, items[i].title), tc, Context(root.entries), f.render);
      if t.None? {
        return Halt(NilDereference);
      }
      tasks := tasks + [t.value];
    }
    return Tasks(tasks);
  }

  /** `gofeedItemToJSON` of cmd/cmdutils.go: the item projection the
      current RSS handler puts under "item". */
  function CurrentItemProjection(f: Foreign): FeedItem -> Json
  {
    item => Project(MItem(item), f)
  }

  /** The RSS handler. `project` is the item projection:
      `CurrentItemProjection(f)` for cmd/run.go, `Legacy.ItemProjection(f)`
      for main.go. */
  method ReactToRss(cnf: Sync, taskName: string, output: string, f: Foreign, project: FeedItem -> Json) returns (out: Outcome)
    ensures out == ReactToRssSpec(cnf, taskName, output, f, project)
  {
    var res := f.decodeCall(output);
    if res.Malformed? {
      return Halt(UnreadableOutput);
    }
    var parsed := f.parseFeed(res.value.body);
    if parsed.Malformed? {
      return Halt(UnparsableFeed);
    }
    var feed := parsed.value;
    var name := GetBindingNameFromTaskName(taskName);
    var tc := new TaskCandidate();
    var items := KeepItems(feed.items, name, cnf, f, project, tc);
    var feedValues := FeedToJson(feed, f);
    out := RssCards(items, tc.Value(), feedValues, f, project);
  }

  /** The JSON handler's context for one piece of content. */
  function ContentScopes(tc: Candidate, content: Json, f: Foreign): map<string, Json>
  {
    BaseScopes(tc, f)["content" := content]
  }

  /** The indices below `n` of the array elements that pass the filters. */
  function PassingIndices(content: seq<map<string, Json>>, n: nat, tc: Candidate, f: Foreign): (idx: seq<nat>)
    requires n <= |content|
    ensures forall j :: 0 <= j < |idx| ==> idx[j] < n
    decreases n
  {
    if n == 0 then []
    else
      PassingIndices(content, n - 1, tc, f) +
        (if ContentPasses(content, n - 1, tc, f) then [n - 1] else [])
  }

  /** Array element `j` passes the filters. */
  predicate ContentPasses(content: seq<map<string, Json>>, j: nat, tc: Candidate, f: Foreign)
    requires j < |content|
  {
    Passes(tc, Context(ContentScopes(tc, JObject(content[j]), f)), f.render)
  }

  /** The card for array element `j`, named with its index in the array. */
  function ArrayCard(content: seq<map<string, Json>>, j: nat, tc: Candidate, f: Foreign): Task
    requires j < |content| && CardReady(tc.target)
  {
    CreateTrelloTask(CardName(j, ""), tc, Context(ContentScopes(tc, JObject(content[j]), f)), f.render).value
  }

  function ArrayOutcome(content: seq<map<string, Json>>, tc: Candidate, f: Foreign): Outcome
  {
    var idx := PassingIndices(content, |content|, tc, f);
    if idx == [] then Tasks([])
    else if !CardReady(tc.target) then Halt(NilDereference)
    else Tasks(ArrayCards(content, idx, tc, f))
  }

  /** The cards of the listed array elements, in the order listed. */
  function ArrayCards(content: seq<map<string, Json>>, idx: seq<nat>, tc: Candidate, f: Foreign): seq<Task>
    requires forall j :: 0 <= j < |idx| ==> idx[j] < |content|
    requires CardReady(tc.target)
    decreases |idx|
  {
    if idx == [] then []
    else ArrayCards(content, idx[..|idx| - 1], tc, f) + [ArrayCard(content, idx[|idx| - 1], tc, f)]
  }

  /** The object branch: one card, named with index 0, when the filters pass. */
  function ObjectOutcome(content: Json, tc: Candidate, f: Foreign): Outcome
  {
    var scopes := ContentScopes(tc, content, f);
    if !Passes(tc, Context(scopes), f.render) then Tasks([])
    else if !CardReady(tc.target) then Halt(NilDereference)
    else Tasks([CreateTrelloTask(CardName(0, ""), tc, Context(scopes), f.render).value])
  }

  /** `reactToJSONCompletedTask`: the item type selects one object, an
      array of objects, or nothing. */
  function ReactToJsonSpec(cnf: Sync, taskName: string, output: string, f: Foreign): Outcome
  {
    match f.decodeCall(output)
    case Malformed => Halt(UnreadableOutput)
    case Ok(res) =>
      var tc := Resolve(GetBindingNameFromTaskName(taskName), cnf);
      if tc.src.json.None? then Halt(NilDereference)
      else
        var itemType := tc.src.json.value.itemType;
        if itemType == "" || itemType == "object" then
          ObjectOutcome(JObject(ToJson(f.unmarshalObject(res.body))), tc, f)
        else if itemType == "array" then
          ArrayOutcome(ToArrayJson(f.unmarshalArray(res.body)), tc, f)
        else Tasks([])
  }

  /** The object branch of the JSON handler. */
  method ReactToJsonObject(content: Json, tc: Candidate, f: Foreign) returns (out: Outcome)
    ensures out == ObjectOutcome(content, tc, f)
  {
    var root := BuildValues(tc, f);
    root.Add("content", content);
    assert root.entries == ContentScopes(tc, content, f);
    var matched := FilterSource(tc, Context(root.entries), f.render);
    if !matched {
      return Tasks([]);
    }
    var t := CreateTrelloTask(CardName(0, ""), tc, Context(root.entries), f.render);
    if t.None? {
      return Halt(NilDereference);
    }
    return Tasks([t.value]);
  }

  /** The array branch of the JSON handler, overwriting "content" in one
      context for each element. */
  method ReactToJsonArray(content: seq<map<string, Json>>, tc: Candidate, f: Foreign) returns (out: Outcome)
    ensures out == ArrayOutcome(content, tc, f)
  {
    var root := BuildValues(tc, f);
    var tasks: seq<Task> := [];
    for i := 0 to |content|
      invariant tasks != [] ==> CardReady(tc.target)
      invariant |tasks| == |PassingIndices(content, i, tc, f)|
      invariant CardReady(tc.target) ==> tasks == ArrayCards(content, PassingIndices(content, i, tc, f), tc, f)
      invariant i == 0 ==> root.entries == BaseScopes(tc, f)
      invariant i > 0 ==> root.entries == ContentScopes(tc, JObject(content[i - 1]), f)
    {
      if i > 0 {
        UpdateTwice(BaseScopes(tc, f), "content", JObject(content[i - 1]), JObject(content[i]));
      }
      root.Add("content", JObject(content[i]));
      var data := Context(root.entries);
      assert data == Context(ContentScopes(tc, JObject(content[i]), f));
      var matched := FilterSource(tc, data, f.render);
      ghost var idx := PassingIndices(content, i, tc, f);
      assert PassingIndices(content, i + 1, tc, f) == idx + (if matched then [i] else []);
      if !matched {
        assert idx + [] == idx;
        continue;
      }
      var t := CreateTrelloTask(CardName(i, ""), tc, data, f.render);
      if t.None? {
        PassingPrefix(content, i + 1, |content|, tc, f);
        return Halt(NilDereference);
      }
      ArrayCardsSnoc(content, idx, i, tc, f);
      assert t.value == ArrayCard(content, i, tc, f);
      tasks := tasks + [t.value];
    }
    return Tasks(tasks);
  }

  lemma ArrayCardsSnoc(content: seq<map<string, Json>>, idx: seq<nat>, i: nat, tc: Candidate, f: Foreign)
    requires forall j :: 0 <= j < |idx| ==> idx[j] < |content|
    requires i < |content| && CardReady(tc.target)
    ensures ArrayCards(content, idx + [i], tc, f) == ArrayCards(content, idx, tc, f) + [ArrayCard(content, i, tc, f)]
  {
    assert (idx + [i])[..|idx|] == idx;
  }

  /** Passing indices grow with the prefix. */
  lemma {:induction false} PassingPrefix(content: seq<map<string, Json>>, m: nat, n: nat, tc: Candidate, f: Foreign)
    requires m <= n <= |content|
    ensures PassingIndices(content, m, tc, f) != [] ==> PassingIndices(content, n, tc, f) != []
    decreases n - m
  {
    if m < n {
      PassingPrefix(content, m, n - 1, tc, f);
    }
  }

  /** The JSON handler. The context is built inside each branch; building
      it before the branch, as the source does, has no effect a caller sees. */
  method ReactToJson(cnf: Sync, taskName: string, output: string, f: Foreign) returns (out: Outcome)
    ensures out == ReactToJsonSpec(cnf, taskName, output, f)
  {
    var res := f.decodeCall(output);
    if res.Malformed? {
      return Halt(UnreadableOutput);
    }
    var tc := new TaskCandidate();
    var name := GetBindingNameFromTaskName(taskName);
    var _ := tc.Populate(name, cnf);
    assert tc.Value() == Resolve(name, cnf);
    if tc.src.json.None? {
      return Halt(NilDereference);
    }
    if tc.src.json.value.itemType == "" || tc.src.json.value.itemType == "object" {
      out := ReactToJsonObject(JObject(ToJson(f.unmarshalObject(res.value.body))), tc.Value(), f);
      return;
    }
    if tc.src.json.value.itemType == "array" {
      out := ReactToJsonArray(ToArrayJson(f.unmarshalArray(res.value.body)), tc.Value(), f);
      return;
    }
    return Tasks([]);
  }

  /** Writing the same key twice keeps the second value. */
  lemma UpdateTwice(m: map<string, Json>, k: string, a: Json, b: Json)
    ensures m[k := a][k := b] == m[k := b]
  {
  }

  /** Item `i` of a JIRA or calendar list, in the handler's context. */
  function ItemData(key: string, items: seq<Json>, i: nat, tc: Candidate, f: Foreign): Data
    requires i < |items|
  {
    Context(BaseScopes(tc, f)[key := items[i]])
  }

  /** The card for item `i`, named with its index and the binding name. */
  function ItemCard(key: string, items: seq<Json>, i: nat, tc: Candidate, bindingName: string, f: Foreign): Task
    requires i < |items| && CardReady(tc.target)
  {
    CreateTrelloTask(CardName(i, bindingName), tc, ItemData(key, items, i, tc, f), f.render).value
  }

  /** Every one of the first `n` items passes the filters. */
  predicate AllPass(key: string, items: seq<Json>, n: nat, tc: Candidate, f: Foreign)
    requires n <= |items|
  {
    forall j :: 0 <= j < n ==> Passes(tc, ItemData(key, items, j, tc, f), f.render)
  }

  lemma AllPassSnoc(key: string, items: seq<Json>, i: nat, tc: Candidate, f: Foreign)
    requires i < |items| && AllPass(key, items, i, tc, f)
    requires Passes(tc, ItemData(key, items, i, tc, f), f.render)
    ensures AllPass(key, items, i + 1, tc, f)
  {
  }

  /** The JIRA and calendar handlers' rule over already projected items: an
      item failing the filter discards every card, including those built
      before it; the first card dereferences the target's card block. */
  function ReactToItemsSpec(key: string, items: seq<Json>, tc: Candidate, bindingName: string, f: Foreign): Outcome
  {
    if items == [] then Tasks([])
    else if !Passes(tc, ItemData(key, items, 0, tc, f), f.render) then Tasks([])
    else if !CardReady(tc.target) then Halt(NilDereference)
    else if !AllPass(key, items, |items|, tc, f) then Tasks([])
    else Tasks(ItemCards(key, items, |items|, tc, bindingName, f))
  }

  /** The cards of the first `n` items, in order. */
  function ItemCards(key: string, items: seq<Json>, n: nat, tc: Candidate, bindingName: string, f: Foreign): seq<Task>
    requires n <= |items| && CardReady(tc.target)
  {
    if n == 0 then [] else ItemCards(key, items, n - 1, tc, bindingName, f) + [ItemCard(key, items, n - 1, tc, bindingName, f)]
  }

  /** The loop shared by the JIRA and calendar handlers. */
  method ReactToItems(key: string, items: seq<Json>, tc: Candidate, bindingName: string, f: Foreign) returns (out: Outcome)
    requires key !in {"source", "binding", "target"}
    ensures out == ReactToItemsSpec(key, items, tc, bindingName, f)
  {
    var root := BuildValues(tc, f);
    var tasks: seq<Task> := [];
    for i := 0 to |items|
      invariant i > 0 ==> CardReady(tc.target)
      invariant AllPass(key, items, i, tc, f)
      invariant i == 0 ==> tasks == []
      invariant i > 0 ==> tasks == ItemCards(key, items, i, tc, bindingName, f)
      invariant i == 0 ==> root.entries == BaseScopes(tc, f)
      invariant i > 0 ==> root.entries == BaseScopes(tc, f)[key := items[i - 1]]
    {
      if i > 0 {
        UpdateTwice(BaseScopes(tc, f), key, items[i - 1], items[i]);
      }
      root.Add(key, items[i]);
      var data := Context(root.entries);
      assert data == ItemData(key, items, i, tc, f);
      var matched := FilterSource(tc, data, f.render);
      if !matched {
        return Tasks([]);
      }
      var t := CreateTrelloTask(CardName(i, bindingName), tc, data, f.render);
      if t.None? {
        return Halt(NilDereference);
      }
      assert t.value == ItemCard(key, items, i, tc, bindingName, f);
      AllPassSnoc(key, items, i, tc, f);
      tasks := tasks + [t.value];
    }
    return Tasks(tasks);
  }

  function IssueScopes(issues: seq<Issue>, f: Foreign): seq<Json>
  {
    seq(|issues|, i requires 0 <= i < |issues| => Project(MIssue(issues[i]), f))
  }

  function EventScopes(events: seq<CalendarEvent>, f: Foreign): seq<Json>
  {
    seq(|events|, i requires 0 <= i < |events| => f.projectEvent(events[i]))
  }

  /** `reactToJIRACompletedTask`. */
  function ReactToJiraSpec(cnf: Sync, taskName: string, output: string, f: Foreign): Outcome
  {
    match f.decodeList(output)
    case Malformed => Halt(UnreadableOutput)
    case Ok(res) =>
      var name := GetBindingNameFromTaskName(taskName);
      ReactToItemsSpec("issue", IssueScopes(res.issues, f), Resolve(name, cnf), name, f)
  }

  method ReactToJira(cnf: Sync, taskName: string, output: string, f: Foreign) returns (out: Outcome)
    ensures out == ReactToJiraSpec(cnf, taskName, output, f)
  {
    var res := f.decodeList(output);
    if res.Malformed? {
      return Halt(UnreadableOutput);
    }
    var tc := new TaskCandidate();
    var name := GetBindingNameFromTaskName(taskName);
    var _ := tc.Populate(name, cnf);
    out := ReactToItems("issue", IssueScopes(res.value.issues, f), tc.Value(), name, f);
  }

  /** `reactToGoogleCalendarCompletedTask`. */
  function ReactToCalendarSpec(cnf: Sync, taskName: string, output: string, f: Foreign): Outcome
  {
    match f.decodeEvents(output)
    case Malformed => Halt(UnreadableOutput)
    case Ok(res) =>
      var name := GetBindingNameFromTaskName(taskName);
      ReactToItemsSpec("event", EventScopes(res.events, f), Resolve(name, cnf), name, f)
  }

  method ReactToCalendar(cnf: Sync, taskName: string, output: string, f: Foreign) returns (out: Outcome)
    ensures out == ReactToCalendarSpec(cnf, taskName, output, f)
  {
    var res := f.decodeEvents(output);
    if res.Malformed? {
      return Halt(UnreadableOutput);
    }
    var tc := new TaskCandidate();
    var name := GetBindingNameFromTaskName(taskName);
    var _ := tc.Populate(name, cnf);
    out := ReactToItems("event", EventScopes(res.value.events, f), tc.Value(), name, f);
  }
}
