/** What the completion handlers of cmd/run.go promise, stated over the
    specification functions of module Handlers: which items are kept, how
    many cards come out and what they are named, and the all-or-nothing
    rule of the JIRA and calendar handlers. */
module HandlerLemmas {
  import opened Engine
  import opened Sync
  import opened External
  import opened Builders
  import opened CmdUtils
  import opened TaskCandidates
  import opened Handlers

  /** An RSS item survives exactly when it passes every filter; nothing else
      gets in and there are never more survivors than items. */
  lemma {:induction false} KeptSound(items: seq<FeedItem>, tc: Candidate, f: Foreign, project: FeedItem -> Json)
    ensures |Kept(items, tc, f, project)| <= |items|
    ensures forall x :: x in Kept(items, tc, f, project) <==>
      x in items && Passes(tc, Context(ItemScopes(tc, x, f, project)), f.render)
    decreases |items|
  {
    if items != [] {
      var init := items[..|items| - 1];
      KeptSound(init, tc, f, project);
      assert items == init + [items[|items| - 1]];
    }
  }

  /** Filtering distributes over concatenation, so the kept items keep their
      feed order. */
  lemma {:induction false} KeptAppend(a: seq<FeedItem>, b: seq<FeedItem>, tc: Candidate, f: Foreign, project: FeedItem -> Json)
    ensures Kept(a + b, tc, f, project) == Kept(a, tc, f, project) + Kept(b, tc, f, project)
    decreases |b|
  {
    if b == [] {
      assert a + b == a;
    } else {
      var init := b[..|b| - 1];
      KeptAppend(a, init, tc, f, project);
      assert (a + b)[..|a + b| - 1] == a + init;
    }
  }

  /** A source without filters keeps every item of the feed. */
  lemma {:induction false} KeptWithoutFilters(items: seq<FeedItem>, tc: Candidate, f: Foreign, project: FeedItem -> Json)
    requires tc.src.filter == map[]
    ensures Kept(items, tc, f, project) == items
    decreases |items|
  {
    if items != [] {
      var init := items[..|items| - 1];
      KeptWithoutFilters(init, tc, f, project);
      PassesMeans(tc, Context(ItemScopes(tc, items[|items| - 1], f, project)), f.render);
      assert items == init + [items[|items| - 1]];
    }
  }

  /** The RSS cards: one per kept item, card i named after item i's title. */
  lemma {:induction false} RssCardSeqNames(kept: seq<FeedItem>, n: nat, tc: Candidate, feedJson: Json, f: Foreign, project: FeedItem -> Json)
    requires n <= |kept| && CardReady(tc.target)
    ensures forall i :: 0 <= i < n ==>
      RssCardSeq(kept, n, tc, feedJson, f, project)[i].name == CardName(i, kept[i].title) &&
      RssCardSeq(kept, n, tc, feedJson, f, project)[i].service == "trello"
    ensures forall i :: 0 <= i < n ==>
      RssCardSeq(kept, n, tc, feedJson, f, project)[i] == RssCard(kept, i, tc, feedJson, f, project)
  {
    if n > 0 {
      RssCardSeqNames(kept, n - 1, tc, feedJson, f, project);
      var init := RssCardSeq(kept, n - 1, tc, feedJson, f, project);
      var all := RssCardSeq(kept, n, tc, feedJson, f, project);
      forall i | 0 <= i < n
        ensures all[i] == RssCard(kept, i, tc, feedJson, f, project)
        ensures all[i].name == CardName(i, kept[i].title) && all[i].service == "trello"
      {
        if i < n - 1 {
          assert all[i] == init[i];
        } else {
          assert all[i] == RssCard(kept, n - 1, tc, feedJson, f, project);
        }
      }
    }
  }

  /** The RSS card for kept item i is rendered in that item's own context:
      the base scopes, the item's projection under "item" and the feed under
      "feed". */
  lemma RssCardContents(kept: seq<FeedItem>, i: nat, tc: Candidate, feedJson: Json, f: Foreign, project: FeedItem -> Json)
    requires i < |kept| && CardReady(tc.target)
    ensures var scopes := CardScopes(tc, kept[i], feedJson, f, project);
      scopes["item"] == project(kept[i]) && scopes["feed"] == feedJson &&
      RssCard(kept, i, tc, feedJson, f, project) ==
        CreateTrelloTask(CardName(i, kept[i].title), tc, Context(scopes), f.render).value
    ensures var card := tc.target.trello.value.card.value;
      var scopes := CardScopes(tc, kept[i], feedJson, f, project);
      var a := RssCard(kept, i, tc, feedJson, f, project).arguments;
      |a| == 7 &&
      a[4] == Argument("Name", Text(if card.title.Some? then f.render(card.title.value, Context(scopes)) else "")) &&
      a[5] == Argument("Description", Text(if card.description.Some? then f.render(card.description.value, Context(scopes)) else ""))
  {
    TrelloCardContents(CardName(i, kept[i].title), tc, Context(CardScopes(tc, kept[i], feedJson, f, project)), f.render);
  }

  /** A successful RSS reaction gives one trello card per kept item, named
      with its position and title; a target without a card block halts only
      when some item is kept. */
  lemma RssOutcome(kept: seq<FeedItem>, tc: Candidate, feedJson: Json, f: Foreign, project: FeedItem -> Json)
    ensures RssCardsOutcome(kept, tc, feedJson, f, project).Halt? <==> kept != [] && !CardReady(tc.target)
    ensures RssCardsOutcome(kept, tc, feedJson, f, project).Tasks? ==>
      var ts := RssCardsOutcome(kept, tc, feedJson, f, project).tasks;
      |ts| == |kept| && forall i :: 0 <= i < |ts| ==> ts[i].name == CardName(i, kept[i].title)
  {
    if kept != [] && CardReady(tc.target) {
      RssCardSeqNames(kept, |kept|, tc, feedJson, f, project);
    }
  }

  /** The passing array indices come in increasing order, and an index below
      `n` is listed exactly when its element passes the filters. */
  lemma {:induction false} PassingIndicesExact(content: seq<map<string, Json>>, n: nat, tc: Candidate, f: Foreign)
    requires n <= |content|
    ensures forall j, k :: 0 <= j < k < |PassingIndices(content, n, tc, f)| ==>
      PassingIndices(content, n, tc, f)[j] < PassingIndices(content, n, tc, f)[k]
    ensures forall m: nat :: m in PassingIndices(content, n, tc, f) <==> m < n && ContentPasses(content, m, tc, f)
    decreases n
  {
    if n > 0 {
      PassingIndicesExact(content, n - 1, tc, f);
    }
  }

  /** The array cards: card i is named with the index of the i-th passing
      element in the array, not with its rank among the survivors. */
  lemma {:induction false} ArrayCardsNames(content: seq<map<string, Json>>, idx: seq<nat>, tc: Candidate, f: Foreign)
    requires forall j :: 0 <= j < |idx| ==> idx[j] < |content|
    requires CardReady(tc.target)
    ensures |ArrayCards(content, idx, tc, f)| == |idx|
    ensures forall i :: 0 <= i < |idx| ==> ArrayCards(content, idx, tc, f)[i].name == CardName(idx[i], "")
    ensures forall i :: 0 <= i < |idx| ==> ArrayCards(content, idx, tc, f)[i] == ArrayCard(content, idx[i], tc, f)
    decreases |idx|
  {
    if idx != [] {
      var init := idx[..|idx| - 1];
      ArrayCardsNames(content, init, tc, f);
      var last := ArrayCard(content, idx[|idx| - 1], tc, f);
      assert last.name == CardName(idx[|idx| - 1], "");
      var all := ArrayCards(content, idx, tc, f);
      assert all == ArrayCards(content, init, tc, f) + [last];
      forall i | 0 <= i < |idx|
        ensures all[i] == ArrayCard(content, idx[i], tc, f)
        ensures all[i].name == CardName(idx[i], "")
      {
        if i < |idx| - 1 {
          assert all[i] == ArrayCards(content, init, tc, f)[i];
          assert idx[i] == init[i];
        }
      }
    }
  }

  /** The array card for element j is rendered in that element's own
      context: the base scopes and the element under "content". */
  lemma ArrayCardContents(content: seq<map<string, Json>>, j: nat, tc: Candidate, f: Foreign)
    requires j < |content| && CardReady(tc.target)
    ensures var scopes := ContentScopes(tc, JObject(content[j]), f);
      scopes["content"] == JObject(content[j]) &&
      ArrayCard(content, j, tc, f) == CreateTrelloTask(CardName(j, ""), tc, Context(scopes), f.render).value
    ensures var card := tc.target.trello.value.card.value;
      var scopes := ContentScopes(tc, JObject(content[j]), f);
      var a := ArrayCard(content, j, tc, f).arguments;
      |a| == 7 &&
      a[4] == Argument("Name", Text(if card.title.Some? then f.render(card.title.value, Context(scopes)) else "")) &&
      a[5] == Argument("Description", Text(if card.description.Some? then f.render(card.description.value, Context(scopes)) else ""))
  {
    TrelloCardContents(CardName(j, ""), tc, Context(ContentScopes(tc, JObject(content[j]), f)), f.render);
  }

  /** The JSON handler with an item type other than "", "object" and
      "array" produces nothing. */
  lemma JsonOtherType(cnf: Sync, taskName: string, output: string, f: Foreign)
    requires f.decodeCall(output).Ok?
    requires var tc := Resolve(GetBindingNameFromTaskName(taskName), cnf);
      tc.src.json.Some? && tc.src.json.value.itemType !in {"", "object", "array"}
    ensures ReactToJsonSpec(cnf, taskName, output, f) == Tasks([])
  {
  }

  /** The object branch yields at most one card, none when the filters fail. */
  lemma JsonObjectAtMostOne(content: Json, tc: Candidate, f: Foreign)
    ensures ObjectOutcome(content, tc, f).Tasks? ==> |ObjectOutcome(content, tc, f).tasks| <= 1
    ensures !Passes(tc, Context(ContentScopes(tc, content, f)), f.render) ==> ObjectOutcome(content, tc, f) == Tasks([])
    ensures ObjectOutcome(content, tc, f).Tasks? && ObjectOutcome(content, tc, f).tasks != [] ==>
      ObjectOutcome(content, tc, f).tasks[0].name == CardName(0, "")
  {
  }

  /** The array branch yields one card per passing element, named with that
      element's index in the array. */
  lemma JsonArrayNames(content: seq<map<string, Json>>, tc: Candidate, f: Foreign)
    ensures var out := ArrayOutcome(content, tc, f);
      var idx := PassingIndices(content, |content|, tc, f);
      out.Tasks? ==> |out.tasks| == |idx| && forall i :: 0 <= i < |idx| ==> out.tasks[i].name == CardName(idx[i], "")
  {
    var idx := PassingIndices(content, |content|, tc, f);
    if idx != [] && CardReady(tc.target) {
      ArrayCardsNames(content, idx, tc, f);
    }
  }

  lemma {:induction false} ItemCardsNames(key: string, items: seq<Json>, n: nat, tc: Candidate, bindingName: string, f: Foreign)
    requires n <= |items| && CardReady(tc.target)
    ensures |ItemCards(key, items, n, tc, bindingName, f)| == n
    ensures forall i :: 0 <= i < n ==> ItemCards(key, items, n, tc, bindingName, f)[i].name == CardName(i, bindingName)
    ensures forall i :: 0 <= i < n ==> ItemCards(key, items, n, tc, bindingName, f)[i] == ItemCard(key, items, i, tc, bindingName, f)
  {
    if n > 0 {
      ItemCardsNames(key, items, n - 1, tc, bindingName, f);
      var last := ItemCard(key, items, n - 1, tc, bindingName, f);
      assert last.name == CardName(n - 1, bindingName);
      var init := ItemCards(key, items, n - 1, tc, bindingName, f);
      var all := ItemCards(key, items, n, tc, bindingName, f);
      assert all == init + [last];
      forall i | 0 <= i < n
        ensures all[i] == ItemCard(key, items, i, tc, bindingName, f)
        ensures all[i].name == CardName(i, bindingName)
      {
        if i < n - 1 {
          assert all[i] == init[i];
        }
      }
    }
  }

  /** The card for item i of the JIRA and calendar rule is rendered in that
      item's own context: the base scopes and the item under `key`. */
  lemma ItemCardContents(key: string, items: seq<Json>, i: nat, tc: Candidate, bindingName: string, f: Foreign)
    requires i < |items| && CardReady(tc.target)
    ensures ItemData(key, items, i, tc, f).scopes[key] == items[i]
    ensures ItemCard(key, items, i, tc, bindingName, f) ==
      CreateTrelloTask(CardName(i, bindingName), tc, ItemData(key, items, i, tc, f), f.render).value
    ensures var card := tc.target.trello.value.card.value;
      var data := ItemData(key, items, i, tc, f);
      var a := ItemCard(key, items, i, tc, bindingName, f).arguments;
      |a| == 7 &&
      a[4] == Argument("Name", Text(if card.title.Some? then f.render(card.title.value, data) else "")) &&
      a[5] == Argument("Description", Text(if card.description.Some? then f.render(card.description.value, data) else ""))
  {
    TrelloCardContents(CardName(i, bindingName), tc, ItemData(key, items, i, tc, f), f.render);
  }

  /** The JIRA and calendar handlers are all or nothing: either no card or
      one card per item, card i named with i and the binding name; a single
      item failing the filter empties the result unless the first card has
      already halted the run. */
  lemma ItemsAllOrNothing(key: string, items: seq<Json>, tc: Candidate, bindingName: string, f: Foreign)
    ensures var out := ReactToItemsSpec(key, items, tc, bindingName, f);
      out.Tasks? && out.tasks != [] ==>
        |out.tasks| == |items| && AllPass(key, items, |items|, tc, f) &&
        forall i :: 0 <= i < |items| ==> out.tasks[i].name == CardName(i, bindingName)
    ensures !AllPass(key, items, |items|, tc, f) ==>
      ReactToItemsSpec(key, items, tc, bindingName, f) in {Tasks([]), Halt(NilDereference)}
    ensures ReactToItemsSpec(key, items, tc, bindingName, f).Halt? <==>
      items != [] && Passes(tc, ItemData(key, items, 0, tc, f), f.render) && !CardReady(tc.target)
  {
    if items != [] && CardReady(tc.target) {
      ItemCardsNames(key, items, |items|, tc, bindingName, f);
    }
  }

  /** Card numbers are written in decimal, so different numbers give
      different names. */
  lemma NatToStringInjective(n: nat, m: nat)
    requires NatToString(n) == NatToString(m)
    ensures n == m
  {
    NatToStringDecimal(n);
    NatToStringDecimal(m);
  }

  /** A card name opens with the digits of its number, followed by '-'. */
  lemma CardNameDigits(i: nat, suffix: string)
    ensures var c, a := CardName(i, suffix), NatToString(i);
      |a| < |c| && c[..|a|] == a && c[|a|] == '-' &&
      forall k :: 0 <= k < |a| ==> '0' <= c[k] <= '9'
  {
  }

  /** Two cards of one reaction never share a name, whatever their
      suffixes: the digits before "-created-card-" are the number's decimal
      form, and different numbers have different decimal forms. */
  lemma CardNamesDistinct(i: nat, j: nat, suffix: string, other: string)
    requires i != j
    ensures CardName(i, suffix) != CardName(j, other)
  {
    CardNameDigits(i, suffix);
    CardNameDigits(j, other);
    if CardName(i, suffix) == CardName(j, other) && |NatToString(i)| == |NatToString(j)| {
      NatToStringInjective(i, j);
    }
  }
}
