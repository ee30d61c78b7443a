# Rss-sync dispatch and transform pipeline, in Dafny

Rss-sync turns a sync configuration into task descriptions for a workflow
engine. A configuration names sources, targets and bindings. Each source is
an RSS feed, a JSON endpoint, a JIRA query or a Google calendar. Each target
is a Trello list.

When the engine starts, the dispatcher walks the bindings in order. For each
one it emits a single fetch task for the first populated variant of the
binding's source. It registers the task name, `binding:::source`, with that
variant's completion condition. When a fetch task finishes, the handler for
its variant:

- decodes the binding name from the task name;
- resolves the binding, its source and its target again;
- filters the fetched items with the source's filter templates;
- emits one Trello `addcard` task per surviving item.

The older `main` package has the same pipeline without the calendar
variant. Its helpers in `utils.go` differ in a few places.

The model covers both packages:

| module | file | models |
|---|---|---|
| `Engine` | engine.dfy | tasks, arguments, events, JSON values and the `Halt` outcome of a fatal error |
| `Sync` | sync.dfy | the configuration types and the first-match lookups |
| `External` | external.dfy | the libraries the pipeline calls, as parameters |
| `Template` | template.dfy | `String` and `StringArray` |
| `Values` | values.dfy | the evaluation context |
| `Condition` | condition.dfy | the `TaskFinished` completion condition |
| `CmdUtils` | cmdutils.dfy | the task-name codec, `filter`, `buildURL` and the JSON projections |
| `Builders` | builders.dfy | the http, JIRA, Trello and calendar task builders |
| `TaskCandidates` | candidate.dfy | `populateTaskCandidate`, `buildValues` and `filterSource` |
| `Dispatch` | dispatch.dfy | the engine-started reaction |
| `Handlers`, `HandlerLemmas` | handlers.dfy, handler_lemmas.dfy | the four completion handlers and what they promise |
| `Legacy` | legacy.dfy | the `utils.go` helpers that differ from the current ones |

The code updates state in place in these spots, and the model keeps them
as classes:

- `Condition.TaskFinished` is a watch-list appended in place.
- `Values.Values` is the context map, overwritten key by key.
- `TaskCandidates.TaskCandidate` is filled field by field through a pointer.

Each loop of the source is a method, with one exception. The method is
proved against a specification function (`Run`, `Kept`, `PassingIndices`,
`ReactToItemsSpec`, ...), and the lemmas state what the source promises
about those functions. The exception is the three first-match loops of
`getBinding`, `getSource` and `getTarget` in cmd/sync.go. Each stops at the
first match, and all three are the one recursive function `Sync.FirstNamed`.

The libraries are fields of one `External.Foreign` value:

- the template engine;
- `encoding/json`;
- `net/url`;
- the feed parser;
- the service-account file read;
- the engine's task-output decoding.

Every property therefore holds whatever those libraries do. A fatal
`dieOnError`, and a nil pointer dereference, is the outcome
`Halt(reason)`.

In these places the model follows the code as written:

- **Failed lookups in handlers.** The handlers ignore the error from
  `populateTaskCandidate`. A binding, source or target that does not
  resolve is not fatal there. It only ends the run when a card is built
  through the missing Trello or card block, or when the JSON block is read
  (`Halt(NilDereference)`).
- **Filters are a map.** A source's filters form a Go map, not an ordered
  list. `FilterSource` visits the keys in an arbitrary order, and the result
  does not depend on that order.
- **The codec round trip needs more than "no separator".** A name without
  `:::` can still fail to round-trip. If it ends in `:`, the separator is
  found one character early: `feed:` comes back as `feed`. The exact
  condition is proved as an if-and-only-if.
- **The legacy dispatcher calls a `buildURL` it does not define.** `main.go`
  calls `buildURL(url, username, password)`, but `utils.go` defines
  `buildURL(rss)`. The legacy dispatcher is modelled as the call `main.go`
  makes: the three-argument decision of `cmd/cmdutils.go`, without the
  calendar branch. The `utils.go` function is modelled on its own as
  `Legacy.BuildUrl`.

## Model

| member | source | states |
|---|---|---|
| Sync.FirstNamed | cmd/sync.go:66-74 | the index found is the first element with the name; none means no element has it |
| Sync.GetBinding | cmd/sync.go:66-74 | success iff some binding has the name; the result is the first such binding; a miss gives errNotFound and the zero binding |
| Sync.GetSource | cmd/sync.go:76-84 | the same first-match and errNotFound contract over sources |
| Sync.GetTarget | cmd/sync.go:86-93 | the same first-match and errNotFound contract over targets |
| Sync.GetBindingFirst | cmd/sync.go:66-71 | a binding with no earlier namesake is exactly what the lookup of its name returns |
| Template.String | pkg/template/template.go:27-38 | a nil template renders to "" whatever the data; `templateString` is the same function: nil gives "" (utils.go:59-68) |
| Template.StringArray | pkg/template/template.go:41-48 | the result has the input's length and element i is template i rendered with no data; `templateStringArray` keeps length and order and renders with nil data (utils.go:70-77) |
| Values.Values.Add | pkg/values/values.go:7-9 | the new map is the old one with the key set to the content: the key holds it, other keys keep their values, the key set grows by the key; the legacy `values.Add`, the same update (values.go:7-9) |
| Condition.TaskFinished.Met | condition.go:13-24 | true iff the event's task is on the watch-list and the event is "task finished"; the list is unchanged |
| Condition.TaskFinished.AddTask | condition.go:26-28 | appends the name at the end and leaves earlier entries as they were |
| Condition.EmptyNeverMet | condition.go:14-21 | an empty watch-list never meets the condition |
| Condition.AddTaskMonotone | condition.go:13-28 | adding a name keeps every event that met the condition, and a finished event for that name now meets it |
| Condition.AddTaskTwice | condition.go:15-19 | adding a name twice meets the same events as adding it once |
| Condition.SatisfiedAppend | condition.go:13-28 | after appending names, an event meets the condition iff it met it before or is a finished event of an added name |
| CmdUtils.SeparatorIndex | cmd/cmdutils.go:74-76 | the position of the first separator at or after the start, or the end of the name when there is none |
| CmdUtils.GetBindingNameFromTaskName | cmd/cmdutils.go:74-76 | the prefix before the first ":::", or the whole name when it has none; the legacy decoder is the same function (utils.go:83-85) |
| CmdUtils.RoundTripHolds | cmd/cmdutils.go:70-76 | a name with no separator that does not end in ':' decodes back to itself |
| CmdUtils.SeparatorInNameTruncates | cmd/cmdutils.go:70-76 | a name holding the separator decodes to a strict prefix of itself, so the codec is not injective |
| CmdUtils.TrailingColonTruncates | cmd/cmdutils.go:70-76 | a name ending in ':' also decodes to a strict prefix |
| CmdUtils.RoundTrip | cmd/cmdutils.go:70-76 | decoding the encoded binding gives its name back iff the name has no separator and does not end in ':' |
| CmdUtils.TrailingColonDecodesShort | cmd/cmdutils.go:70-76 | the binding "feed:" with source "news" decodes to "feed" |
| CmdUtils.Credentials | cmd/cmdutils.go:59-61 | credentials are attached iff both username and password are non-empty, each rendered with no data |
| CmdUtils.BuildUrl | cmd/cmdutils.go:54-63 | fails iff the rendered URL does not parse; otherwise the URL's string form with those credentials |
| CmdUtils.ToJson | cmd/cmdutils.go:127-133 | never an error: the decoded object, or the empty map when decoding fails |
| CmdUtils.ToArrayJson | cmd/cmdutils.go:134-140 | never an error: the decoded list, or the empty list when decoding fails |
| CmdUtils.BuildTaskName | cmd/cmdutils.go:70-72 | the task name is the binding name, then ":::" starting right after it, then the source name |
| CmdUtils.Filter | cmd/cmdutils.go:65-68 | the filter holds iff the template, rendered against the data, gives exactly "true" |
| CmdUtils.Project | cmd/cmdutils.go:78-116 | nil exactly when marshalling fails; otherwise the object decoded from the marshalled bytes (the empty map when decoding fails) |
| CmdUtils.FeedToJson | cmd/cmdutils.go:118-125 | the projection of the feed's header with an empty item list: nil when that marshalling fails, otherwise its decoded object |
| CmdUtils.FeedToJsonIgnoresItems | cmd/cmdutils.go:118-125 | the feed scope is the projection of the feed with its items emptied, whatever the items were |
| Builders.NatToString | cmd/run.go:269 | the decimal form of a card number is non-empty and all digits |
| Builders.NatToStringDecimal | cmd/run.go:269 | the card number's digits, read most significant first, denote the number itself, with no leading zero, as `%d` prints it |
| Builders.BuildHttpTask | cmd/run.go:221-241 | an http `call` with exactly URL = the URL and Verb = GET, in that order; the legacy builder is the same (main.go:135-155) |
| Builders.CreateJiraTask | cmd/run.go:403-435 | a jira `list` with exactly API_Token, Endpoint, User, JQL, QueryFields = "*all", in order; the legacy builder is the same (main.go:292-324) |
| Builders.CreateTrelloTask | cmd/run.go:361-401 | a task exists iff the target has a trello and a card block; it is a trello `addcard` with the given name |
| Builders.TrelloCardContents | cmd/run.go:361-401 | the card's seven arguments: App, Token, Board and List rendered with no data; Name and Description rendered with the card's data ("" when unset); Labels each rendered with no data |
| Builders.TrelloDataOnlyInNameAndDescription | cmd/run.go:361-401 | the seven keys in order; two cards for one candidate differ only in Name and Description; labels are rendered with no data; a missing title gives ""; the legacy builder has the same arguments (main.go:250-290) |
| Builders.AppendIfSet | cmd/run.go:453-531 | one optional step appends its argument exactly when the option is set |
| Builders.CreateGoogleCalendarTask | cmd/run.go:437-543 | the task built step by step is the google-calendar `getEvents` task over `CalendarArguments` |
| Builders.HasKeyConcat | cmd/run.go:437-543 | a key occurs in a concatenation iff it occurs in either part |
| Builders.HasKeyOptional | cmd/run.go:453-531 | an optional step contributes its key iff the option is set |
| Builders.CalendarFixedPrefix | cmd/run.go:438-451 | the arguments always open with ServiceAccount, CalendarID and ShowDeleted, carrying the options' values |
| Builders.CalendarHasKey | cmd/run.go:437-543 | a key occurs iff it is one of the three fixed keys or the key of an option that is set (TimeMax and TimeMin: non-empty) |
| Builders.CalendarMaxResults | cmd/run.go:466-471 | a MaxResults argument occurs iff MaxResults is set |
| Builders.CalendarTimeBounds | cmd/run.go:508-519 | TimeMax and TimeMin occur iff they are non-empty |
| TaskCandidates.PopulateSpec | cmd/run.go:566-586 | binding, then source, then target; the first miss returns errNotFound and leaves that field and the later ones unchanged, while a field found before it holds the found value; success iff all three resolve, giving the full candidate; the legacy `populateTaskCandidate` is the same (main.go:347-367) |
| TaskCandidates.TaskCandidate.Populate | cmd/run.go:566-586 | writing the fields in place leaves the candidate and error of `PopulateSpec` |
| TaskCandidates.PopulateIdempotent | cmd/run.go:254-257 | populating again with the same name changes nothing, so the RSS handler's repeated populate is harmless |
| TaskCandidates.ResolveComplete | cmd/run.go:566-586 | a fully resolved candidate holds the named binding and that binding's source and target |
| TaskCandidates.BaseScopes | cmd/run.go:545-554 | the context has exactly the keys source, binding and target, holding their projections |
| TaskCandidates.BuildValues | cmd/run.go:545-554 | a fresh context holding exactly the base scopes; the legacy `buildValues` is the same (main.go:326-335) |
| TaskCandidates.PassesMeans | cmd/run.go:556-564 | the filters pass iff every template renders exactly "true"; no filters always pass |
| TaskCandidates.FilterSource | cmd/run.go:556-564 | the flag loop returns true iff every filter passes; with no filters it returns true; the legacy `filterSource` is the same loop (main.go:337-345) |
| Dispatch.KindOf | cmd/run.go:133-183 | the first populated variant in the order RSS, JSON, JIRA, Google Calendar |
| Dispatch.CalendarOptionsFor | cmd/run.go:175-182 | the task name and service account as given; calendar id, time-min and time-max rendered with no data; ShowDeleted set; MaxResults and every other option unset |
| Dispatch.CalendarStep | cmd/run.go:168-183 | registers the calendar name first; an unreadable or undecodable service account then halts; otherwise a google-calendar task without MaxResults |
| Dispatch.HttpStep | cmd/run.go:133-154 | the RSS and JSON branches: an unparsable rendered URL halts with nothing registered; otherwise an http task under the binding's name, registered with the branch's kind |
| Dispatch.JiraStep | cmd/run.go:156-167 | the JIRA branch: an unparsable rendered endpoint halts with nothing registered; otherwise a jira task under the binding's name, registered as JIRA |
| Dispatch.HttpStepTask | cmd/run.go:133-154 | the http task fetches the rendered URL with the credentials attached |
| Dispatch.JiraStepTask | cmd/run.go:156-167 | the jira task carries the rendered token, user and query and the rendered endpoint without credentials |
| Dispatch.CalendarStepTask | cmd/run.go:168-183 | the calendar step fails iff the rendered service-account file is unreadable or malformed; otherwise its task is `getEvents` over the options built from the decoded account and the rendered calendar fields |
| Dispatch.StepForKind | cmd/run.go:126-184 | a missing source halts; nothing is emitted iff no variant is handled; an emitted task comes from the first variant and is registered with its kind; only the calendar branch registers before failing |
| Dispatch.StepForTask | cmd/run.go:131-183 | an emitted task is named by the codec, goes to the service of its kind, and a calendar task has no MaxResults |
| Dispatch.Watched | cmd/run.go:141-169 | the names registered with one kind are appended after the earlier ones |
| Dispatch.Registered | cmd/run.go:141-169 | one binding registers at most one name |
| Dispatch.WatchedAppend | cmd/run.go:126-186 | registering in two batches equals registering all at once |
| Dispatch.WatchedStep | cmd/run.go:141-169 | one more binding appends to each condition exactly the name that binding registers with its kind |
| Dispatch.HaltPersists | cmd/run.go:127-130 | once the run has halted, later bindings change nothing |
| Dispatch.DispatchStep | cmd/run.go:126-186 | one more binding is one `Apply` of its step; a failing step is final |
| Dispatch.DispatchBinding | cmd/run.go:127-183 | one loop iteration performs `StepFor` and registers its name with exactly the matching condition |
| Dispatch.DispatchTasks | cmd/run.go:124-187 | the dispatch loop gives the outcome of `Run` and leaves each condition with the names registered for its kind; with no calendar condition: the legacy three-variant dispatcher (main.go:65-110) |
| Dispatch.RunAligned | cmd/run.go:124-187 | task i and registration i belong to one binding: same name, the service of the registered kind, no MaxResults for a calendar task |
| Dispatch.RunNames | cmd/run.go:131 | every registered name is the encoded name of one of the bindings |
| Dispatch.RunHaltsOnMissingSource | cmd/run.go:127-130 | any binding with an unresolvable source halts the run |
| Dispatch.Dispatchable | cmd/run.go:126-186 | the number of bindings whose source has a handled variant is at most the number of bindings |
| Dispatch.RunTaskCount | cmd/run.go:124-187 | a completed run emits exactly one task per binding with a handled variant |
| Dispatch.WatchedMembers | cmd/run.go:141-169 | a name is watched iff it was watched before or was registered with that kind |
| Dispatch.DispatchedConditionMet | cmd/run.go:189-204 | after dispatch, a condition is met iff the event is a finished event whose task was registered with that kind |
| Dispatch.LegacyIgnoresCalendar | main.go:67-109 | the legacy dispatcher never registers a calendar task |
| Dispatch.LegacyAgrees | main.go:67-109 | without calendar-only sources the legacy and current dispatchers agree |
| Dispatch.StepWithoutCalendar | main.go:74-107 | a binding whose source is not calendar-only gets the same step from both dispatchers |
| Handlers.CardScopes | cmd/run.go:264-267 | a card's context has exactly the keys source, binding, target, item and feed |
| Handlers.KeepItems | cmd/run.go:252-263 | the first RSS loop keeps exactly `Kept` of the feed items; the candidate ends up resolved |
| Handlers.RssCards | cmd/run.go:264-270 | the second RSS loop gives one card per kept item, or halts on a target without a card block |
| Handlers.ReactToRss | cmd/run.go:243-273 | the RSS handler gives `ReactToRssSpec`: a bad output or feed halts, otherwise the cards of the kept items; with the legacy item projection: the legacy RSS handler (main.go:157-187) |
| Handlers.PassingIndices | cmd/run.go:299-305 | every listed index is below the bound |
| Handlers.PassingPrefix | cmd/run.go:299-305 | once some element passes, a longer prefix still has one |
| Handlers.ReactToJsonObject | cmd/run.go:289-295 | the object branch: no card if the filters fail, else one card named with index 0 |
| Handlers.ReactToJsonArray | cmd/run.go:297-306 | the array branch, overwriting "content" per element: one card per passing element, in order |
| Handlers.ReactToJson | cmd/run.go:275-309 | the JSON handler gives `ReactToJsonSpec`: a bad output halts, a missing JSON block halts, then by item type; the legacy JSON handler is the same (main.go:189-223) |
| Handlers.ReactToItems | cmd/run.go:324-332 | the JIRA and calendar loop gives `ReactToItemsSpec` |
| Handlers.ReactToJira | cmd/run.go:311-334 | the JIRA handler: a bad output halts, else the item rule over the projected issues under "issue"; the legacy JIRA handler is the same (main.go:225-248) |
| Handlers.ReactToCalendar | cmd/run.go:336-359 | the calendar handler: a bad output halts, else the item rule over the projected events under "event" |
| HandlerLemmas.KeptSound | cmd/run.go:254-263 | an item is kept iff it is in the feed and passes the filters; never more kept than fed |
| HandlerLemmas.KeptAppend | cmd/run.go:254-263 | filtering distributes over concatenation, so kept items stay in feed order |
| HandlerLemmas.KeptWithoutFilters | cmd/run.go:556-564 | with no filters every item is kept |
| Handlers.RssCard | cmd/run.go:265-269 | the card for kept item i is a trello task named "i-created-card-" + its title |
| Handlers.RssCardSeq | cmd/run.go:265-270 | one card for each of the first n kept items |
| HandlerLemmas.RssCardContents | cmd/run.go:264-269 | the card of kept item i is the Trello card over the context whose "item" is that item's projection and whose "feed" is the feed's; its Name and Description are rendered against that context |
| HandlerLemmas.ArrayCardContents | cmd/run.go:299-305 | the card of element j is the Trello card over the context whose "content" is that element; its Name and Description are rendered against that context |
| HandlerLemmas.ItemCardContents | cmd/run.go:325-331 | the card of item i is the Trello card over the context holding that item under the handler's key; its Name and Description are rendered against it |
| HandlerLemmas.RssCardSeqNames | cmd/run.go:264-270 | card i is the card of kept item i (`RssCard`), a trello task named "i-created-card-" + that item's title |
| HandlerLemmas.RssOutcome | cmd/run.go:243-273 | the RSS handler halts iff something is kept and the target lacks a card block; otherwise one card per kept item, numbered by position in the kept list |
| HandlerLemmas.PassingIndicesExact | cmd/run.go:299-305 | the passing indices increase, and an index is listed iff its element passes |
| HandlerLemmas.ArrayCardsNames | cmd/run.go:299-305 | array card i is the card of the i-th listed element (`ArrayCard`), named with that element's original index |
| HandlerLemmas.JsonOtherType | cmd/run.go:289-307 | an item type other than "", "object" and "array" gives no task |
| HandlerLemmas.JsonObjectAtMostOne | cmd/run.go:289-295 | "" or "object" gives at most one card, none when the filters fail, named with index 0 |
| HandlerLemmas.JsonArrayNames | cmd/run.go:297-306 | "array" gives one card per passing element, named with the element's index |
| HandlerLemmas.ItemCardsNames | cmd/run.go:325-331 | card i of the item rule is the card of item i (`ItemCard`), named "i-created-card-" + binding name |
| HandlerLemmas.ItemsAllOrNothing | cmd/run.go:325-356 | no card or one per item; a failing item leaves no card (or the halt of the first card); halts iff the first item passes and the target lacks a card block; the JIRA loop (325-331) and the calendar loop (350-356) follow this rule |
| HandlerLemmas.NatToStringInjective | cmd/run.go:269 | different card numbers print differently |
| HandlerLemmas.CardNamesDistinct | cmd/run.go:265-269 | two cards with different numbers never share a name, whatever their suffixes (titles, "" or the binding name) |
| Legacy.BuildTaskName | utils.go:79-81 | the legacy name is the name, ":::", the RSS entry: the current encoding of the same triple |
| Legacy.LegacyRoundTrip | utils.go:79-85 | the legacy codec round-trips exactly the same names as the current one |
| Legacy.ItemToJson | utils.go:87-97 | the empty map when marshalling or decoding fails, otherwise the decoded object |
| Legacy.ItemProjectionAgrees | utils.go:87-97 | the legacy projection is always an object; it matches the current one when marshalling succeeds and is empty where the current one is nil |
| Legacy.ItemContext | utils.go:52-54 | the legacy filter context has "item" as its only key |
| Legacy.FilterItem | utils.go:52-57 | true iff the template, rendered against the context holding only the item's projection, gives exactly "true" |
| Legacy.FilterItemMeans | utils.go:52-57 | the legacy filter is true iff the template, rendered against the item-only context, gives exactly "true"; it depends only on the item |
| Legacy.Credentials | utils.go:46-48 | credentials iff the auth block is present, whatever the strings |
| Legacy.BuildUrl | utils.go:41-50 | fails iff the URL as written does not parse; the URL is not rendered as a template |
| Legacy.EmptyCredentialsDiffer | utils.go:46-48 | an auth block with an empty field gets credentials here and none in the current `buildURL` |
| Legacy.BuildUrlAgrees | utils.go:41-50 | with non-empty credentials and a URL that renders to itself, the two `buildURL`s agree |

## Left out

- Command line, configuration loading and the engine are not modelled:
  `runCmd`, `init`, `readSyncFiles`, `readFile`, the YAML parsing, and
  `core.Pipeline`/`NewEngine`/`HandleEngineError`. The engine runs
  dispatch before any handler, so handlers take the configuration and a
  finished task's output as parameters.
- The task output a handler reads from the engine's state
  (`state.Tasks()[ev.Metadata.Task].Output`) is a parameter.
- Library behaviour is a parameter of `External.Foreign`:
  - the template engine with gomplate, and `template.Must`'s panic on a
    template that does not parse (rendering is total here);
  - `StartDay`/`EndDay`, which read the wall clock;
  - `json.Marshal`/`Unmarshal`, including a partial decode left behind by
    a failing `Unmarshal` (a failure counts as the empty map or list here);
  - `url.Parse`/`String`, and `gofeed.ParseString`;
  - the service-account file read.
- `googleCalendarEventToJSON` is not part of this model. The calendar
  handler takes the event projection as the parameter `projectEvent`.
- `dieOnError` prints and exits the process; here it is the outcome
  `Halt(reason)`. The message printed is not modelled, nor is the "nil
  input" line that `Template.String` prints for a nil template.
- Handlers.ReactToJson: the context is built inside each branch rather than
  before the branch. Building it has no effect a caller can see.
- Dispatch.DispatchTasks: the body of the loop is the method
  `DispatchBinding`.
- The legacy `main` package is modelled as far as it is consistent:
  - `main.go` calls a three-argument `buildURL`; it is modelled as that call.
  - `main.go` calls `filter(data, f)` through `filterSource`; it is
    modelled as the current filter, and the item-only `filter` of
    `utils.go` is `Legacy.FilterItem` on its own.
  - source.go and rss.go are type declarations that conflict with each
    other; the configuration types are those of cmd/sync.go, except the
    legacy binding's `RSS` field in `Legacy.LegacyBinding`.
  - `main.go` calls `getBinding`, `getSource`, `getTarget`, `feedToJSON`,
    `toJSON`, `toArrayJSON`, `srcToJSON`, `bindingToJSON`, `targetToJSON`
    and `jiraIssueToJSON`, which `utils.go` does not define; they are
    taken from cmd/sync.go and cmd/cmdutils.go.
- Go integers do not overflow here: card numbers are list indices, which
  are unbounded `nat`s.
