/** The engine-started reaction of cmd/run.go: one fetch task per binding, in
    configuration order, chosen by the first populated variant of the
    binding's source, with the task name registered on that variant's
    completion condition. The older main package runs the same loop without
    the calendar variant (`withCalendar` false). */
module Dispatch {
  import opened Engine
  import opened Sync
  import opened External
  import opened Builders
  import opened CmdUtils
  import Condition
  import Template

  datatype Kind = RssKind | JsonKind | JiraKind | CalendarKind

  /** A task name added to the condition of one kind. */
  datatype Registration = Registration(kind: Kind, name: string)

  /** What one binding contributes: a task (and its registration), nothing,
      or the end of the run, possibly after a registration. */
  datatype Step =
    | Emit(reg: Registration, task: Task)
    | Skip
    | Fail(reason: HaltReason, registered: Option<Registration>)

  /** The variant the dispatcher acts on: the first one set, in the order
      RSS, JSON, JIRA, Google Calendar (the last only when handled). */
  function KindOf(src: Source, withCalendar: bool): (k: Option<Kind>)
    ensures k == Some(RssKind) <==> src.rss.Some?
    ensures k == Some(JsonKind) <==> src.rss.None? && src.json.Some?
    ensures k == Some(JiraKind) <==> src.rss.None? && src.json.None? && src.jira.Some?
    ensures k == Some(CalendarKind) <==>
      withCalendar && src.rss.None? && src.json.None? && src.jira.None? && src.googleCalendar.Some?
  {
    if src.rss.Some? then Some(RssKind)
    else if src.json.Some? then Some(JsonKind)
    else if src.jira.Some? then Some(JiraKind)
    else if withCalendar && src.googleCalendar.Some? then Some(CalendarKind)
    else None
  }

  /** The service each kind's fetch task is addressed to. */
  function ServiceOf(k: Kind): string
  {
    match k
    case RssKind => "http"
    case JsonKind => "http"
    case JiraKind => "jira"
    case CalendarKind => "google-calendar"
  }

  /** The options the dispatcher gives the calendar builder: the rendered
      calendar id and time bounds, ShowDeleted set, nothing else. */
  function CalendarOptionsFor(name: string, sa: ServiceAccount, cal: CalendarSource, render: (string, Data) -> string): (o: CalendarOptions)
    ensures o.taskName == name && o.serviceAccount == sa
    ensures o.calendarId == render(cal.calendarId, NoData)
    ensures o.timeMin == render(cal.timeMin, NoData) && o.timeMax == render(cal.timeMax, NoData)
    ensures o.showDeleted
    ensures o.iCalUid.None? && o.maxAttendees.None? && o.maxResults.None? && o.orderBy.None? &&
      o.privateExtendedProperty.None? && o.q.None? && o.sharedExtendedProperty.None? &&
      o.showHiddenInvitations.None? && o.singleEvents.None? && o.timeZone.None? && o.updatedMin.None?
  {
    CalendarOptions(
      name, sa,
      Template.String(Some(cal.calendarId), NoData, render),
      None, None, None, None, None, None, None,
      true,
      None, None,
      Template.String(Some(cal.timeMax), NoData, render),
      Template.String(Some(cal.timeMin), NoData, render),
      None, None)
  }

  /** The RSS credentials handed to `buildURL`: empty unless `Auth` is set. */
  function RssUser(rss: RssSource): string
  {
    if rss.auth.Some? then rss.auth.value.username else ""
  }

  function RssPassword(rss: RssSource): string
  {
    if rss.auth.Some? then rss.auth.value.password else ""
  }

  /** The RSS and JSON branches: the rendered URL must parse; the task is
      a GET of that URL, registered under `name` with `kind`. */
  function HttpStep(kind: Kind, name: string, url: string, username: string, password: string, f: Foreign): (s: Step)
    ensures s.Emit? || s == Fail(InvalidUrl(url), None)
    ensures s.Fail? <==> !f.urlParses(f.render(url, NoData))
    ensures s.Emit? ==> s.reg == Registration(kind, name) && s.task.name == name && s.task.service == "http"
  {
    match BuildUrl(url, username, password, f)
    case None => Fail(InvalidUrl(url), None)
    case Some(u) => Emit(Registration(kind, name), BuildHttpTask(name, u))
  }

  /** The JIRA branch: the rendered endpoint must parse; the task lists the
      issues of the rendered query. */
  function JiraStep(name: string, jira: JiraSource, f: Foreign): (s: Step)
    ensures s.Emit? || s == Fail(InvalidUrl(jira.endpoint), None)
    ensures s.Fail? <==> !f.urlParses(f.render(jira.endpoint, NoData))
    ensures s.Emit? ==> s.reg == Registration(JiraKind, name) && s.task.name == name && s.task.service == "jira"
  {
    match BuildUrl(jira.endpoint, "", "", f)
    case None => Fail(InvalidUrl(jira.endpoint), None)
    case Some(u) => Emit(Registration(JiraKind, name), CreateJiraTask(JiraOptions(
      name,
      Template.String(Some(jira.token), NoData, f.render),
      u,
      Template.String(Some(jira.user), NoData, f.render),
      Template.String(Some(jira.jql), NoData, f.render))))
  }

  /** The calendar branch: registers the name, then reads and decodes the
      service-account file, either of which may end the run. */
  function CalendarStep(name: string, cal: CalendarSource, f: Foreign): (s: Step)
    ensures s.Emit? || s.Fail?
    ensures s.Emit? ==> s.reg == Registration(CalendarKind, name) && s.task.service == "google-calendar"
    ensures s.Emit? ==> !HasKey(s.task.arguments, "MaxResults")
    ensures s.Fail? ==> s == Fail(UnreadableServiceAccount, Some(Registration(CalendarKind, name)))
  {
    var file := f.readServiceAccount(Template.String(Some(cal.serviceAccount), NoData, f.render));
    if file.Unreadable? || file.account.Malformed? then
      Fail(UnreadableServiceAccount, Some(Registration(CalendarKind, name)))
    else
      var o := CalendarOptionsFor(name, file.account.value, cal, f.render);
      CalendarMaxResults(o);
      Emit(Registration(CalendarKind, name), Task(name, "google-calendar", "getEvents", CalendarArguments(o)))
  }

  /** The HTTP task fetches the rendered URL, carrying the credentials. */
  lemma HttpStepTask(kind: Kind, name: string, url: string, username: string, password: string, f: Foreign)
    ensures var s := HttpStep(kind, name, url, username, password, f);
      s.Emit? ==> s.task == BuildHttpTask(name, f.urlString(f.render(url, NoData), Credentials(username, password, f.render)))
  {
  }

  /** The JIRA task carries the rendered token, user and query and the
      rendered endpoint without credentials. */
  lemma JiraStepTask(name: string, jira: JiraSource, f: Foreign)
    ensures var s := JiraStep(name, jira, f);
      s.Emit? ==> s.task == CreateJiraTask(JiraOptions(
        name,
        f.render(jira.token, NoData),
        f.urlString(f.render(jira.endpoint, NoData), None),
        f.render(jira.user, NoData),
        f.render(jira.jql, NoData)))
  {
  }

  /** The calendar step fails exactly when the rendered service-account
      file is unreadable or malformed; otherwise its task asks for the
      events of the rendered calendar and time window. */
  lemma CalendarStepTask(name: string, cal: CalendarSource, f: Foreign)
    ensures var s := CalendarStep(name, cal, f);
      var file := f.readServiceAccount(f.render(cal.serviceAccount, NoData));
      (s.Fail? <==> file.Unreadable? || file.account.Malformed?) &&
      (s.Emit? ==> s.task == Task(name, "google-calendar", "getEvents",
        CalendarArguments(CalendarOptionsFor(name, file.account.value, cal, f.render))))
  {
  }

  /** One iteration of the dispatch loop for binding `b`. */
  function StepFor(b: Binding, cnf: Sync, f: Foreign, withCalendar: bool): Step
  {
    var lookup := GetSource(b.source, cnf.sources);
    if lookup.err.Some? then Fail(SourceNotFound(b.source), None)
    else
      var src := lookup.value;
      var name := BuildTaskName(b);
      if src.rss.Some? then
        var rss := src.rss.value;
        HttpStep(RssKind, name, rss.url, RssUser(rss), RssPassword(rss), f)
      else if src.json.Some? then
        HttpStep(JsonKind, name, src.json.value.url, "", "", f)
      else if src.jira.Some? then
        JiraStep(name, src.jira.value, f)
      else if withCalendar && src.googleCalendar.Some? then
        CalendarStep(name, src.googleCalendar.value, f)
      else Skip
  }

  /** What one binding contributes: a missing source ends the run; a task is
      emitted for the first populated variant only and registered with its
      kind; a source with no handled variant contributes nothing. */
  lemma StepForKind(b: Binding, cnf: Sync, f: Foreign, withCalendar: bool, s: Step)
    requires s == StepFor(b, cnf, f, withCalendar)
    ensures GetSource(b.source, cnf.sources).err.Some? ==> s == Fail(SourceNotFound(b.source), None)
    ensures s.Skip? <==> GetSource(b.source, cnf.sources).err.None? && KindOf(GetSource(b.source, cnf.sources).value, withCalendar).None?
    ensures s.Emit? ==> GetSource(b.source, cnf.sources).err.None? && KindOf(GetSource(b.source, cnf.sources).value, withCalendar) == Some(s.reg.kind)
    ensures s.Fail? && s.registered.Some? ==> s.registered.value == Registration(CalendarKind, BuildTaskName(b))
  {
  }

  /** An emitted task is named by the codec, goes to the service of its
      kind, and a calendar task carries no result limit. */
  lemma StepForTask(b: Binding, cnf: Sync, f: Foreign, withCalendar: bool, s: Step)
    requires s == StepFor(b, cnf, f, withCalendar)
    ensures s.Emit? ==> s.reg.name == BuildTaskName(b) && s.task.name == BuildTaskName(b)
    ensures s.Emit? ==> s.task.service == ServiceOf(s.reg.kind)
    ensures s.Emit? && s.reg.kind == CalendarKind ==> !HasKey(s.task.arguments, "MaxResults")
  {
  }

  /** The dispatcher's state after a prefix of the bindings: the outcome so
      far and every registration made, in order. */
  datatype Dispatched = Dispatched(outcome: Outcome, regs: seq<Registration>)

  function Apply(d: Dispatched, s: Step): Dispatched
    requires d.outcome.Tasks?
  {
    match s
    case Emit(reg, t) => Dispatched(Tasks(d.outcome.tasks + [t]), d.regs + [reg])
    case Skip => d
    case Fail(reason, registered) =>
      Dispatched(Halt(reason), d.regs + (if registered.Some? then [registered.value] else []))
  }

  /** The dispatch loop over `bindings`, stopping at the first failure. */
  function Run(bindings: seq<Binding>, cnf: Sync, f: Foreign, withCalendar: bool): Dispatched
    decreases |bindings|
  {
    if bindings == [] then Dispatched(Tasks([]), [])
    else
      var prev := Run(bindings[..|bindings| - 1], cnf, f, withCalendar);
      if prev.outcome.Halt? then prev
      else Apply(prev, StepFor(bindings[|bindings| - 1], cnf, f, withCalendar))
  }

  /** A watch-list `init` after the registrations `regs`: the names
      registered with kind `k` appended in order. */
  function Watched(init: seq<string>, regs: seq<Registration>, k: Kind): (names: seq<string>)
    ensures |init| <= |names| <= |init| + |regs|
    ensures names[..|init|] == init
    decreases |regs|
  {
    if regs == [] then init
    else
      var last := regs[|regs| - 1];
      Watched(init, regs[..|regs| - 1], k) + (if last.kind == k then [last.name] else [])
  }

  /** The registrations a step makes. */
  function Registered(s: Step): (regs: seq<Registration>)
    ensures |regs| <= 1
  {
    match s
    case Emit(reg, _) => [reg]
    case Skip => []
    case Fail(_, registered) => if registered.Some? then [registered.value] else []
  }

  /** The name a step adds to the condition of kind `k`, if any. */
  function Added(s: Step, k: Kind): (names: seq<string>)
    ensures |names| <= 1
  {
    match s
    case Emit(reg, _) => if reg.kind == k then [reg.name] else []
    case Skip => []
    case Fail(_, registered) => if registered.Some? && registered.value.kind == k then [registered.value.name] else []
  }

  /** Watching one more step appends what that step adds. */
  lemma WatchedStep(init: seq<string>, regs: seq<Registration>, s: Step)
    ensures forall k :: Watched(init, regs + Registered(s), k) == Watched(init, regs, k) + Added(s, k)
  {
    WatchedAppend(init, regs, Registered(s));
    forall k
      ensures Watched(Watched(init, regs, k), Registered(s), k) == Watched(init, regs, k) + Added(s, k)
    {
      var w := Watched(init, regs, k);
      if Registered(s) == [] {
        assert Added(s, k) == [];
      } else {
        var r := Registered(s)[0];
        assert Registered(s) == [r];
        assert [r][..0] == [];
        assert Watched(w, [r], k) == w + (if r.kind == k then [r.name] else []);
      }
    }
  }

  lemma WatchedAppend(init: seq<string>, regs: seq<Registration>, more: seq<Registration>)
    requires |more| <= 1
    ensures forall k :: Watched(init, regs + more, k) == Watched(Watched(init, regs, k), more, k)
  {
    if more != [] {
      assert (regs + more)[..|regs|] == regs;
      assert more[..0] == [];
    } else {
      assert regs + more == regs;
    }
  }

  /** Once halted, later bindings change nothing. */
  lemma {:induction false} HaltPersists(bindings: seq<Binding>, n: nat, cnf: Sync, f: Foreign, withCalendar: bool)
    requires n <= |bindings|
    requires Run(bindings[..n], cnf, f, withCalendar).outcome.Halt?
    ensures Run(bindings, cnf, f, withCalendar) == Run(bindings[..n], cnf, f, withCalendar)
    decreases |bindings| - n
  {
    if n == |bindings| {
      assert bindings[..n] == bindings;
    } else {
      var init := bindings[..|bindings| - 1];
      assert init[..n] == bindings[..n];
      HaltPersists(init, n, cnf, f, withCalendar);
    }
  }

  /** `Run` over one more binding. */
  lemma RunSnoc(bindings: seq<Binding>, i: nat, cnf: Sync, f: Foreign, withCalendar: bool)
    requires i < |bindings|
    requires Run(bindings[..i], cnf, f, withCalendar).outcome.Tasks?
    ensures Run(bindings[..i + 1], cnf, f, withCalendar) ==
      Apply(Run(bindings[..i], cnf, f, withCalendar), StepFor(bindings[i], cnf, f, withCalendar))
  {
    assert bindings[..i + 1][..i] == bindings[..i];
  }

  /** One more binding, seen from the loop: the new state is `Apply` of the
      step, its registrations are appended, and a failure is final. */
  lemma DispatchStep(bindings: seq<Binding>, i: nat, cnf: Sync, f: Foreign, withCalendar: bool, d: Dispatched, s: Step)
    requires i < |bindings|
    requires Run(bindings[..i], cnf, f, withCalendar) == d && d.outcome.Tasks?
    requires s == StepFor(bindings[i], cnf, f, withCalendar)
    ensures Run(bindings[..i + 1], cnf, f, withCalendar) == Apply(d, s)
    ensures Apply(d, s).regs == d.regs + Registered(s)
    ensures s.Fail? ==> Run(bindings, cnf, f, withCalendar) == Apply(d, s) && Apply(d, s).outcome == Halt(s.reason)
  {
    RunSnoc(bindings, i, cnf, f, withCalendar);
    if s.Fail? {
      HaltPersists(bindings, i + 1, cnf, f, withCalendar);
    }
  }

  /** The body of the dispatch loop for one binding: the `if` chain of
      cmd/run.go, with `AddTask` on the condition of the kind chosen. With no
      calendar condition (`cal == null`) it is the chain of main.go. */
  method DispatchBinding(binding: Binding, cnf: Sync, f: Foreign, rss: Condition.TaskFinished, json: Condition.TaskFinished,
                         jira: Condition.TaskFinished, cal: Condition.TaskFinished?) returns (s: Step)
    requires rss != json && rss != jira && json != jira
    requires cal != rss && cal != json && cal != jira
    modifies rss, json, jira, cal
    ensures rss.followTasks == old(rss.followTasks) + Added(s, RssKind)
    ensures json.followTasks == old(json.followTasks) + Added(s, JsonKind)
    ensures jira.followTasks == old(jira.followTasks) + Added(s, JiraKind)
    ensures cal != null ==> cal.followTasks == old(cal.followTasks) + Added(s, CalendarKind)
    ensures s == StepFor(binding, cnf, f, cal != null)
  {
    var lookup := GetSource(binding.source, cnf.sources);
    if lookup.err.Some? {
      return Fail(SourceNotFound(binding.source), None);
    }
    var src := lookup.value;
    var name := BuildTaskName(binding);

    if src.rss.Some? {
      var username, password := "", "";
      if src.rss.value.auth.Some? {
        username := src.rss.value.auth.value.username;
        password := src.rss.value.auth.value.password;
      }
      var u := BuildUrl(src.rss.value.url, username, password, f);
      if u.None? {
        return Fail(InvalidUrl(src.rss.value.url), None);
      }
      rss.AddTask(name);
      return Emit(Registration(RssKind, name), BuildHttpTask(name, u.value));
    }

    if src.json.Some? {
      var u := BuildUrl(src.json.value.url, "", "", f);
      if u.None? {
        return Fail(InvalidUrl(src.json.value.url), None);
      }
      json.AddTask(name);
      return Emit(Registration(JsonKind, name), BuildHttpTask(name, u.value));
    }

    if src.jira.Some? {
      var u := BuildUrl(src.jira.value.endpoint, "", "", f);
      if u.None? {
        return Fail(InvalidUrl(src.jira.value.endpoint), None);
      }
      jira.AddTask(name);
      return Emit(Registration(JiraKind, name), CreateJiraTask(JiraOptions(
        name,
        Template.String(Some(src.jira.value.token), NoData, f.render),
        u.value,
        Template.String(Some(src.jira.value.user), NoData, f.render),
        Template.String(Some(src.jira.value.jql), NoData, f.render))));
    }

    if cal != null && src.googleCalendar.Some? {
      cal.AddTask(name);
      var file := f.readServiceAccount(Template.String(Some(src.googleCalendar.value.serviceAccount), NoData, f.render));
      if file.Unreadable? || file.account.Malformed? {
        return Fail(UnreadableServiceAccount, Some(Registration(CalendarKind, name)));
      }
      var o := CalendarOptionsFor(name, file.account.value, src.googleCalendar.value, f.render);
      var t := CreateGoogleCalendarTask(o);
      CalendarMaxResults(o);
      return Emit(Registration(CalendarKind, name), t);
    }
    return Skip;
  }

  /** The dispatch reaction: the bindings in order, stopping at the first
      failure. `rss`, `json`, `jira` and `cal` are the completion conditions;
      each receives the names of the tasks of its kind, in order. The main
      package has no calendar condition: `cal == null`. */
  method DispatchTasks(cnf: Sync, f: Foreign, rss: Condition.TaskFinished, json: Condition.TaskFinished,
                       jira: Condition.TaskFinished, cal: Condition.TaskFinished?) returns (out: Outcome)
    requires rss != json && rss != jira && json != jira
    requires cal != rss && cal != json && cal != jira
    modifies rss, json, jira, cal
    ensures out == Run(cnf.bindings, cnf, f, cal != null).outcome
    ensures rss.followTasks == Watched(old(rss.followTasks), Run(cnf.bindings, cnf, f, cal != null).regs, RssKind)
    ensures json.followTasks == Watched(old(json.followTasks), Run(cnf.bindings, cnf, f, cal != null).regs, JsonKind)
    ensures jira.followTasks == Watched(old(jira.followTasks), Run(cnf.bindings, cnf, f, cal != null).regs, JiraKind)
    ensures cal != null ==>
      cal.followTasks == Watched(old(cal.followTasks), Run(cnf.bindings, cnf, f, true).regs, CalendarKind)
  {
    var tasks: seq<Task> := [];
    ghost var regs: seq<Registration> := [];
    for i := 0 to |cnf.bindings|
      invariant Run(cnf.bindings[..i], cnf, f, cal != null) == Dispatched(Tasks(tasks), regs)
      invariant rss.followTasks == Watched(old(rss.followTasks), regs, RssKind)
      invariant json.followTasks == Watched(old(json.followTasks), regs, JsonKind)
      invariant jira.followTasks == Watched(old(jira.followTasks), regs, JiraKind)
      invariant cal != null ==> cal.followTasks == Watched(old(cal.followTasks), regs, CalendarKind)
    {
      var s := DispatchBinding(cnf.bindings[i], cnf, f, rss, json, jira, cal);
      DispatchStep(cnf.bindings, i, cnf, f, cal != null, Dispatched(Tasks(tasks), regs), s);
      WatchedStep(old(rss.followTasks), regs, s);
      WatchedStep(old(json.followTasks), regs, s);
      WatchedStep(old(jira.followTasks), regs, s);
      if cal != null {
        WatchedStep(old(cal.followTasks), regs, s);
      }
      regs := regs + Registered(s);
      match s
      case Emit(_, t) =>
        tasks := tasks + [t];
      case Skip =>
      case Fail(reason, _) =>
        return Halt(reason);
    }
    assert cnf.bindings[..|cnf.bindings|] == cnf.bindings;
    out := Tasks(tasks);
  }

  /** The tasks and the registrations of a run line up one to one: task i is
      registered under its own name with the kind whose service it calls, and
      a calendar task never carries MaxResults. */
  lemma {:induction false} RunAligned(bindings: seq<Binding>, cnf: Sync, f: Foreign, withCalendar: bool)
    ensures var d := Run(bindings, cnf, f, withCalendar);
      d.outcome.Tasks? ==>
        |d.regs| == |d.outcome.tasks| &&
        forall i :: 0 <= i < |d.regs| ==>
          d.regs[i].name == d.outcome.tasks[i].name &&
          d.outcome.tasks[i].service == ServiceOf(d.regs[i].kind) &&
          (d.regs[i].kind == CalendarKind ==> !HasKey(d.outcome.tasks[i].arguments, "MaxResults"))
    decreases |bindings|
  {
    if bindings != [] {
      var init := bindings[..|bindings| - 1];
      RunAligned(init, cnf, f, withCalendar);
      var prev := Run(init, cnf, f, withCalendar);
      if prev.outcome.Tasks? {
        var s := StepFor(bindings[|bindings| - 1], cnf, f, withCalendar);
        StepForKind(bindings[|bindings| - 1], cnf, f, withCalendar, s);
        StepForTask(bindings[|bindings| - 1], cnf, f, withCalendar, s);
      }
    }
  }

  /** Every name a run registers is the encoded name of one of its bindings. */
  lemma {:induction false} RunNames(bindings: seq<Binding>, cnf: Sync, f: Foreign, withCalendar: bool)
    ensures forall r :: r in Run(bindings, cnf, f, withCalendar).regs ==>
      exists j :: 0 <= j < |bindings| && r.name == BuildTaskName(bindings[j])
    decreases |bindings|
  {
    if bindings != [] {
      var init := bindings[..|bindings| - 1];
      RunNames(init, cnf, f, withCalendar);
      var prev := Run(init, cnf, f, withCalendar);
      if prev.outcome.Tasks? {
        var last := |bindings| - 1;
        var s := StepFor(bindings[last], cnf, f, withCalendar);
        StepForKind(bindings[last], cnf, f, withCalendar, s);
        StepForTask(bindings[last], cnf, f, withCalendar, s);
        forall r | r in Run(bindings, cnf, f, withCalendar).regs
          ensures exists j :: 0 <= j < |bindings| && r.name == BuildTaskName(bindings[j])
        {
          if r in prev.regs {
            var j :| 0 <= j < |init| && r.name == BuildTaskName(init[j]);
            assert bindings[j] == init[j];
          } else {
            assert r.name == BuildTaskName(bindings[last]);
          }
        }
      }
    }
  }

  /** A binding whose source is missing ends the run. */
  lemma {:induction false} RunHaltsOnMissingSource(bindings: seq<Binding>, cnf: Sync, f: Foreign, withCalendar: bool, j: nat)
    requires j < |bindings|
    requires GetSource(bindings[j].source, cnf.sources).err.Some?
    ensures Run(bindings, cnf, f, withCalendar).outcome.Halt?
    decreases |bindings|
  {
    var last := |bindings| - 1;
    var init := bindings[..last];
    if j < last {
      assert init[j] == bindings[j];
      RunHaltsOnMissingSource(init, cnf, f, withCalendar, j);
    } else {
      StepForKind(bindings[last], cnf, f, withCalendar, StepFor(bindings[last], cnf, f, withCalendar));
    }
  }

  /** The number of bindings whose source resolves to a handled variant. */
  function Dispatchable(bindings: seq<Binding>, cnf: Sync, withCalendar: bool): (n: nat)
    ensures n <= |bindings|
    decreases |bindings|
  {
    if bindings == [] then 0
    else
      var lookup := GetSource(bindings[|bindings| - 1].source, cnf.sources);
      Dispatchable(bindings[..|bindings| - 1], cnf, withCalendar) +
        (if lookup.err.None? && KindOf(lookup.value, withCalendar).Some? then 1 else 0)
  }

  /** A run that completes emits exactly one task per binding whose source
      has a handled variant, and none for the others. */
  lemma {:induction false} RunTaskCount(bindings: seq<Binding>, cnf: Sync, f: Foreign, withCalendar: bool)
    ensures Run(bindings, cnf, f, withCalendar).outcome.Tasks? ==>
      |Run(bindings, cnf, f, withCalendar).outcome.tasks| == Dispatchable(bindings, cnf, withCalendar)
    decreases |bindings|
  {
    if bindings != [] {
      var last := |bindings| - 1;
      RunTaskCount(bindings[..last], cnf, f, withCalendar);
      StepForKind(bindings[last], cnf, f, withCalendar, StepFor(bindings[last], cnf, f, withCalendar));
    }
  }

  /** A name is on a watch-list exactly when it was there before or was
      registered with the list's kind. */
  lemma {:induction false} WatchedMembers(init: seq<string>, regs: seq<Registration>, k: Kind, n: string)
    ensures n in Watched(init, regs, k) <==> n in init || Registration(k, n) in regs
    decreases |regs|
  {
    if regs != [] {
      var prefix := regs[..|regs| - 1];
      WatchedMembers(init, prefix, k, n);
      assert regs == prefix + [regs[|regs| - 1]];
    }
  }

  /** After dispatch from empty conditions, an event meets the condition of
      kind `k` exactly when it is the "task finished" event of a task the run
      registered with that kind. */
  lemma DispatchedConditionMet(bindings: seq<Binding>, cnf: Sync, f: Foreign, withCalendar: bool, k: Kind, ev: Event)
    ensures Condition.Satisfied(Watched([], Run(bindings, cnf, f, withCalendar).regs, k), ev) <==>
      ev.name == TaskFinishedEvent && Registration(k, ev.task) in Run(bindings, cnf, f, withCalendar).regs
  {
    WatchedMembers([], Run(bindings, cnf, f, withCalendar).regs, k, ev.task);
  }

  /** The main-package dispatcher never registers a calendar task. */
  lemma {:induction false} LegacyIgnoresCalendar(bindings: seq<Binding>, cnf: Sync, f: Foreign)
    ensures forall r :: r in Run(bindings, cnf, f, false).regs ==> r.kind != CalendarKind
    decreases |bindings|
  {
    if bindings != [] {
      var last := |bindings| - 1;
      LegacyIgnoresCalendar(bindings[..last], cnf, f);
      StepForKind(bindings[last], cnf, f, false, StepFor(bindings[last], cnf, f, false));
    }
  }

  /** Without calendar-only sources the two dispatchers agree. */
  lemma {:induction false} LegacyAgrees(bindings: seq<Binding>, cnf: Sync, f: Foreign)
    requires forall j :: 0 <= j < |bindings| ==>
      var lookup := GetSource(bindings[j].source, cnf.sources);
      lookup.err.None? ==> KindOf(lookup.value, true) != Some(CalendarKind)
    ensures Run(bindings, cnf, f, false) == Run(bindings, cnf, f, true)
    decreases |bindings|
  {
    if bindings != [] {
      var last := |bindings| - 1;
      var init := bindings[..last];
      assert forall j :: 0 <= j < |init| ==> init[j] == bindings[j];
      LegacyAgrees(init, cnf, f);
      StepWithoutCalendar(bindings[last], cnf, f);
    }
  }

  lemma StepWithoutCalendar(b: Binding, cnf: Sync, f: Foreign)
    requires var lookup := GetSource(b.source, cnf.sources);
      lookup.err.None? ==> KindOf(lookup.value, true) != Some(CalendarKind)
    ensures StepFor(b, cnf, f, false) == StepFor(b, cnf, f, true)
  {
  }
}
