/** The completion condition (condition.go): an append-only watch-list of
    task names, met by a "task finished" event for a watched task. */
module Condition {
  import opened Engine

  /** When a watch-list is met by an event. */
  predicate Satisfied(followTasks: seq<string>, ev: Event)
  {
    ev.task in followTasks && ev.name == TaskFinishedEvent
  }

  class TaskFinished {
    var followTasks: seq<string>

    constructor ()
      ensures followTasks == []
    {
      followTasks := [];
    }

    /** `Met(ev)`: the event's task is watched and the event is "task
        finished"; the watch-list is only read. */
    method Met(ev: Event) returns (met: bool)
      ensures met <==> (exists i :: 0 <= i < |followTasks| && followTasks[i] == ev.task) && ev.name == TaskFinishedEvent
      ensures met == Satisfied(followTasks, ev)
    {
      met := false;
      for i := 0 to |followTasks|
        invariant met <==> exists j :: 0 <= j < i && followTasks[j] == ev.task
      {
        if followTasks[i] == ev.task {
          met := true;
        }
      }
      if !met {
        return false;
      }
      met := ev.name == TaskFinishedEvent;
    }

    /** `AddTask(name)` appends `name`; earlier entries are untouched. */
    method AddTask(name: string)
      modifies this
      ensures followTasks == old(followTasks) + [name]
      ensures followTasks[..|old(followTasks)|] == old(followTasks)
    {
      followTasks := followTasks + [name];
    }
  }

  /** With nothing watched, no event meets the condition. */
  lemma EmptyNeverMet(ev: Event)
    ensures !Satisfied([], ev)
  {
  }

  /** Adding a name keeps every event that met the condition, and makes the
      finished event of the added task meet it. */
  lemma AddTaskMonotone(followTasks: seq<string>, name: string, ev: Event)
    ensures Satisfied(followTasks, ev) ==> Satisfied(followTasks + [name], ev)
    ensures Satisfied(followTasks + [name], Event(TaskFinishedEvent, name))
  {
  }

  /** Adding a name a second time changes no answer. */
  lemma AddTaskTwice(followTasks: seq<string>, name: string, ev: Event)
    ensures Satisfied(followTasks + [name] + [name], ev) == Satisfied(followTasks + [name], ev)
  {
  }

  /** Appending names meets exactly the events met before plus the finished
      events of the appended names. */
  lemma SatisfiedAppend(followTasks: seq<string>, added: seq<string>, ev: Event)
    ensures Satisfied(followTasks + added, ev) <==>
      Satisfied(followTasks, ev) || (ev.task in added && ev.name == TaskFinishedEvent)
  {
  }
}
