/** Values exchanged with the workflow engine, its service catalogue and the
    template library: JSON data, template input, task descriptions, events, and
    the outcome of one reaction. */
module Engine {

  datatype Option<+T> = None | Some(value: T)

  /** A JSON value as Go's encoding/json decodes it into `interface{}`. */
  datatype Json =
    | JNull
    | JBool(b: bool)
    | JNumber(n: real)
    | JString(s: string)
    | JArray(elems: seq<Json>)
    | JObject(fields: map<string, Json>)

  /** What a template is executed against: `nil`, or a map of named scopes. */
  datatype Data = NoData | Context(scopes: map<string, Json>)

  /** The credentials file of a Google service account, as the calendar
      service expects it; its fields are opaque to the sync pipeline. */
  datatype ServiceAccount = ServiceAccount(fields: Json)

  /** The value of one task argument. */
  datatype ArgValue =
    | Text(s: string)
    | Flag(b: bool)
    | Count(n: int)
    | Texts(ss: seq<string>)
    | Account(sa: ServiceAccount)

  datatype Argument = Argument(key: string, value: ArgValue)

  /** A task description: metadata name, service, endpoint and ordered arguments. */
  datatype Task = Task(name: string, service: string, endpoint: string, arguments: seq<Argument>)

  /** The keys of an argument list, in order. */
  function Keys(args: seq<Argument>): (ks: seq<string>)
    ensures |ks| == |args|
    ensures forall i :: 0 <= i < |args| ==> ks[i] == args[i].key
  {
    if args == [] then [] else [args[0].key] + Keys(args[1..])
  }

  /** The name of an engine event; the engine's "task finished" constant is
      `TaskFinishedEvent`, every other name is `OtherEvent`. */
  datatype EventName = TaskFinishedEvent | OtherEvent(name: string)

  /** An engine event: its name and the name of the task it concerns. */
  datatype Event = Event(name: EventName, task: string)

  /** Why a run stops: every `dieOnError` with a non-nil error, and every nil
      pointer dereference, ends the process. */
  datatype HaltReason =
    | SourceNotFound(source: string)
    | InvalidUrl(url: string)
    | UnreadableOutput
    | UnparsableFeed
    | UnreadableServiceAccount
    | NilDereference

  /** The result of one reaction: the tasks it returns, or the end of the run.
      A `nil` slice and an empty slice are both `Tasks([])`. */
  datatype Outcome = Tasks(tasks: seq<Task>) | Halt(reason: HaltReason)
}
