/** The per-reaction state of cmd/run.go (and main.go): the task candidate
    that `populateTaskCandidate` fills through a pointer, the evaluation
    context `buildValues` seeds, and the AND over the filter templates. */
module TaskCandidates {
  import opened Engine
  import opened Sync
  import opened External
  import opened Builders
  import CmdUtils
  import Values

  /** The candidate after `populateTaskCandidate`, and the error it returns. */
  datatype Populated = Populated(tc: Candidate, err: Option<LookupError>)

  /** `populateTaskCandidate(name, tc, cnf)`: looks up the binding, then the
      binding's source, then its target, writing each into `tc` as it is
      found; the first miss returns its error and leaves that field and the
      later ones as they were. */
  function PopulateSpec(name: string, tc: Candidate, cnf: Sync): (r: Populated)
    ensures GetBinding(name, cnf.bindings).err.Some? ==> r == Populated(tc, Some(ErrNotFound))
    ensures GetBinding(name, cnf.bindings).err.None? ==> r.tc.binding == GetBinding(name, cnf.bindings).value
    ensures r.tc.src != tc.src ==> r.tc.src == GetSource(r.tc.binding.source, cnf.sources).value
    ensures r.tc.target != tc.target ==> r.tc.target == GetTarget(r.tc.binding.target, cnf.targets).value
    ensures r.err.None? <==>
      GetBinding(name, cnf.bindings).err.None? &&
      GetSource(GetBinding(name, cnf.bindings).value.source, cnf.sources).err.None? &&
      GetTarget(GetBinding(name, cnf.bindings).value.target, cnf.targets).err.None?
    ensures r.err.None? ==> r.tc == Candidate(
      GetTarget(r.tc.binding.target, cnf.targets).value,
      GetBinding(name, cnf.bindings).value,
      GetSource(r.tc.binding.source, cnf.sources).value)
    ensures r.err.Some? ==> r.tc.target == tc.target
    ensures r.err.Some? ==> r.err == Some(ErrNotFound)
    ensures GetBinding(name, cnf.bindings).err.None? ==>
      var s := GetSource(GetBinding(name, cnf.bindings).value.source, cnf.sources);
      r.tc.src == (if s.err.Some? then tc.src else s.value)
  {
    var b := GetBinding(name, cnf.bindings);
    if b.err.Some? then Populated(tc, b.err)
    else
      var withBinding := tc.(binding := b.value);
      var s := GetSource(b.value.source, cnf.sources);
      if s.err.Some? then Populated(withBinding, s.err)
      else
        var withSource := withBinding.(src := s.value);
        var t := GetTarget(b.value.target, cnf.targets);
        if t.err.Some? then Populated(withSource, t.err)
        else Populated(withSource.(target := t.value), None)
  }

  /** The candidate a handler works with: a zero candidate populated once. */
  function Resolve(name: string, cnf: Sync): Candidate
  {
    PopulateSpec(name, ZeroCandidate, cnf).tc
  }

  /** Populating a second time with the same name changes nothing, so the
      RSS handler, which populates once per feed item, sees `Resolve`. */
  lemma PopulateIdempotent(name: string, tc: Candidate, cnf: Sync)
    ensures PopulateSpec(name, PopulateSpec(name, tc, cnf).tc, cnf) == PopulateSpec(name, tc, cnf)
  {
  }

  /** A binding that resolves fully gives the candidate of its own source and
      target. */
  lemma ResolveComplete(name: string, cnf: Sync)
    requires PopulateSpec(name, ZeroCandidate, cnf).err.None?
    ensures Resolve(name, cnf).binding.name == name
    ensures Resolve(name, cnf).src.name == Resolve(name, cnf).binding.source
    ensures Resolve(name, cnf).target.name == Resolve(name, cnf).binding.target
  {
  }

  class TaskCandidate {
    var target: Target
    var binding: Binding
    var src: Source

    /** `taskCandidate{}`: every field at its zero value. */
    constructor ()
      ensures Value() == ZeroCandidate
    {
      target := ZeroTarget;
      binding := ZeroBinding;
      src := ZeroSource;
    }

    function Value(): Candidate
      reads this
    {
      Candidate(target, binding, src)
    }

    /** `populateTaskCandidate(name, &tc, cnf)`, writing the fields in place. */
    method Populate(name: string, cnf: Sync) returns (err: Option<LookupError>)
      modifies this
      ensures Populated(Value(), err) == PopulateSpec(name, old(Value()), cnf)
    {
      var b := GetBinding(name, cnf.bindings);
      if b.err.Some? {
        return b.err;
      }
      binding := b.value;
      var s := GetSource(binding.source, cnf.sources);
      if s.err.Some? {
        return s.err;
      }
      src := s.value;
      var t := GetTarget(binding.target, cnf.targets);
      if t.err.Some? {
        return t.err;
      }
      target := t.value;
      return None;
    }
  }

  /** The scopes `buildValues` puts in a fresh context: the JSON projections
      of the source, the binding and the target. */
  function BaseScopes(tc: Candidate, f: Foreign): (m: map<string, Json>)
    ensures m.Keys == {"source", "binding", "target"}
    ensures m["source"] == CmdUtils.Project(MSource(tc.src), f)
    ensures m["binding"] == CmdUtils.Project(MBinding(tc.binding), f)
    ensures m["target"] == CmdUtils.Project(MTarget(tc.target), f)
  {
    map["source" := CmdUtils.Project(MSource(tc.src), f),
        "binding" := CmdUtils.Project(MBinding(tc.binding), f),
        "target" := CmdUtils.Project(MTarget(tc.target), f)]
  }

  /** `buildValues(tc)`: a new context holding exactly the three base scopes. */
  method BuildValues(tc: Candidate, f: Foreign) returns (root: Values.Values)
    ensures fresh(root)
    ensures root.entries == BaseScopes(tc, f)
  {
    var targetValues := CmdUtils.Project(MTarget(tc.target), f);
    var bindingValues := CmdUtils.Project(MBinding(tc.binding), f);
    var srcValues := CmdUtils.Project(MSource(tc.src), f);
    root := new Values.Values();
    root.Add("source", srcValues);
    root.Add("binding", bindingValues);
    root.Add("target", targetValues);
  }

  /** Every filter template of the source renders to exactly "true". */
  predicate Passes(tc: Candidate, data: Data, render: (string, Data) -> string)
  {
    forall k :: k in tc.src.filter ==> CmdUtils.Filter(data, tc.src.filter[k], render)
  }

  /** The filters pass exactly when each template, executed against the
      data, prints "true"; with no filters everything passes. */
  lemma PassesMeans(tc: Candidate, data: Data, render: (string, Data) -> string)
    ensures Passes(tc, data, render) <==> forall k :: k in tc.src.filter ==> render(tc.src.filter[k], data) == "true"
    ensures tc.src.filter == map[] ==> Passes(tc, data, render)
  {
  }

  /** `filterSource(tc, data)`: a flag cleared by any failing filter, over the
      filter map in whatever order Go visits it. */
  method FilterSource(tc: Candidate, data: Data, render: (string, Data) -> string) returns (matched: bool)
    ensures matched == Passes(tc, data, render)
    ensures tc.src.filter == map[] ==> matched
  {
    matched := true;
    var left := tc.src.filter.Keys;
    while left != {}
      invariant left <= tc.src.filter.Keys
      invariant matched <==> forall k :: k in tc.src.filter && k !in left ==> CmdUtils.Filter(data, tc.src.filter[k], render)
      decreases left
    {
      var k :| k in left;
      if !CmdUtils.Filter(data, tc.src.filter[k], render) {
        matched := false;
      }
      left := left - {k};
    }
  }
}
