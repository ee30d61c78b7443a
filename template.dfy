/** Template rendering (pkg/template/template.go): the nil case of `String`
    and the label renderer `StringArray`. Executing a template is the
    renderer passed in; utils.go's `templateString` and `templateStringArray`
    are the same code over a renderer with fewer functions. */
module Template {
  import opened Engine

  /** `String(tmpl, data)`: a nil template renders to the empty string. */
  function String(tmpl: Option<string>, data: Data, render: (string, Data) -> string): (out: string)
    ensures tmpl.None? ==> out == ""
  {
    match tmpl
    case None => ""
    case Some(t) => render(t, data)
  }

  /** Each template rendered on its own, with no data. */
  function RenderAll(tmpls: seq<string>, render: (string, Data) -> string): seq<string>
  {
    seq(|tmpls|, i requires 0 <= i < |tmpls| => String(Some(tmpls[i]), NoData, render))
  }

  /** `StringArray(tmpls)`: one output per template, in order, each rendered
      with nil data. */
  method StringArray(tmpls: seq<string>, render: (string, Data) -> string) returns (res: seq<string>)
    ensures |res| == |tmpls|
    ensures forall i :: 0 <= i < |tmpls| ==> res[i] == render(tmpls[i], NoData)
    ensures res == RenderAll(tmpls, render)
  {
    res := [];
    for i := 0 to |tmpls|
      invariant |res| == i
      invariant forall j :: 0 <= j < i ==> res[j] == render(tmpls[j], NoData)
    {
      res := res + [String(Some(tmpls[i]), NoData, render)];
    }
  }
}
