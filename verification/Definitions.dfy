/** The depth check on the call graph of a document (definitions.py `resolve_reusable_components`). */
module Definitions {
  import opened Prelude
  import opened EventMatching
  import opened FunctionDepth
  import JsonPointers

  /** The reusable functions of a document, by name. */
  function Functions(source: Json): map<string, Json> {
    var use := JsonPointers.Descend(source, ["use", "functions"]);
    if use.Obj? then use.fields else map[]
  }

  /** Each function with the functions its definition calls. */
  function Graph(source: Json): Calls {
    map name | name in Functions(source) :: JsonPointers.Calls(Functions(source)[name], Functions(source).Keys)
  }

  lemma GraphClosed(source: Json)
    ensures Closed(Graph(source))
  {
    forall n, d | n in Graph(source) && d in Graph(source)[n] ensures d in Graph(source) {
      JsonPointers.CallsAreTasks(Functions(source)[n], Functions(source).Keys, d);
    }
  }

  /** An edge of the graph: a task that the resolver visits inside one function calls the other by name. */
  lemma GraphEdges(source: Json, name: string, other: string)
    requires name in Functions(source)
    ensures other in Graph(source)[name] <==>
            && other in Functions(source)
            && exists steps, w :: JsonPointers.TaskAt(Functions(source)[name], steps) == Some(w)
                                  && JsonPointers.CallsNamed(w, other)
  {
    JsonPointers.CallsAreTasks(Functions(source)[name], Functions(source).Keys, other);
  }

  /** A document's functions are accepted exactly when no chain of calls among them is longer than 32; a chain follows
      calls found anywhere in the definitions. */
  method CheckFunctions(source: Json) returns (ok: bool)
    ensures ok <==> Bounded(Graph(source), LIMIT)
    ensures ok ==> !Cyclic(Graph(source))
  {
    GraphClosed(source);
    var dependencies: Calls := map[];
    var rest := Functions(source).Keys;
    while rest != {}
      invariant rest <= Functions(source).Keys && dependencies.Keys == Functions(source).Keys - rest
      invariant forall n :: n in dependencies ==> dependencies[n] == Graph(source)[n]
      decreases |rest|
    {
      var name :| name in rest;
      dependencies := dependencies[name := JsonPointers.Calls(Functions(source)[name], Functions(source).Keys)];
      rest := rest - {name};
    }
    assert dependencies == Graph(source);
    var checker := new DepthChecker(dependencies);
    ok := checker.Check();
  }
}
