/** The static side of a run: JSON values and flow definitions. Only `cli` steps and no
    lifecycle hooks are modelled. */
module FlowTypes {
  import opened Wrappers

  type StepId = string

  /** A JSON value. `text` is the compact serialisation of a value that is not a string. */
  datatype Value =
    | JString(s: string)
    | JObject(fields: map<string, Value>, text: string)
    | JArray(items: seq<Value>, text: string)
    | JOther(text: string)

  const JNULL: Value := JOther("null")

  datatype RouteTarget = One(target: StepId) | Many(targets: seq<StepId>) {
    function AsSlice(): seq<StepId> {
      match this
      case One(t) => [t]
      case Many(ts) => ts
    }
  }

  const DONE: StepId := "done"

  datatype CliWith = CliWith(
    cli: string,
    role: Option<string>,
    input: string,
    output: Option<string>,
    extra: map<string, Value>)

  datatype Step = Step(
    id: StepId,
    with: CliWith,
    humanLoop: bool,
    retries: nat,
    rejectInput: Option<string>,
    onSuccess: Option<RouteTarget>,
    onFailure: Option<RouteTarget>,
    onApprove: Option<RouteTarget>,
    onReject: Option<RouteTarget>,
    needs: seq<StepId>)

  datatype FlowDefaults = FlowDefaults(provider: Option<string>, model: Option<string>)

  /** `required` are the names of the inputs declared `required: true`, in order. */
  datatype Flow = Flow(name: string, required: seq<string>, defaults: FlowDefaults, steps: seq<Step>) {

    /** The first step with the given id. */
    function StepOf(id: StepId): (r: Option<Step>)
      ensures r.Some? <==> exists i :: 0 <= i < |steps| && steps[i].id == id
      ensures r.Some? ==> r.value in steps && r.value.id == id
    {
      FirstStep(steps, id)
    }

    predicate Defined(id: StepId) {
      StepOf(id).Some?
    }
  }

  function FirstStep(steps: seq<Step>, id: StepId): (r: Option<Step>)
    ensures r.Some? <==> exists i :: 0 <= i < |steps| && steps[i].id == id
    ensures r.Some? ==> r.value in steps && r.value.id == id
  {
    if steps == [] then None
    else if steps[0].id == id then Some(steps[0])
    else
      assert forall i :: 0 < i < |steps| ==> steps[i] == steps[1..][i - 1];
      FirstStep(steps[1..], id)
  }

  predicate DistinctIds(steps: seq<Step>) {
    forall i, j :: 0 <= i < j < |steps| ==> steps[i].id != steps[j].id
  }

  predicate UniqueIds(flow: Flow) {
    DistinctIds(flow.steps)
  }

  /** With unique ids, looking a step up by its id gives that step back. */
  lemma StepOfUnique(flow: Flow, step: Step)
    requires UniqueIds(flow) && step in flow.steps
    ensures flow.StepOf(step.id) == Some(step)
  {
  }

  function RouteTargets(route: Option<RouteTarget>): seq<StepId> {
    match route
    case None => []
    case Some(r) => r.AsSlice()
  }

  /** How often an id is listed. */
  function Times(ids: seq<StepId>, id: StepId): (n: nat)
    ensures n > 0 <==> id in ids
  {
    if ids == [] then 0
    else
      var n := |ids| - 1;
      assert ids == ids[..n] + [ids[n]];
      Times(ids[..n], id) + (if ids[n] == id then 1 else 0)
  }

  function StepIds(flow: Flow): (ids: set<StepId>)
    ensures forall id :: id in ids <==> flow.Defined(id)
  {
    set s | s in flow.steps :: s.id
  }
}
