/** The model-field side of a state field: its system-check hook and the
    keyword arguments it records when deconstructed for migrations. The host
    framework's own `check` and `deconstruct` results are taken as inputs. */
module FieldMixin {
  import opened Python

  /** A system-check message of level error. */
  datatype CheckError = CheckError(msg: string, id: string)

  const RequiredWorkflowId: string := "StateField.required_workflow"
  const RequiredWorkflowMsg: string := "StateField must define a 'workflow' attribute."

  /** The field's own check: one error when no workflow was given, none
      otherwise. Any non-`None` value passes; its shape is not inspected. */
  function CheckWorkflowAttribute<W>(workflow: PyValue<W>): (errors: seq<CheckError>)
    ensures |errors| <= 1
    ensures |errors| == 1 <==> workflow.PyNone?
    ensures forall e :: e in errors ==> e.id == RequiredWorkflowId && e.msg == RequiredWorkflowMsg
  {
    if workflow.PyNone? then [CheckError(RequiredWorkflowMsg, RequiredWorkflowId)] else []
  }

  /** The full check: the host field's errors, unchanged and in order, then
      the workflow error when there is one. */
  function Check<W>(baseErrors: seq<CheckError>, workflow: PyValue<W>): (errors: seq<CheckError>)
    ensures |errors| == |baseErrors| + (if workflow.PyNone? then 1 else 0)
    ensures errors[..|baseErrors|] == baseErrors
    ensures workflow.PyNone? ==> errors[|baseErrors|].id == RequiredWorkflowId
  {
    baseErrors + CheckWorkflowAttribute(workflow)
  }

  const WorkflowKwarg: string := "workflow"

  /** The keyword arguments of `deconstruct`: the host's, with `workflow`
      added when the host did not already supply one (`setdefault`). */
  function DeconstructKwargs<A>(baseKwargs: map<string, A>, workflow: A): (kwargs: map<string, A>)
    ensures kwargs.Keys == baseKwargs.Keys + {WorkflowKwarg}
    ensures forall k :: k in baseKwargs ==> kwargs[k] == baseKwargs[k]
    ensures WorkflowKwarg !in baseKwargs ==> kwargs[WorkflowKwarg] == workflow
  {
    if WorkflowKwarg in baseKwargs then baseKwargs else baseKwargs[WorkflowKwarg := workflow]
  }

  /** Deconstructing again changes nothing, whatever workflow is offered the
      second time: an existing `workflow` entry is never overwritten. */
  lemma DeconstructKwargsIdempotent<A>(baseKwargs: map<string, A>, workflow: A, other: A)
    ensures DeconstructKwargs(DeconstructKwargs(baseKwargs, workflow), other) == DeconstructKwargs(baseKwargs, workflow)
  {
  }

  /** When the host records no `workflow` of its own, the field's workflow is
      what a reconstruction from the recorded keyword arguments receives. */
  lemma DeconstructRecordsWorkflow<A>(baseKwargs: map<string, A>, workflow: A)
    requires WorkflowKwarg !in baseKwargs
    ensures DeconstructKwargs(baseKwargs, workflow) - {WorkflowKwarg} == baseKwargs
    ensures DeconstructKwargs(baseKwargs, workflow)[WorkflowKwarg] == workflow
  {
  }
}
