/** Successive assignments to one state field, as a caller issues them one
    statement after another: each write that succeeds is committed, and the
    first one that raises stops the sequence with the earlier writes kept. */
module Traces {
  import opened Python
  import opened Descriptor

  /** How a sequence of assignments ended: all of them succeeded, or the one
      at index `at` raised `error`. */
  datatype Outcome = Completed | Stopped(error: SetError, at: nat)

  datatype Run<S(==)> = Run(dict: InstanceDict<S>, outcome: Outcome)

  /** `ws` is a walk the guard permits: each state is allowed from the one
      before it, the first from `start`. */
  ghost predicate IsWalk<S>(wf: Workflow<S>, start: PyValue<S>, ws: seq<PyValue<S>>) {
    forall i :: 0 <= i < |ws| ==> StepAllowed(wf, start, ws, i)
  }

  /** The `i`-th state of `ws` is allowed from the state before it. */
  ghost predicate StepAllowed<S>(wf: Workflow<S>, start: PyValue<S>, ws: seq<PyValue<S>>, i: nat)
    requires i < |ws|
  {
    ws[i] in Allowed(wf, if i == 0 then start else ws[i - 1])
  }

  /** The state reached by walking `ws` from `start`. */
  function Last<S>(start: PyValue<S>, ws: seq<PyValue<S>>): PyValue<S> {
    if |ws| == 0 then start else ws[|ws| - 1]
  }

  /** Assign each state of `ws` in turn until one raises. Only the field's own
      slot ever changes; a completed sequence leaves its last state stored, and
      a stopped one leaves the instance as the last successful write left it. */
  function RunWrites<S(==)>(d: StateDescriptor<S>, inst: InstanceDict<S>, ws: seq<PyValue<S>>): (r: Run<S>)
    ensures SameExcept(inst, r.dict, d.fieldName)
    ensures r.outcome.Completed? ==> Read(d, r.dict) == Last(Read(d, inst), ws)
    ensures r.outcome.Stopped? ==> r.outcome.at < |ws|
    ensures r.outcome.Stopped? && r.outcome.at == 0 ==> r.dict == inst
    ensures r.outcome.Stopped? && 0 < r.outcome.at < |ws| ==> Read(d, r.dict) == ws[r.outcome.at - 1]
    decreases |ws|
  {
    if |ws| == 0 then Run(inst, Completed)
    else
      match Set(d, inst, ws[0])
      case Raised(e) => Run(inst, Stopped(e, 0))
      case Ok(next) =>
        var rest := RunWrites(d, next, ws[1..]);
        match rest.outcome
        case Completed => Run(rest.dict, Completed)
        case Stopped(e, at) => Run(rest.dict, Stopped(e, at + 1))
  }

  lemma {:induction false} IsWalkCons<S>(wf: Workflow<S>, start: PyValue<S>, ws: seq<PyValue<S>>)
    requires |ws| > 0
    ensures IsWalk(wf, start, ws) <==> ws[0] in Allowed(wf, start) && IsWalk(wf, ws[0], ws[1..])
  {
    if ws[0] in Allowed(wf, start) && IsWalk(wf, ws[0], ws[1..]) {
      forall i | 0 < i < |ws|
        ensures StepAllowed(wf, start, ws, i)
      {
        assert StepAllowed(wf, ws[0], ws[1..], i - 1);
      }
    }
    if IsWalk(wf, start, ws) {
      assert StepAllowed(wf, start, ws, 0);
      forall i | 0 <= i < |ws| - 1
        ensures StepAllowed(wf, ws[0], ws[1..], i)
      {
        assert StepAllowed(wf, start, ws, i + 1);
      }
    }
  }

  /** A sequence of assignments completes exactly when it is a walk the guard
      permits from the field's current value. */
  lemma {:induction false} RunCompletesIffWalk<S>(d: StateDescriptor<S>, inst: InstanceDict<S>, ws: seq<PyValue<S>>)
    ensures RunWrites(d, inst, ws).outcome.Completed? <==> IsWalk(d.workflow, Read(d, inst), ws)
    decreases |ws|
  {
    if |ws| > 0 {
      IsWalkCons(d.workflow, Read(d, inst), ws);
      match Set(d, inst, ws[0])
      case Raised(_) =>
      case Ok(next) =>
        RunCompletesIffWalk(d, next, ws[1..]);
    }
  }

  /** A sequence that stops does so at the first assignment the guard rejects:
      every earlier one formed a permitted walk, the rejected state is not
      allowed from the state then stored, and the exception is `KeyError`
      exactly when that stored state is not a workflow key. */
  lemma {:induction false} RunStopsAtFirstRejection<S>(d: StateDescriptor<S>, inst: InstanceDict<S>, ws: seq<PyValue<S>>)
    requires RunWrites(d, inst, ws).outcome.Stopped?
    ensures var r := RunWrites(d, inst, ws);
      && IsWalk(d.workflow, Read(d, inst), ws[..r.outcome.at])
      && ws[r.outcome.at] !in Allowed(d.workflow, Read(d, r.dict))
      && (r.outcome.error == KeyError <==> Read(d, r.dict) !in d.workflow)
    decreases |ws|
  {
    var r := RunWrites(d, inst, ws);
    match Set(d, inst, ws[0])
    case Raised(_) =>
    case Ok(next) =>
      RunStopsAtFirstRejection(d, next, ws[1..]);
      var at := r.outcome.at;
      assert ws[1..][..at - 1] == ws[..at][1..];
      assert at > 1 ==> ws[1..][at - 2] == ws[at - 1];
      assert ws[1..][at - 1] == ws[at];
      IsWalkCons(d.workflow, Read(d, inst), ws[..at]);
  }

  /** Every state a workflow mentions, as a key or as a target. */
  ghost function KnownStates<S>(wf: Workflow<S>): set<PyValue<S>> {
    wf.Keys + set k, t | k in wf && t in wf[k] :: t
  }

  /** The stored value never leaves the states the workflow mentions (plus
      `None`): whatever sequence of assignments is made, and however it ends. */
  lemma {:induction false} StoredStateStaysKnown<S>(d: StateDescriptor<S>, inst: InstanceDict<S>, ws: seq<PyValue<S>>)
    requires Read(d, inst) in KnownStates(d.workflow) || Read(d, inst).PyNone?
    ensures var r := RunWrites(d, inst, ws);
      Read(d, r.dict) in KnownStates(d.workflow) || Read(d, r.dict).PyNone?
    decreases |ws|
  {
    if |ws| > 0 {
      match Set(d, inst, ws[0])
      case Raised(_) =>
      case Ok(next) =>
        var c := Read(d, inst);
        assert ws[0] in Allowed(d.workflow, c);
        if c in d.workflow && ws[0] in d.workflow[c] {
          assert ws[0] in KnownStates(d.workflow);
        }
        StoredStateStaysKnown(d, next, ws[1..]);
    }
  }
}
