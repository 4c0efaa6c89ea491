/** Concrete runs of the guard on small workflows, including the two places
    where it departs from the plain "keys first, then listed targets" rule. */
module Scenarios {
  import opened Python
  import opened Descriptor
  import opened Traces

  const Draft: PyValue<string> := PyObj("draft")
  const Submitted: PyValue<string> := PyObj("submitted")
  const Approved: PyValue<string> := PyObj("approved")
  const Rejected: PyValue<string> := PyObj("rejected")

  /** A review workflow: draft -> submitted -> approved | rejected -> draft. */
  function ReviewField(): StateDescriptor<string> {
    StateDescriptor("status", map[
      Draft := {Submitted},
      Submitted := {Approved, Rejected},
      Approved := {},
      Rejected := {Draft}])
  }

  /** A fresh instance may start in any state, here `submitted`; it then moves
      to `approved`, and going back to `draft` raises `ValueError` with the
      field still `approved`. */
  lemma ReviewRun()
    ensures RunWrites(ReviewField(), map[], [Submitted, Approved, Draft])
         == Run(map["status" := Approved], Stopped(ValueError, 2))
  {
    var d := ReviewField();
    assert Set(d, map[], Submitted) == Ok(map["status" := Submitted]);
    assert Set(d, map["status" := Submitted], Approved) == Ok(map["status" := Approved]);
    assert Set(d, map["status" := Approved], Draft) == Raised(ValueError);
    assert [Submitted, Approved, Draft][1..] == [Approved, Draft];
    assert [Approved, Draft][1..] == [Draft];
    assert RunWrites(d, map["status" := Approved], [Draft])
        == Run(map["status" := Approved], Stopped(ValueError, 0));
    assert RunWrites(d, map["status" := Submitted], [Approved, Draft])
        == Run(map["status" := Approved], Stopped(ValueError, 1));
  }

  /** `approved` has no targets: after a first assignment of it, `rejected`
      raises `ValueError` and `approved` stays stored. */
  lemma TerminalState()
    ensures RunWrites(ReviewField(), map[], [Approved, Rejected])
         == Run(map["status" := Approved], Stopped(ValueError, 1))
  {
    var d := ReviewField();
    assert Set(d, map[], Approved) == Ok(map["status" := Approved]);
    assert Set(d, map["status" := Approved], Rejected) == Raised(ValueError);
    assert [Approved, Rejected][1..] == [Rejected];
  }

  /** When `None` is a workflow key, an unset field also accepts the targets
      of `None`, even one that is not a key itself. */
  lemma NoneKeyFallThrough()
    ensures var d := StateDescriptor("status", map[PyNone := {Draft}]);
      && Draft !in d.workflow
      && Set(d, map[], Draft) == Ok(map["status" := Draft])
  {
    var d := StateDescriptor("status", map[PyNone := {Draft}]);
    assert Draft != PyNone;
  }

  /** When `None` is not a key, an unset field given a non-key state fails in
      the lookup of `None`: `KeyError`, not `ValueError`. */
  lemma UnsetNonKeyRaisesKeyError()
    ensures Set(ReviewField(), map[], PyObj("archived")) == Raised(KeyError)
  {
    assert PyObj("archived") !in ReviewField().workflow;
  }

  /** A stored value the workflow does not know makes every later assignment
      raise `KeyError`, even one naming a workflow key. */
  lemma UnknownStoredStateRaisesKeyError()
    ensures Set(ReviewField(), map["status" := PyObj("archived")], Draft) == Raised(KeyError)
  {
    assert PyObj("archived") !in ReviewField().workflow;
  }
}
