# State-machine field guard, in Dafny

This project models the core of `django_statemachine_field`, a Django model field whose value is a
state in a workflow. The core is `StateDescriptor`, the descriptor installed on the model class.
Reading the attribute returns the value stored in the instance's `__dict__`, or `None` when the slot
is absent. Assigning the attribute is checked against the workflow table, a mapping from each state
to the states one assignment may move to. An accepted state is stored. A rejected one raises before
anything is stored. The model also covers the field's system-check hook and the keyword arguments
the field records when it is deconstructed for migrations.

Modules:

- `Python` (`python.dfy`): `PyValue<T>`, a Python value that may be `None`.
- `Descriptor` (`descriptor.dfy`): `StateDescriptor.__get__` and `__set__` as pure functions.
  - The instance dictionary is a `map<string, PyValue<S>>`.
  - The workflow is a `map<PyValue<S>, set<PyValue<S>>>`.
  - An assignment returns `Ok(newDict)`, `Raised(ValueError)` or `Raised(KeyError)`.
  - `Allowed(wf, current)` is the independent statement of what the guard accepts: every key
    when `current` is `None`, together with `wf[current]` when `current` is a key.
- `Traces` (`traces.dfy`): assignments made one statement after another. Each successful write is
  committed, and the first one that raises stops the sequence. These lemmas state the guard's
  invariant over whole runs.
- `FieldMixin` (`field_mixin.dfy`): `_check_workflow_attribute`, `check` and the kwargs step of
  `deconstruct`. The host framework's own errors and kwargs are inputs.
- `Scenarios` (`scenarios.dfy`): concrete runs on small workflows.

The guard's behaviour follows the code, including its quirks:

- On an unset field (`None` current value), any workflow key is accepted.
- A state that is not a key falls through to `workflow[None]`:
  - if `None` is a key, the targets of `None` are accepted as well;
  - if `None` is not a key, the lookup raises `KeyError`.
- A current value that is not a workflow key makes the lookup raise `KeyError`, not `ValueError`.
- A rejection with a successful lookup raises a bare `ValueError`, with no payload.

The docstring of `__set__` (fields.py:32-33) describes a plain rule: a state is accepted "if it is
available in the workflow for the current state", that is, any key from an unset field and the
listed targets otherwise. The code departs from that plain rule only in the fall-through to
`workflow[None]` above. `Descriptor.AllowedExtendsPlainRule` states exactly how the two differ.

## Model

| member | source | states |
|---|---|---|
| Descriptor.Get | django_statemachine_field/fields.py:20-28 | Class access (no instance) yields the descriptor itself. Instance access yields the stored value of the field, or `None` when the slot is absent. It never changes the instance. |
| Descriptor.Set | django_statemachine_field/fields.py:30-42 | An assignment succeeds iff the state is in `Allowed` from the current value. On success the field reads back the new state, and every other attribute is unchanged. A rejection is `KeyError` iff the current value is not a workflow key, and `ValueError` iff it is one. |
| Descriptor.AllowedExtendsPlainRule | django_statemachine_field/fields.py:35-39 | The guard accepts everything the plain rule accepts ("keys from unset, listed targets otherwise"). It accepts more only from an unset field whose workflow has `None` as a key: the targets of `None`. |
| Descriptor.ReadAfterSet | django_statemachine_field/fields.py:27-39 | After a successful assignment, reading the attribute returns the assigned state. |
| Descriptor.FirstAssignment | django_statemachine_field/fields.py:35-37 | On an unset field, assigning any workflow key succeeds, and the field then reads as that key. |
| Descriptor.TransitionFromKey | django_statemachine_field/fields.py:38-42 | From a non-`None` current state that is a key, an assignment succeeds iff the target is in that state's set. Otherwise it raises `ValueError`. |
| Descriptor.UnknownCurrentRaisesKeyError | django_statemachine_field/fields.py:36-38 | From a current value that is not a key, an assignment raises `KeyError`. The one exception is a first assignment of a key. This includes an unset field, with `None` not a key, given a non-key state. |
| Traces.RunWrites | django_statemachine_field/fields.py:30-42 | Successive assignments only ever change the field's own slot. A completed sequence leaves its last state stored. A stopped one stops at an index inside the sequence. If the very first assignment raises, the instance dictionary is exactly as before. Otherwise the stored value is the state accepted just before the failing one. |
| Traces.RunCompletesIffWalk | django_statemachine_field/fields.py:35-39 | A sequence of assignments completes iff each state is allowed from the one stored before it, starting from the current value. |
| Traces.RunStopsAtFirstRejection | django_statemachine_field/fields.py:36-42 | A sequence that raises does so at the first state not allowed from the stored one, and every earlier step was allowed. The exception is `KeyError` iff the state stored at that point is not a key. |
| Traces.StoredStateStaysKnown | django_statemachine_field/fields.py:36-39 | Starting from `None` or a state the workflow mentions, the stored value stays `None` or a state the workflow mentions (a key or a target). |
| FieldMixin.CheckWorkflowAttribute | django_statemachine_field/fields.py:60-71 | Returns exactly one error, with id `StateField.required_workflow`, iff the workflow is `None`. Otherwise it returns no error. |
| FieldMixin.Check | django_statemachine_field/fields.py:55-58 | The host field's errors come first, unchanged and in order. The workflow error is appended iff the workflow is `None`. |
| FieldMixin.DeconstructKwargs | django_statemachine_field/fields.py:73-76 | The kwargs always hold a `workflow` entry. An existing one is kept, not overwritten. All other entries are unchanged, and no other key is added. |
| FieldMixin.DeconstructKwargsIdempotent | django_statemachine_field/fields.py:75 | Applying the `setdefault` step twice gives the same kwargs as once, whatever workflow is offered the second time. |
| FieldMixin.DeconstructRecordsWorkflow | django_statemachine_field/fields.py:73-76 | When the host kwargs lack `workflow`, the recorded kwargs are the host's plus exactly the field's workflow. |
| Scenarios.ReviewRun | django_statemachine_field/fields.py:30-42 | On the draft/submitted/approved/rejected workflow, a fresh instance accepts `submitted`, then `approved`. A later `draft` then raises `ValueError`, and `approved` stays stored. |
| Descriptor.TerminalStateRejectsAll | django_statemachine_field/fields.py:38-42 | From a stored non-`None` key whose target set is empty, every assignment raises `ValueError`. `None` as such a key is excluded, because from `None` any key is still accepted. |
| Scenarios.TerminalState | django_statemachine_field/fields.py:38-42 | On the review workflow, a fresh instance accepts `approved`, and a following `rejected` raises `ValueError` with `approved` still stored. |
| Scenarios.NoneKeyFallThrough | django_statemachine_field/fields.py:36-39 | With `None` as a key, an unset field accepts a target of `None` that is not itself a key. |
| Scenarios.UnsetNonKeyRaisesKeyError | django_statemachine_field/fields.py:36-38 | With `None` not a key, an unset field given a non-key state raises `KeyError`. |
| Scenarios.UnknownStoredStateRaisesKeyError | django_statemachine_field/fields.py:35-38 | A stored value unknown to the workflow makes even an assignment of a key raise `KeyError`. |

## Left out

- `StateFieldMixin.__init__` popping `workflow` from the kwargs (fields.py:47-53) is not modelled. When the key is missing, the attribute is simply never set, and later reads fail with Python's attribute error. The check and deconstruct steps take the workflow as an input instead.
- `contribute_to_class` and the `setattr` that installs the descriptor (fields.py:78-83) are not modelled. They are host-framework registration with no logic of their own. The unused `model` argument of `StateDescriptor.__init__` is dropped as well.
- `StateCharField` and `StateIntegerField` (fields.py:86-95) only choose the column type. The model is generic in the state type `S`.
- The deferred loading promised in the docstrings is not implemented by the code, so it is not modelled.
- The `super()` calls of `check` and `deconstruct` belong to the host framework. Their results are inputs, and the name, path and args of `deconstruct` pass through untouched, so they are not modelled.
- The `obj=self` field of the check error is left out, since it refers to the field object itself.
- Python's `TypeError` paths are left out: an unhashable state, and a descriptor whose workflow is `None` or not a mapping. The workflow is a typed map, and each target collection is a set, since only membership is used.
- Python equality quirks (such as `1 == True` sharing a dict key) are left out. State equality is Dafny's equality on `S`.
- Every attribute in the instance dictionary is typed `PyValue<S>`. Other attributes of other types would only be carried along unchanged.
- Persistence, database round-trips and concurrent writers to one instance are left out. The guard is a plain read-check-write with no atomicity.
- No (current, proposed) payload is carried on rejection, because the code raises a bare `ValueError()`.
- FieldMixin.CheckWorkflowAttribute: the model records the `code='StateField.required_workflow'` keyword of fields.py:66 as the message id. Django's `checks.Error` has no `code` parameter, so the call as written most likely raises `TypeError` instead of returning the list. The model does not represent that `TypeError`. It keeps the evidently intended result, one error identified by that string.
