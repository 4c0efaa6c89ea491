/** The descriptor that guards one state attribute of a model instance: reads
    pass the stored value through, writes are checked against the workflow. */
module Descriptor {
  import opened Python

  /** Each state mapped to the states one assignment may move to. */
  type Workflow<S(==)> = map<PyValue<S>, set<PyValue<S>>>

  /** The attributes stored on one instance (its `__dict__`). */
  type InstanceDict<S(==)> = map<string, PyValue<S>>

  /** One descriptor per state field, shared by every instance of the model. */
  datatype StateDescriptor<S(==)> = StateDescriptor(fieldName: string, workflow: Workflow<S>)

  /** What attribute access yields: the descriptor itself on class access,
      the field's value on instance access. */
  datatype Access<S(==)> = DescriptorObject(descriptor: StateDescriptor<S>) | FieldValue(value: PyValue<S>)

  /** The exceptions an assignment can raise. */
  datatype SetError = ValueError | KeyError

  datatype SetResult<S(==)> = Ok(dict: InstanceDict<S>) | Raised(error: SetError)

  /** The value of the field on an instance: what is stored, or `None` when
      the slot is absent. */
  function Read<S(==)>(d: StateDescriptor<S>, inst: InstanceDict<S>): PyValue<S> {
    if d.fieldName in inst then inst[d.fieldName] else PyNone
  }

  /** Attribute access through the descriptor; `instance` is `None` on class access. */
  function Get<S(==)>(d: StateDescriptor<S>, instance: PyValue<InstanceDict<S>>): (r: Access<S>)
    ensures r.DescriptorObject? <==> instance.PyNone?
    ensures r.DescriptorObject? ==> r.descriptor == d
    ensures instance.PyObj? && d.fieldName !in instance.obj ==> r == FieldValue(PyNone)
    ensures instance.PyObj? && d.fieldName in instance.obj ==> r == FieldValue(instance.obj[d.fieldName])
  {
    match instance
    case PyNone => DescriptorObject(d)
    case PyObj(inst) => FieldValue(Read(d, inst))
  }

  /** The two dictionaries agree on every attribute other than `name`. */
  ghost predicate SameExcept<S>(a: InstanceDict<S>, b: InstanceDict<S>, name: string) {
    forall k :: k != name ==> (k in a <==> k in b) && (k in a ==> a[k] == b[k])
  }

  /** The states an assignment may move the field to from `current`: every
      workflow key when `current` is `None`, together with the targets the
      workflow lists for `current` when `current` is itself a key. Both parts
      apply at once when `None` is a key. */
  function Allowed<S(==)>(wf: Workflow<S>, current: PyValue<S>): set<PyValue<S>> {
    (if current.PyNone? then wf.Keys else {}) + (if current in wf then wf[current] else {})
  }

  /** Assignment `instance.field = state`. The write happens only when the
      state is allowed from the current one; a rejected state raises
      `KeyError` when the current state is not a workflow key (the lookup
      fails) and `ValueError` otherwise. Nothing is written on failure. */
  function Set<S(==)>(d: StateDescriptor<S>, inst: InstanceDict<S>, state: PyValue<S>): (r: SetResult<S>)
    ensures r.Ok? <==> state in Allowed(d.workflow, Read(d, inst))
    ensures r.Ok? ==> d.fieldName in r.dict && Read(d, r.dict) == state
    ensures r.Ok? ==> SameExcept(inst, r.dict, d.fieldName)
    ensures r == Raised(KeyError) <==> state !in Allowed(d.workflow, Read(d, inst)) && Read(d, inst) !in d.workflow
    ensures r == Raised(ValueError) <==> state !in Allowed(d.workflow, Read(d, inst)) && Read(d, inst) in d.workflow
  {
    var current := Read(d, inst);
    if current.PyNone? && state in d.workflow then
      Ok(inst[d.fieldName := state])
    else if current !in d.workflow then
      Raised(KeyError)
    else if state in d.workflow[current] then
      Ok(inst[d.fieldName := state])
    else
      Raised(ValueError)
  }

  /** The plain rule the `__set__` docstring describes, a state "available in
      the workflow for the current state": from the unset state any workflow
      key, from a set state exactly its listed targets. */
  function PlainRuleAllowed<S(==)>(wf: Workflow<S>, current: PyValue<S>): set<PyValue<S>> {
    if current.PyNone? then wf.Keys
    else if current in wf then wf[current]
    else {}
  }

  /** The guard accepts everything the plain rule accepts, and more only from
      an unset field whose workflow has `None` as a key: then the targets of
      `None` are accepted as well, key or not. */
  lemma AllowedExtendsPlainRule<S>(wf: Workflow<S>, current: PyValue<S>)
    ensures PlainRuleAllowed(wf, current) <= Allowed(wf, current)
    ensures Allowed(wf, current) == PlainRuleAllowed(wf, current) + (if current.PyNone? && PyNone in wf then wf[PyNone] else {})
    ensures !current.PyNone? ==> Allowed(wf, current) == PlainRuleAllowed(wf, current)
  {
  }

  /** A successful assignment is observed by the next read. */
  lemma ReadAfterSet<S>(d: StateDescriptor<S>, inst: InstanceDict<S>, state: PyValue<S>)
    requires Set(d, inst, state).Ok?
    ensures Get(d, PyObj(Set(d, inst, state).dict)) == FieldValue(state)
  {
  }

  /** First assignment: on an unset field, every workflow key is accepted. */
  lemma FirstAssignment<S>(d: StateDescriptor<S>, inst: InstanceDict<S>, state: PyValue<S>)
    requires Read(d, inst).PyNone?
    requires state in d.workflow
    ensures Set(d, inst, state).Ok?
    ensures Read(d, Set(d, inst, state).dict) == state
  {
  }

  /** From a state that is a workflow key other than `None`, an assignment
      succeeds exactly when the target is listed for that state. */
  lemma TransitionFromKey<S>(d: StateDescriptor<S>, inst: InstanceDict<S>, state: PyValue<S>)
    requires Read(d, inst).PyObj?
    requires Read(d, inst) in d.workflow
    ensures Set(d, inst, state).Ok? <==> state in d.workflow[Read(d, inst)]
    ensures Set(d, inst, state).Raised? ==> Set(d, inst, state).error == ValueError
  {
  }

  /** A stored state that is a key with no targets is terminal: every
      assignment raises `ValueError`. It must not be `None`, since from `None`
      any key is still accepted. */
  lemma TerminalStateRejectsAll<S>(d: StateDescriptor<S>, inst: InstanceDict<S>, state: PyValue<S>)
    requires Read(d, inst).PyObj?
    requires Read(d, inst) in d.workflow && d.workflow[Read(d, inst)] == {}
    ensures Set(d, inst, state) == Raised(ValueError)
  {
  }

  /** From a state that is not a workflow key the lookup fails, so every
      assignment raises `KeyError`, except a first assignment of a key. */
  lemma UnknownCurrentRaisesKeyError<S>(d: StateDescriptor<S>, inst: InstanceDict<S>, state: PyValue<S>)
    requires Read(d, inst) !in d.workflow
    requires !(Read(d, inst).PyNone? && state in d.workflow)
    ensures Set(d, inst, state) == Raised(KeyError)
  {
  }
}
