/** The resettable future that holds a client's active transport.

    A slot is one promise object: `instance` stands for its identity and `cell`
    for its state. Settling happens at most once per instance; the only way to
    get an unsettled slot back is to build a new instance. Rejection is not
    part of this model because nothing in the client core rejects the slot. */
module ExposedPromise {
  import opened Wrappers

  datatype Cell<T> = Pending | Settled(value: T)

  datatype Slot<T> = Slot(instance: nat, cell: Cell<T>)

  /** `new ExposedPromise()`: a pending promise with the given identity. */
  function Fresh<T>(instance: nat): Slot<T>
  {
    Slot(instance, Pending)
  }

  /** `ExposedPromise.resolve(value)`: a promise that is settled from the start. */
  function PreSettled<T>(instance: nat, value: T): Slot<T>
  {
    Slot(instance, Settled(value))
  }

  predicate IsSettled<T>(s: Slot<T>)
  {
    s.cell.Settled?
  }

  /** The synchronous read `promiseResult`: the value once settled, else nothing. */
  function PromiseResult<T>(s: Slot<T>): Option<T>
  {
    match s.cell
    case Pending => None
    case Settled(v) => Some(v)
  }

  /** `resolve(value)`: settles a pending promise in place; a settled one keeps
      the value it already has. */
  function Resolve<T>(s: Slot<T>, value: T): (r: Slot<T>)
    ensures r.instance == s.instance
    ensures IsSettled(r)
    ensures IsSettled(s) ==> r == s
    ensures !IsSettled(s) ==> PromiseResult(r) == Some(value)
  {
    match s.cell
    case Pending => Slot(s.instance, Settled(value))
    case Settled(_) => s
  }

  /** The first resolution wins: a second `resolve` changes nothing. */
  lemma SettlesAtMostOnce<T>(s: Slot<T>, first: T, second: T)
    ensures Resolve(Resolve(s, first), second) == Resolve(s, first)
    ensures !IsSettled(s) ==> PromiseResult(Resolve(Resolve(s, first), second)) == Some(first)
  {
  }
}
