/** The per-key state machine of `SpecializingLoader.__call__`, in both
    packages: for each `(type_form, type_path)` key the entry is absent, a call
    counter, or the routine the specializer generated. After more than
    `Threshold` calls the specializer is consulted; a routine it produces is kept
    and used from then on, a `None` resets the counter to 0, and a specializer
    that raises leaves the counter where it was. */
module Specialization {
  import opened Wrappers

  const Threshold: int := 3

  /** The value stored in `_specialized_loaders[key]`. */
  datatype SpecEntry<R> = Count(n: int) | Compiled(routine: R)

  /** What the specializer did when consulted: returned a routine, returned
      `None`, or raised. */
  datatype Attempt<R> = Produced(routine: R) | Declined | Failed(reason: string)

  /** What the call then runs. */
  datatype Action<R> = UseGeneric | UseRoutine(routine: R) | Raise(reason: string)

  /** The counter a call stores before deciding anything: one more than a
      positive stored counter, else 1. */
  function NextCount<R>(entry: Option<SpecEntry<R>>): int
    requires entry.None? || entry.value.Count?
  {
    if entry.Some? && entry.value.n > 0 then entry.value.n + 1 else 1
  }

  /** Whether a call with this stored entry consults the specializer. */
  predicate Consults<R>(entry: Option<SpecEntry<R>>) {
    (entry.None? || entry.value.Count?) && NextCount(entry) > Threshold
  }

  /** One call: the entry stored afterwards and what the call runs. `attempt`
      is what the specializer does if consulted and is ignored otherwise. */
  function Step<R>(entry: Option<SpecEntry<R>>, attempt: Attempt<R>): (SpecEntry<R>, Action<R>) {
    if entry.Some? && entry.value.Compiled? then (entry.value, UseRoutine(entry.value.routine))
    else
      var count := NextCount(entry);
      if count <= Threshold then (Count(count), UseGeneric)
      else
        match attempt
        case Produced(r) => (Compiled(r), UseRoutine(r))
        case Declined => (Count(0), UseGeneric)
        case Failed(reason) => (Count(count), Raise(reason))
  }

  /** The first call for a key stores 1 and runs the generic loader. */
  lemma FirstCall<R>(attempt: Attempt<R>)
    ensures Step(None, attempt) == (Count(1), UseGeneric)
    ensures !Consults(Option<SpecEntry<R>>.None)
  {
  }

  /** While the stored counter is positive and the threshold is not passed, a
      call adds exactly one to it and runs the generic loader. */
  lemma CounterIncrements<R>(n: int, attempt: Attempt<R>)
    requires 0 < n < Threshold
    ensures Step(Some(Count(n)), attempt) == (Count(n + 1), UseGeneric)
    ensures !Consults(Some(SpecEntry<R>.Count(n)))
  {
  }

  /** A stored routine is never replaced and runs on every call. */
  lemma CompiledIsFinal<R>(r: R, attempt: Attempt<R>)
    ensures Step(Some(Compiled(r)), attempt) == (Compiled(r), UseRoutine(r))
    ensures !Consults(Some(Compiled(r)))
  {
  }

  /** Only a call that consults the specializer depends on what it does. */
  lemma AttemptIgnoredUnlessConsulted<R>(entry: Option<SpecEntry<R>>, a: Attempt<R>, b: Attempt<R>)
    requires !Consults(entry)
    ensures Step(entry, a) == Step(entry, b)
  {
  }

  /** The entry after `k` calls for one key, starting from an absent entry, with
      a specializer that always behaves as `attempt`. */
  function After<R>(attempt: Attempt<R>, k: nat): Option<SpecEntry<R>> {
    if k == 0 then None else Some(Step(After(attempt, k - 1), attempt).0)
  }

  /** The action of call number `k` (counting from 1) in that run. */
  function ActionOf<R>(attempt: Attempt<R>, k: nat): Action<R>
    requires k >= 1
  {
    Step(After(attempt, k - 1), attempt).1
  }

  /** With a specializer that returns `None`, the counter cycles: after `k`
      calls it holds `k % 4`, and the specializer is consulted on exactly the
      calls whose number is a multiple of 4 — the attempt recurs instead of
      being given up. Every call runs the generic loader. */
  lemma {:induction false} DeclinedCycles<R>(k: nat)
    requires k >= 1
    ensures After(Attempt<R>.Declined, k) == Some(SpecEntry<R>.Count(k % 4))
    ensures Consults(After(Attempt<R>.Declined, k - 1)) <==> k % 4 == 0
    ensures ActionOf(Attempt<R>.Declined, k) == UseGeneric
  {
    if k > 1 {
      DeclinedCycles<R>(k - 1);
    }
  }

  /** With a specializer that raises, the counter keeps counting calls and
      every call after the third consults the specializer again and raises. */
  lemma {:induction false} FailedRetries<R>(reason: string, k: nat)
    requires k >= 1
    ensures After(Attempt<R>.Failed(reason), k) == Some(Count(k))
    ensures Consults(After(Attempt<R>.Failed(reason), k - 1)) <==> k > Threshold
    ensures ActionOf(Attempt<R>.Failed(reason), k) == if k > Threshold then Raise(reason) else UseGeneric
  {
    if k > 1 {
      FailedRetries<R>(reason, k - 1);
    }
  }

  /** With a specializer that produces a routine, the first three calls run the
      generic loader, the fourth consults the specializer and runs the routine,
      and every later call runs the same routine without consulting it. */
  lemma {:induction false} ProducedSticks<R>(r: R, k: nat)
    requires k >= 1
    ensures After(Produced(r), k) == if k > Threshold then Some(Compiled(r)) else Some(Count(k))
    ensures Consults(After(Produced(r), k - 1)) <==> k == Threshold + 1
    ensures ActionOf(Produced(r), k) == if k > Threshold then UseRoutine(r) else UseGeneric
  {
    if k > 1 {
      ProducedSticks(r, k - 1);
    }
  }
}
