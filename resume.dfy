/** What `run_mcmc(None, ...)` resumes from.  The constructor assigns
    `_previous_state` only on some paths; the corrected definitions below
    assign it on all of them and are the ones the sampler uses. */
module Resume {
  import opened Outcomes
  import opened Chain

  /** The attribute `_previous_state`, which may never have been assigned. */
  datatype PreviousSlot = Unassigned | Assigned(state: Option<State>)

  /** The constructor as written: a fresh backend assigns None, a re-used
      one assigns its last sample only when it has stored a step. */
  function PreviousAsWritten(initialized: bool, saved: seq<State>): PreviousSlot
  {
    if !initialized then Assigned(None)
    else if |saved| > 0 then Assigned(Some(saved[|saved| - 1]))
    else Unassigned
  }

  /** The resume test of run_mcmc over the attribute as written: reading an
      unassigned attribute raises AttributeError. */
  function ResumeAsWritten(slot: PreviousSlot, init: Option<State>): Result<State>
  {
    if init.Some? then Ok(init.value)
    else match slot
      case Unassigned => Err(PreviousStateUnassigned)
      case Assigned(None) => Err(NoPreviousState)
      case Assigned(Some(s)) => Ok(s)
  }

  /** A re-used backend that has stored nothing makes `run_mcmc(None, ...)`
      fail with an AttributeError instead of the "never been called" error. */
  lemma AsWrittenResumeRaisesAttributeError()
    ensures ResumeAsWritten(PreviousAsWritten(true, []), None) == Err(PreviousStateUnassigned)
  {
  }

  /** The constructor corrected: `_previous_state` is always assigned, and
      holds a state exactly when the backend has stored a step. */
  function PreviousState(initialized: bool, saved: seq<State>): (r: Option<State>)
    ensures r.Some? <==> initialized && |saved| > 0
    ensures r.Some? ==> r.value == saved[|saved| - 1]
  {
    if initialized && |saved| > 0 then Some(saved[|saved| - 1]) else None
  }

  /** The state run_mcmc starts from: the given one, else the remembered
      one, else the "never been called" error. */
  function StartState(previous: Option<State>, init: Option<State>): (r: Result<State>)
    ensures init.Some? ==> r == Ok(init.value)
    ensures init.None? ==> (r.Err? <==> previous.None?)
    ensures r.Err? ==> r.error == NoPreviousState
    ensures init.None? && r.Ok? ==> r.value == previous.value
  {
    if init.Some? then Ok(init.value)
    else if previous.None? then Err(NoPreviousState)
    else Ok(previous.value)
  }

  /** With the corrected constructor, resuming over any backend either
      starts from its last sample or fails with the intended error. */
  lemma CorrectedResume(initialized: bool, saved: seq<State>)
    ensures StartState(PreviousState(initialized, saved), None)
         == if initialized && |saved| > 0 then Ok(saved[|saved| - 1]) else Err(NoPreviousState)
  {
  }
}
