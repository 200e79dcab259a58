/**
 * The body scroll lock of a modal: an effect keyed on `open` that, when the
 * modal opens, remembers `document.body.style.overflow` and sets it to
 * "hidden", and whose cleanup, when the modal closes, writes the
 * remembered value back.
 */
module ScrollLock {
  import opened Wrappers

  const Hidden: string := "hidden"

  /**
   * The body's overflow style, and the value captured by the installed
   * effect's cleanup (`None` while no effect with `open` true is installed).
   */
  datatype State = State(overflow: string, saved: Option<string>)

  /** Unlocked, or locked with the body's overflow set to "hidden". */
  predicate Consistent(s: State)
  {
    s.saved.Some? ==> s.overflow == Hidden
  }

  /** The effect commit after a render in which the modal is `open`. */
  function Commit(open: bool, s: State): (r: State)
    requires Consistent(s)
    ensures r.saved.Some? <==> open
    ensures Consistent(r)
    ensures open && s.saved.None? ==> r.saved == Some(s.overflow)
    ensures !open && s.saved.Some? ==> r.overflow == s.saved.value
    ensures open == s.saved.Some? ==> r == s
  {
    if open && s.saved.None? then State(Hidden, Some(s.overflow))
    else if !open && s.saved.Some? then State(s.saved.value, None)
    else s
  }

  /** The state after the effect has been committed for each render in turn. */
  function Run(s: State, renders: seq<bool>): (r: State)
    requires Consistent(s)
    ensures Consistent(r)
  {
    if renders == [] then s
    else Commit(renders[|renders| - 1], Run(s, renders[..|renders| - 1]))
  }

  /**
   * Over any history of opens and closes that starts unlocked, the body is
   * "hidden" with the original value saved while the modal is open, and is
   * back to its original value whenever the modal is closed.
   */
  lemma {:induction false} RunRestores(s: State, renders: seq<bool>)
    requires s.saved.None?
    ensures Run(s, renders) ==
      if renders != [] && renders[|renders| - 1] then State(Hidden, Some(s.overflow)) else s
  {
    if renders != [] {
      RunRestores(s, renders[..|renders| - 1]);
    }
  }
}
