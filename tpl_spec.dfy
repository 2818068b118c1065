// The HDMI I2C debug port's TPL guard in DXE: raise to TPL_NOTIFY around an
// access, restore afterwards, and stop touching the TPL once boot services
// have been exited.

module TplSpec {

  const TplApplication: nat := 4
  const TplNotify: nat := 16

  /**
   * The three module statics (mPreviousTpl, mEvent != NULL,
   * mEndOfBootServices == 1), the boot services' current TPL, whether the
   * exit-boot-services event has been closed, and how many such events this
   * module has created.
   */
  datatype TplState = TplState(
    previousTpl: nat,
    eventCreated: bool,
    endOfBootServices: bool,
    currentTpl: nat,
    eventClosed: bool,
    eventsCreated: nat)

  /** What the environment decides: whether gBS is set and whether
      CreateEventEx succeeds. */
  datatype Boot = Boot(bootServices: bool, createEventOk: bool)

  function RaiseSpec(b: Boot, s: TplState): TplState {
    if !b.bootServices || s.endOfBootServices then s
    else
      var s1 :=
        if !s.eventCreated && b.createEventOk
        then s.(eventCreated := true, eventsCreated := s.eventsCreated + 1)
        else s;
      if s1.currentTpl < TplNotify
      then s1.(previousTpl := s1.currentTpl, currentTpl := TplNotify)
      else s1
  }

  function RestoreSpec(b: Boot, s: TplState): TplState {
    if !b.bootServices || s.endOfBootServices then s
    else if s.previousTpl > 0 then s.(currentTpl := s.previousTpl, previousTpl := 0)
    else s
  }

  function ExitBootServicesSpec(s: TplState): TplState {
    s.(endOfBootServices := true, eventClosed := true)
  }

  /** The event exists exactly when it was created, and it was created at most once. */
  predicate EventOnce(s: TplState) {
    s.eventsCreated <= 1 && (s.eventCreated <==> s.eventsCreated == 1)
  }

  // ---- Properties ----

  /** After ExitBootServices, and without gBS, neither call does anything. */
  lemma InertAfterExit(b: Boot, s: TplState)
    requires !b.bootServices || s.endOfBootServices
    ensures RaiseSpec(b, s) == s && RestoreSpec(b, s) == s
  {
  }

  /** Raise and Restore create the exit-boot-services event at most once,
      and only while mEvent is NULL. */
  lemma EventCreatedAtMostOnce(b: Boot, s: TplState)
    requires EventOnce(s)
    ensures EventOnce(RaiseSpec(b, s)) && EventOnce(RestoreSpec(b, s)) && EventOnce(ExitBootServicesSpec(s))
    ensures s.eventCreated ==> RaiseSpec(b, s).eventsCreated == s.eventsCreated
    ensures RaiseSpec(b, s).eventsCreated > s.eventsCreated ==>
      !s.eventCreated && b.bootServices && !s.endOfBootServices && b.createEventOk
  {
  }

  /** Below TPL_NOTIFY, Raise saves the current TPL and raises to NOTIFY; at
      NOTIFY or above it leaves mPreviousTpl and the TPL alone. */
  lemma RaiseRecordsOnlyBelowNotify(b: Boot, s: TplState)
    requires b.bootServices && !s.endOfBootServices
    ensures s.currentTpl < TplNotify ==>
      RaiseSpec(b, s).previousTpl == s.currentTpl && RaiseSpec(b, s).currentTpl == TplNotify
    ensures s.currentTpl >= TplNotify ==>
      RaiseSpec(b, s).previousTpl == s.previousTpl && RaiseSpec(b, s).currentTpl == s.currentTpl
  {
  }

  /** Restore clears mPreviousTpl, so a second Restore does nothing. */
  lemma RestoreIdempotent(b: Boot, s: TplState)
    ensures RestoreSpec(b, RestoreSpec(b, s)) == RestoreSpec(b, s)
    ensures b.bootServices && !s.endOfBootServices ==> RestoreSpec(b, s).previousTpl == 0
  {
  }

  /** Raise then Restore, from a TPL below NOTIFY, returns to that TPL. */
  lemma RaiseRestoreRoundTrip(b: Boot, s: TplState)
    requires b.bootServices && !s.endOfBootServices
    requires TplApplication <= s.currentTpl < TplNotify
    ensures RestoreSpec(b, RaiseSpec(b, s)).currentTpl == s.currentTpl
    ensures RestoreSpec(b, RaiseSpec(b, s)).previousTpl == 0
  {
  }

  /**
   * The guard does not nest: inside a raised section a second Raise saves
   * nothing, so the first Restore already drops back to the original TPL
   * and the outer Restore does nothing.
   */
  lemma NestedRestoreReturnsEarly(b: Boot, s: TplState)
    requires b.bootServices && !s.endOfBootServices
    requires TplApplication <= s.currentTpl < TplNotify
    ensures var inner := RaiseSpec(b, RaiseSpec(b, s));
      inner.currentTpl == TplNotify &&
      RestoreSpec(b, inner).currentTpl == s.currentTpl &&
      RestoreSpec(b, RestoreSpec(b, inner)) == RestoreSpec(b, inner)
  {
  }
}
