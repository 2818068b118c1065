// I2cDebugPortTplRuntimeDxe.c: the module statics and the boot services'
// TPL as fields of one object, updated by the three functions.

module Tpl {
  import opened TplSpec

  class TplGuard {
    var previousTpl: nat        // mPreviousTpl
    var eventCreated: bool      // mEvent != NULL
    var endOfBootServices: bool // mEndOfBootServices == 1
    var currentTpl: nat         // the boot services' TPL
    var eventClosed: bool
    var eventsCreated: nat
    const boot: Boot

    function State(): TplState
      reads this
    {
      TplState(previousTpl, eventCreated, endOfBootServices, currentTpl, eventClosed, eventsCreated)
    }

    /** The statics as initialised, at the TPL the caller runs at. */
    constructor (tpl: nat, b: Boot)
      ensures State() == TplState(0, false, false, tpl, false, 0) && boot == b
      ensures EventOnce(State())
    {
      previousTpl, eventCreated, endOfBootServices := 0, false, false;
      currentTpl, eventClosed, eventsCreated := tpl, false, 0;
      boot := b;
    }

    // ---- Boot services ----

    /** EfiGetCurrentTpl. */
    method GetCurrentTpl() returns (tpl: nat)
      ensures tpl == currentTpl
    {
      tpl := currentTpl;
    }

    /** gBS->RaiseTPL: the old TPL is returned. */
    method RaiseTpl(newTpl: nat) returns (oldTpl: nat)
      modifies this
      ensures oldTpl == old(currentTpl)
      ensures State() == old(State()).(currentTpl := newTpl)
    {
      oldTpl := currentTpl;
      currentTpl := newTpl;
    }

    /** gBS->RestoreTPL. */
    method RestoreTpl(oldTpl: nat)
      modifies this
      ensures State() == old(State()).(currentTpl := oldTpl)
    {
      currentTpl := oldTpl;
    }

    /** gBS->CreateEventEx for the exit-boot-services group; mEvent is
        written only when it succeeds. */
    method CreateExitBootServicesEvent()
      modifies this
      ensures State() ==
        if boot.createEventOk then old(State()).(eventCreated := true, eventsCreated := old(eventsCreated) + 1)
        else old(State())
    {
      if boot.createEventOk {
        eventCreated := true;
        eventsCreated := eventsCreated + 1;
      }
    }

    // ---- The module's functions ----

    method OnExitBootServices()
      modifies this
      ensures State() == ExitBootServicesSpec(old(State()))
    {
      endOfBootServices := true;
      eventClosed := true;   // gBS->CloseEvent (Event)
    }

    method RaiseTplForI2cDebugPortAccess()
      modifies this
      ensures State() == RaiseSpec(boot, old(State()))
    {
      if !boot.bootServices || endOfBootServices {
        return;
      }
      if !eventCreated {
        CreateExitBootServicesEvent();
      }
      var tpl := GetCurrentTpl();
      if tpl < TplNotify {
        previousTpl := RaiseTpl(TplNotify);
      }
    }

    method RestoreTplAfterI2cDebugPortAccess()
      modifies this
      ensures State() == RestoreSpec(boot, old(State()))
    {
      if !boot.bootServices || endOfBootServices {
        return;
      }
      if previousTpl > 0 {
        RestoreTpl(previousTpl);
        previousTpl := 0;
      }
    }
  }
}
