// The Aspire VN7-572G board setup form: the HII browser callback, the
// config access protocol's ExtractConfig and RouteConfig, and the
// installation of the form with its "BoardSetup" variable. The HII
// routing helpers and the variable services answer as the Services value
// says.

module BoardConfigHii {
  import opened Uefi

  type EfiString = seq<char>

  /** BOARD_CONFIGURATION, the contents of the "BoardSetup" variable. */
  datatype BoardConfiguration = BoardConfiguration(lockDownBiosLock: Byte, lockDownPmcReadDisable: Byte)

  const ZeroConfiguration := BoardConfiguration(0, 0)

  const QuestionSaveExit: nat := 0x2ffe
  const QuestionDiscardExit: nat := 0x2fff

  datatype BrowserAction = ActionChanged | OtherAction(code: nat)

  datatype ActionRequest = FormSubmitExit | FormDiscardExit | OtherRequest(code: nat)

  /** What an out-parameter holds on return: untouched, or the value written. */
  datatype Out<T> = Unwritten | Written(value: T)

  // ---- BoardConfigCallback ----

  /** The status, and the contents of *ActionRequest (None: a NULL pointer). */
  datatype CallbackOutcome = CallbackOutcome(status: EfiStatus, actionRequest: Option<ActionRequest>)

  function BoardConfigCallback(valuePresent: bool, actionRequest: Option<ActionRequest>,
                               action: BrowserAction, questionId: nat): CallbackOutcome
  {
    if !valuePresent || actionRequest.None? then CallbackOutcome(InvalidParameter, actionRequest)
    else if action != ActionChanged then CallbackOutcome(Unsupported, actionRequest)
    else if questionId == QuestionSaveExit then CallbackOutcome(Success, Some(FormSubmitExit))
    else if questionId == QuestionDiscardExit then CallbackOutcome(Success, Some(FormDiscardExit))
    else CallbackOutcome(Success, actionRequest)
  }

  /** NULL arguments are refused first, then every action but CHANGED; the
      request is never touched on those paths. */
  lemma CallbackCheckOrder(valuePresent: bool, actionRequest: Option<ActionRequest>,
                           action: BrowserAction, questionId: nat)
    ensures var r := BoardConfigCallback(valuePresent, actionRequest, action, questionId);
      (r.status == InvalidParameter <==> !valuePresent || actionRequest.None?) &&
      (r.status == Unsupported <==> valuePresent && actionRequest.Some? && action != ActionChanged) &&
      (r.status != Success ==> r.actionRequest == actionRequest)
  {
  }

  /** A CHANGED question succeeds; SAVE_EXIT and DISCARD_EXIT ask the browser
      to submit or discard and leave, any other question asks nothing. */
  lemma CallbackAnswers(actionRequest: ActionRequest, questionId: nat)
    ensures var r := BoardConfigCallback(true, Some(actionRequest), ActionChanged, questionId);
      r.status == Success &&
      r.actionRequest == Some(
        if questionId == QuestionSaveExit then FormSubmitExit
        else if questionId == QuestionDiscardExit then FormDiscardExit
        else actionRequest)
  {
  }

  // ---- The routing services and the variable store ----

  /** BlockToConfig's answer: its status and what it leaves in *Progress and *Results. */
  datatype ConfigAnswer = ConfigAnswer(status: EfiStatus, progress: Option<EfiString>, results: Out<EfiString>)

  /** ConfigToBlock's answer: its status, *Progress and the updated block. */
  datatype BlockAnswer = BlockAnswer(status: EfiStatus, progress: EfiString, block: BoardConfiguration)

  datatype Services = Services(
    headerMatches: EfiString -> bool,                                       // HiiIsConfigHdrMatch
    blockToConfig: (Option<EfiString>, BoardConfiguration) -> ConfigAnswer,
    configToBlock: (EfiString, BoardConfiguration) -> BlockAnswer,
    setVariableStatus: EfiStatus,                                           // gRT->SetVariable
    settingsValid: BoardConfiguration -> bool,                              // HiiValidateSettings
    defaults: BoardConfiguration)                                           // what HiiSetToDefaults stores

  /** What the form's code does to the variable store, in order. */
  datatype StoreEvent = SetVariableCall(data: BoardConfiguration) | ValidateSettings | SetToDefaults

  datatype HiiState = HiiState(
    variable: Option<BoardConfiguration>,   // "BoardSetup"; None when it does not exist
    events: seq<StoreEvent>,
    protocolsInstalled: bool,               // device path and config access on the driver handle
    packagesPublished: bool)

  /** gRT->SetVariable: the call is recorded; the data is stored when it succeeds. */
  function SetVariableSpec(svc: Services, s: HiiState, data: BoardConfiguration): HiiState {
    s.(variable := if svc.setVariableStatus == Success then Some(data) else s.variable,
       events := s.events + [SetVariableCall(data)])
  }

  // ---- ExtractConfig ----

  /** The status, *Progress and *Results. */
  datatype ExtractOutcome = ExtractOutcome(status: EfiStatus, progress: Out<Option<EfiString>>, results: Out<EfiString>)

  function ExtractConfigSpec(svc: Services, s: HiiState, request: Option<EfiString>,
                             progressPresent: bool, resultsPresent: bool): ExtractOutcome
  {
    if !progressPresent || !resultsPresent then ExtractOutcome(InvalidParameter, Unwritten, Unwritten)
    else if request.Some? && !svc.headerMatches(request.value) then ExtractOutcome(NotFound, Written(request), Unwritten)
    else if s.variable.None? then ExtractOutcome(NotFound, Written(request), Unwritten)
    else
      var a := svc.blockToConfig(request, s.variable.value);
      ExtractOutcome(a.status, Written(a.progress), a.results)
  }

  /**
   * NULL Progress or Results is refused before anything is written; then
   * *Progress is the request; a request for another store is not found,
   * but a NULL request (the whole store) skips that check; a missing
   * variable's status is returned; otherwise BlockToConfig decides.
   */
  lemma ExtractCheckOrder(svc: Services, s: HiiState, request: Option<EfiString>,
                          progressPresent: bool, resultsPresent: bool)
    ensures var r := ExtractConfigSpec(svc, s, request, progressPresent, resultsPresent);
      (!progressPresent || !resultsPresent ==> r == ExtractOutcome(InvalidParameter, Unwritten, Unwritten)) &&
      (progressPresent && resultsPresent && (request.None? || svc.headerMatches(request.value)) && s.variable.Some? ==>
         r.status == svc.blockToConfig(request, s.variable.value).status) &&
      (progressPresent && resultsPresent && ((request.Some? && !svc.headerMatches(request.value)) || s.variable.None?) ==>
         r == ExtractOutcome(NotFound, Written(request), Unwritten)) &&
      (r.results.Written? ==> progressPresent && resultsPresent && s.variable.Some?)
  {
  }

  // ---- RouteConfig ----

  datatype RouteOutcome = RouteOutcome(status: EfiStatus, progress: Out<EfiString>, state: HiiState)

  function RouteConfigSpec(svc: Services, s: HiiState, configuration: Option<EfiString>,
                           progressPresent: bool): RouteOutcome
  {
    if configuration.None? || !progressPresent then RouteOutcome(InvalidParameter, Unwritten, s)
    else if !svc.headerMatches(configuration.value) then RouteOutcome(NotFound, Written(configuration.value), s)
    else if s.variable.None? then RouteOutcome(NotFound, Written(configuration.value), s)
    else
      var a := svc.configToBlock(configuration.value, s.variable.value);
      RouteOutcome(svc.setVariableStatus, Written(a.progress), SetVariableSpec(svc, s, a.block))
  }

  /**
   * NULL arguments and a foreign header change nothing; past the variable
   * read, the variable is written whatever ConfigToBlock said, and
   * SetVariable's status is the result.
   */
  lemma RouteCheckOrder(svc: Services, s: HiiState, configuration: Option<EfiString>, progressPresent: bool)
    ensures var r := RouteConfigSpec(svc, s, configuration, progressPresent);
      (configuration.None? || !progressPresent ==> r == RouteOutcome(InvalidParameter, Unwritten, s)) &&
      (configuration.Some? && progressPresent && !svc.headerMatches(configuration.value) ==>
         r.status == NotFound && r.state == s) &&
      (r.state != s <==>
         configuration.Some? && progressPresent && svc.headerMatches(configuration.value) && s.variable.Some?) &&
      (r.state != s ==>
         var a := svc.configToBlock(configuration.value, s.variable.value);
         r.status == svc.setVariableStatus && r.state.events == s.events + [SetVariableCall(a.block)] &&
         (r.status == Success ==> r.state.variable == Some(a.block)))
  {
    var r := RouteConfigSpec(svc, s, configuration, progressPresent);
    if configuration.Some? && progressPresent && svc.headerMatches(configuration.value) && s.variable.Some? {
      assert |r.state.events| > |s.events|;
    }
  }

  // ---- HiiSetToDefaults ----

  /**
   * HiiSetToDefaults, as the form browser carries it out: the call is
   * recorded, and the standard defaults reach this form's RouteConfig,
   * which fails with NOT_FOUND while the variable does not exist and
   * otherwise stores them with SetVariable. The flag is TRUE exactly when
   * the store succeeded.
   */
  function SetToDefaultsSpec(svc: Services, s: HiiState): (bool, HiiState) {
    var s1 := s.(events := s.events + [SetToDefaults]);
    if s.variable.None? then (false, s1)
    else (svc.setVariableStatus == Success, SetVariableSpec(svc, s1, svc.defaults))
  }

  /** The defaults are in place exactly when the flag says so; a failed
      reset leaves the variable as it was. */
  lemma SetToDefaultsOutcome(svc: Services, s: HiiState)
    ensures var (done, r) := SetToDefaultsSpec(svc, s);
      (done <==> s.variable.Some? && svc.setVariableStatus == Success) &&
      (done ==> r.variable == Some(svc.defaults)) &&
      (!done ==> r.variable == s.variable) &&
      r.events[..|s.events| + 1] == s.events + [SetToDefaults] &&
      r.protocolsInstalled == s.protocolsInstalled && r.packagesPublished == s.packagesPublished
  {
    var (done, r) := SetToDefaultsSpec(svc, s);
    if s.variable.Some? {
      assert r.events == s.events + [SetToDefaults] + [SetVariableCall(svc.defaults)];
    }
  }

  // ---- InstallBoardConfigHiiForm ----

  function InstallSpec(svc: Services, s: HiiState): HiiState {
    var s1 := s.(protocolsInstalled := true, packagesPublished := true);
    if s1.variable.Some? then
      var s2 := s1.(events := s1.events + [ValidateSettings]);
      if svc.settingsValid(s1.variable.value) then s2
      else SetToDefaultsSpec(svc, s2).1
    else
      var s2 := SetVariableSpec(svc, s1, ZeroConfiguration);
      SetToDefaultsSpec(svc, s2).1
  }

  /**
   * The form always ends up published. A missing variable is created
   * zero-filled and then reset to defaults, both through SetVariable; when
   * SetVariable fails the variable stays missing. An existing one is
   * validated and, only when that fails, reset to defaults, which sticks
   * only when SetVariable succeeds.
   */
  lemma InstallVariableLifecycle(svc: Services, s: HiiState)
    ensures var r := InstallSpec(svc, s);
      var ok := svc.setVariableStatus == Success;
      r.protocolsInstalled && r.packagesPublished &&
      (r.variable.Some? <==> s.variable.Some? || ok) &&
      (s.variable.None? && ok ==>
         r.events == s.events + [SetVariableCall(ZeroConfiguration), SetToDefaults, SetVariableCall(svc.defaults)] &&
         r.variable == Some(svc.defaults)) &&
      (s.variable.None? && !ok ==>
         r.events == s.events + [SetVariableCall(ZeroConfiguration), SetToDefaults]) &&
      (s.variable.Some? && svc.settingsValid(s.variable.value) ==>
         r.events == s.events + [ValidateSettings] && r.variable == s.variable) &&
      (s.variable.Some? && !svc.settingsValid(s.variable.value) ==>
         r.events == s.events + [ValidateSettings, SetToDefaults, SetVariableCall(svc.defaults)] &&
         r.variable == (if ok then Some(svc.defaults) else s.variable))
  {
  }

  // ---- The driver object ----

  class BoardConfigDriver {
    var variable: Option<BoardConfiguration>
    var events: seq<StoreEvent>
    var protocolsInstalled: bool
    var packagesPublished: bool
    const svc: Services

    function State(): HiiState
      reads this
    {
      HiiState(variable, events, protocolsInstalled, packagesPublished)
    }

    constructor (stored: Option<BoardConfiguration>, services: Services)
      ensures State() == HiiState(stored, [], false, false) && svc == services
    {
      variable, events, protocolsInstalled, packagesPublished := stored, [], false, false;
      svc := services;
    }

    /** gRT->GetVariable into a BOARD_CONFIGURATION; EFI_NOT_FOUND when absent. */
    method GetVariable() returns (status: EfiStatus, data: BoardConfiguration)
      ensures status == (if variable.Some? then Success else NotFound)
      ensures variable.Some? ==> data == variable.value
    {
      if variable.Some? {
        return Success, variable.value;
      }
      return NotFound, ZeroConfiguration;
    }

    method SetVariable(data: BoardConfiguration) returns (status: EfiStatus)
      modifies this
      ensures status == svc.setVariableStatus
      ensures State() == SetVariableSpec(svc, old(State()), data)
    {
      status := svc.setVariableStatus;
      if status == Success {
        variable := Some(data);
      }
      events := events + [SetVariableCall(data)];
    }

    method BoardConfigExtractConfig(request: Option<EfiString>, progressPresent: bool, resultsPresent: bool)
      returns (status: EfiStatus, progress: Out<Option<EfiString>>, results: Out<EfiString>)
      ensures ExtractOutcome(status, progress, results)
           == ExtractConfigSpec(svc, State(), request, progressPresent, resultsPresent)
    {
      progress, results := Unwritten, Unwritten;
      if !progressPresent || !resultsPresent {
        return InvalidParameter, progress, results;
      }
      progress := Written(request);
      if request.Some? && !svc.headerMatches(request.value) {
        return NotFound, progress, results;
      }
      var boardConfig;
      status, boardConfig := GetVariable();
      if IsError(status) {
        return;
      }
      var answer := svc.blockToConfig(request, boardConfig);
      status, progress, results := answer.status, Written(answer.progress), answer.results;
    }

    method BoardConfigRouteConfig(configuration: Option<EfiString>, progressPresent: bool)
      returns (status: EfiStatus, progress: Out<EfiString>)
      modifies this
      ensures status == RouteConfigSpec(svc, old(State()), configuration, progressPresent).status
      ensures progress == RouteConfigSpec(svc, old(State()), configuration, progressPresent).progress
      ensures State() == RouteConfigSpec(svc, old(State()), configuration, progressPresent).state
    {
      progress := Unwritten;
      if configuration.None? || !progressPresent {
        return InvalidParameter, progress;
      }
      progress := Written(configuration.value);
      if !svc.headerMatches(configuration.value) {
        return NotFound, progress;
      }
      var boardConfig;
      status, boardConfig := GetVariable();
      if IsError(status) {
        return;
      }
      var answer := svc.configToBlock(configuration.value, boardConfig);
      progress := Written(answer.progress);
      // A failed conversion is only reported; the variable is written anyway.
      status := SetVariable(answer.block);
    }

    /** HiiValidateSettings on the stored variable. */
    method HiiValidateSettings() returns (valid: bool)
      requires variable.Some?
      modifies this
      ensures valid == svc.settingsValid(old(variable).value)
      ensures State() == old(State()).(events := old(events) + [ValidateSettings])
    {
      valid := svc.settingsValid(variable.value);
      events := events + [ValidateSettings];
    }

    /** HiiSetToDefaults: the browser routes the standard defaults to RouteConfig. */
    method HiiSetToDefaults() returns (done: bool)
      modifies this
      ensures (done, State()) == SetToDefaultsSpec(svc, old(State()))
    {
      events := events + [SetToDefaults];
      var status, stored := GetVariable();
      if IsError(status) {
        return false;
      }
      status := SetVariable(svc.defaults);
      done := status == Success;
    }

    method InstallBoardConfigHiiForm()
      modifies this
      ensures State() == InstallSpec(svc, old(State()))
    {
      protocolsInstalled := true;   // InstallMultipleProtocolInterfaces
      packagesPublished := true;    // HiiAddPackages
      var boardConfig := ZeroConfiguration;
      var status, stored := GetVariable();
      var actionFlag;
      if !IsError(status) {
        actionFlag := HiiValidateSettings();
        if !actionFlag {
          actionFlag := HiiSetToDefaults();
        }
      } else {
        status := SetVariable(boardConfig);
        actionFlag := HiiSetToDefaults();
      }
    }
  }
}
