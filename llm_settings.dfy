// The language-model service dialog that ModelSelector and LLMServiceConfig
// both carry: the form, the connection test and how its answer is shown,
// the selection of models to enable, saving a service under an id, editing
// and rescanning an existing one, and the status labels. The backend's
// answers come in as parameters; what goes out is returned as a request.
module LlmSettings {
  import opened Wrappers
  import opened Strings
  import opened Lists

  datatype ModelInfo = ModelInfo(
    id: string,
    name: string,
    provider: string,
    service: string,
    serviceType: string,
    available: bool,
    isDefault: bool)

  /** The entries of a service's `config` record that the dialog reads back. */
  datatype ServiceValues = ServiceValues(
    host: Option<string>,
    apiKey: Option<string>,
    baseUrl: Option<string>,
    models: Option<seq<string>>)

  datatype ServiceInfo = ServiceInfo(
    id: string,
    kind: string,
    name: string,
    enabled: bool,
    available: bool,
    models: seq<string>,
    status: string,
    config: ServiceValues)

  /** The dialog's form. */
  datatype ServiceConfig = ServiceConfig(
    name: string,
    host: Option<string>,
    apiKey: Option<string>,
    baseUrl: Option<string>,
    models: Option<seq<string>>)

  const DefaultHost := "http://localhost:11434"
  const EmptyConfig := ServiceConfig("", Some(DefaultHost), None, None, None)

  datatype TestResult = TestResult(success: bool, message: Option<string>, models: Option<seq<string>>, available: Option<bool>)

  const NoResult := TestResult(false, None, None, None)

  function Failure(message: string): TestResult {
    TestResult(false, Some(message), None, None)
  }

  /** The test endpoint's JSON answer; a missing flag reads as false. */
  datatype TestResponse = TestResponse(success: bool, available: bool, models: Option<seq<string>>, error: Option<string>)

  /**
   * How an awaited request ended: with the endpoint's answer, or with an
   * `Error` (its `name` and `message`); cancelling a test through its abort
   * signal makes the request end with an "AbortError".
   */
  datatype Outcome<T> = Answered(response: T) | Threw(name: string, message: string)

  /** `${error}` for an `Error`, as `Error.prototype.toString` writes it. */
  function ErrorText(name: string, message: string): (t: string)
    ensures name != "" && message != "" ==> t == name + ": " + message
    ensures name == "" || message == "" ==> t == name + message
  {
    if name == "" then message else if message == "" then name else name + ": " + message
  }

  datatype Dialog = Dialog(
    serviceType: string,
    config: ServiceConfig,
    testing: bool,
    testResult: TestResult,
    discovered: seq<string>,
    selected: seq<string>,
    editingId: Option<string>,
    modelsInput: string,
    statusMessage: string,
    open: bool)

  const InitialDialog := Dialog("ollama", EmptyConfig, false, NoResult, [], [], None, "", "", false)

  /** The selected models form a set (a JavaScript `Set`, kept in insertion order). */
  predicate Valid(d: Dialog) {
    NoDuplicates(d.selected)
  }

  // ---------------------------------------------------------------------
  // Error messages

  const AuthFailed := "❌ Authentication failed - Please check your API key"
  const Forbidden := "❌ Access forbidden - Check your API key permissions"
  const NotFound := "❌ Endpoint not found - Check your Base URL"
  const ConnectionFailed := "❌ Connection failed - Check your endpoint URL and network"
  const TimedOut := "❌ Connection timeout - Endpoint may be slow or unreachable"

  const CancelledText := "⏹️ Test cancelled by user"
  const ConnectionErrorPrefix := "❌ Connection error: "
  const UnavailableText := "❌ Service is reachable but not available. Check your configuration."

  /** The first rule whose key the backend's error mentions picks the message shown. */
  function ClassifyError(raw: string): (r: string)
    ensures (!Contains(raw, "401") && !Contains(raw, "Authentication") && !Contains(raw, "403") &&
             !Contains(raw, "404") && !Contains(raw, "Connection") && !Contains(raw, "timeout")) ==> r == raw
    ensures r != raw ==> r in [AuthFailed, Forbidden, NotFound, ConnectionFailed, TimedOut]
    ensures Contains(raw, "401") || Contains(raw, "Authentication") ==> r == AuthFailed
    ensures !Contains(raw, "401") && !Contains(raw, "Authentication") && Contains(raw, "403") ==> r == Forbidden
  {
    if Contains(raw, "401") || Contains(raw, "Authentication") then AuthFailed
    else if Contains(raw, "403") then Forbidden
    else if Contains(raw, "404") then NotFound
    else if Contains(raw, "Connection") then ConnectionFailed
    else if Contains(raw, "timeout") then TimedOut
    else raw
  }

  /** "Connection" is checked before "timeout", so an error naming both reads as a failed connection. */
  lemma ConnectionShadowsTimeout(raw: string)
    requires Contains(raw, "Connection") && Contains(raw, "timeout")
    requires !Contains(raw, "401") && !Contains(raw, "Authentication") && !Contains(raw, "403") && !Contains(raw, "404")
    ensures ClassifyError(raw) == ConnectionFailed && ClassifyError(raw) != TimedOut
  {
    assert ConnectionFailed[15] != TimedOut[15];
  }

  /** `result.error || fallback`. */
  function ErrorOr(error: Option<string>, fallback: string): (r: string)
    ensures r == fallback <==> error.None? || error.value == "" || error.value == fallback
    ensures r != fallback ==> error == Some(r)
  {
    if error.Some? && error.value != "" then error.value else fallback
  }

  // ---------------------------------------------------------------------
  // Testing a connection

  /** The config sent for a test: an OpenAI form's typed model list replaces the form's own. */
  function TestConfig(d: Dialog): (c: ServiceConfig)
    ensures c.name == d.config.name && c.host == d.config.host && c.apiKey == d.config.apiKey && c.baseUrl == d.config.baseUrl
    ensures d.serviceType == "openai" && d.modelsInput != "" ==> c.models == Some(ParseList(d.modelsInput))
    ensures !(d.serviceType == "openai" && d.modelsInput != "") ==> c == d.config
  {
    if d.serviceType == "openai" && d.modelsInput != "" then d.config.(models := Some(ParseList(d.modelsInput)))
    else d.config
  }

  datatype TestRequest = TestRequest(serviceType: string, config: ServiceConfig)

  /** What `testService` does before its request is answered; the request is the second component. */
  function StartTest(d: Dialog): (r: (Dialog, TestRequest))
    ensures Valid(d) ==> Valid(r.0)
    ensures r.0.testing && r.0.testResult == NoResult && r.0.discovered == []
    ensures r.1 == TestRequest(d.serviceType, TestConfig(d))
  {
    (d.(testing := true, testResult := NoResult, discovered := [], statusMessage := "Sending test request..."),
     TestRequest(d.serviceType, TestConfig(d)))
  }

  /** The models a successful test offers: an OpenAI form's configured list if it has one, otherwise those found. */
  function OfferedModels(d: Dialog, found: seq<string>): seq<string> {
    if d.serviceType == "openai" && d.config.models.Some? && |d.config.models.value| > 0 then d.config.models.value
    else found
  }

  /** A test that found the service available: the offered models are shown and all selected. */
  function Connected(d: Dialog, found: seq<string>): (r: Dialog)
    ensures Valid(r) && r.testResult.success && r.testResult.models == Some(found)
    ensures r.discovered == OfferedModels(d, found)
    ensures forall m :: m in r.selected <==> m in r.discovered
    ensures r == d.(testResult := r.testResult, discovered := r.discovered, selected := r.selected, statusMessage := r.statusMessage)
  {
    var offered := OfferedModels(d, found);
    var configured := d.serviceType == "openai" && d.config.models.Some? && |d.config.models.value| > 0;
    d.(testResult := TestResult(true, Some("✅ Connected successfully! Found " + NatToString(|found|) + " models."), Some(found), Some(true)),
       discovered := offered, selected := Dedupe(offered),
       statusMessage := if configured then "Using configured OpenAI models." else "All discovered models selected.")
  }

  /** The rest of `testService`, once the request has ended one way or another. */
  function FinishTest(d: Dialog, outcome: Outcome<TestResponse>): (r: Dialog)
    ensures Valid(d) ==> Valid(r)
    ensures !r.testing && r.config == d.config && r.serviceType == d.serviceType && r.editingId == d.editingId
    ensures r.testResult.success <==> outcome.Answered? && outcome.response.success && outcome.response.available
    ensures r.testResult.success ==> r.testResult.models == Some(outcome.response.models.GetOr([]))
    ensures r.testResult.success ==> r.discovered == OfferedModels(d, outcome.response.models.GetOr([]))
    ensures r.testResult.success ==> forall m :: m in r.selected <==> m in r.discovered
    ensures !r.testResult.success ==> r.selected == d.selected && r.discovered == d.discovered
    ensures outcome.Threw? && outcome.name == "AbortError" ==> r.testResult == Failure(CancelledText)
    ensures outcome.Threw? && outcome.name != "AbortError" ==> r.testResult == Failure(ConnectionErrorPrefix + outcome.message)
    ensures outcome.Answered? && !outcome.response.success ==>
      r.testResult == Failure(ClassifyError(ErrorOr(outcome.response.error, "Test failed")))
  {
    var d1 := d.(testing := false);
    match outcome
    case Threw(name, message) =>
      if name == "AbortError" then d1.(testResult := Failure(CancelledText), statusMessage := "Test cancelled.")
      else d1.(testResult := Failure(ConnectionErrorPrefix + message), statusMessage := "Connection error.")
    case Answered(res) =>
      if res.success && res.available then Connected(d1, res.models.GetOr([]))
      else if res.success then
        d1.(testResult := Failure(UnavailableText),
            statusMessage := "Service reachable but not available.")
      else
        d1.(testResult := Failure(ClassifyError(ErrorOr(res.error, "Test failed"))), statusMessage := "Test failed.")
  }

  /** A test that started from `d` and failed leaves the selection as it was and no model discovered. */
  lemma FailedTestDiscoversNothing(d: Dialog, outcome: Outcome<TestResponse>)
    requires !(outcome.Answered? && outcome.response.success && outcome.response.available)
    ensures var r := FinishTest(StartTest(d).0, outcome);
      r.selected == d.selected && r.discovered == [] && !r.testResult.success
  {
  }

  // ---------------------------------------------------------------------
  // Saving a service

  /** `editingServiceId || `${type}_${Date.now()}``. */
  function ServiceId(editingId: Option<string>, serviceType: string, now: nat): (id: string)
    ensures editingId.Some? && editingId.value != "" ==> id == editingId.value
    ensures !(editingId.Some? && editingId.value != "") ==> id == serviceType + "_" + NatToString(now)
  {
    if editingId.Some? && editingId.value != "" then editingId.value else serviceType + "_" + NatToString(now)
  }

  /** New services saved at different times get different ids. */
  lemma FreshIdsDiffer(serviceType: string, now: nat, later: nat)
    requires now != later
    ensures ServiceId(None, serviceType, now) != ServiceId(None, serviceType, later)
  {
    var prefix := serviceType + "_";
    if ServiceId(None, serviceType, now) == ServiceId(None, serviceType, later) {
      assert (prefix + NatToString(now))[|prefix|..] == NatToString(now);
      assert (prefix + NatToString(later))[|prefix|..] == NatToString(later);
      NatToStringInjective(now, later);
    }
  }

  /**
   * The config that is saved: the selected models; ModelSelector (not
   * LLMServiceConfig) replaces them, for OpenAI, by the typed list.
   */
  function SaveConfig(d: Dialog, fromTypedList: bool): (c: ServiceConfig)
    ensures c.name == d.config.name && c.host == d.config.host && c.apiKey == d.config.apiKey && c.baseUrl == d.config.baseUrl
    ensures fromTypedList && d.serviceType == "openai" && d.modelsInput != "" ==> c.models == Some(ParseList(d.modelsInput))
    ensures !(fromTypedList && d.serviceType == "openai" && d.modelsInput != "") ==> c.models == Some(d.selected)
  {
    if fromTypedList && d.serviceType == "openai" && d.modelsInput != "" then d.config.(models := Some(ParseList(d.modelsInput)))
    else d.config.(models := Some(d.selected))
  }

  /** The requests `addService` sends: the old service's removal when editing, then the new one. */
  datatype SaveRequest = SaveRequest(removeFirst: Option<string>, serviceId: string, serviceType: string, config: ServiceConfig)

  function SaveRequestOf(d: Dialog, now: nat, fromTypedList: bool): (q: SaveRequest)
    ensures q.removeFirst.Some? <==> d.editingId.Some? && d.editingId.value != ""
    ensures q.removeFirst.Some? ==> q.removeFirst.value == q.serviceId
    ensures q.serviceId == ServiceId(d.editingId, d.serviceType, now)
    ensures q.config == SaveConfig(d, fromTypedList)
  {
    SaveRequest(if d.editingId.Some? && d.editingId.value != "" then d.editingId else None,
                ServiceId(d.editingId, d.serviceType, now), d.serviceType, SaveConfig(d, fromTypedList))
  }

  /** `resetConfigForm`: the form, type, result, model lists, edit id and typed list go back to their start values. */
  function ResetConfigForm(d: Dialog): (r: Dialog)
    ensures Valid(r)
    ensures r == InitialDialog.(testing := d.testing, statusMessage := d.statusMessage, open := d.open)
  {
    d.(config := EmptyConfig, serviceType := "ollama", testResult := NoResult, discovered := [], selected := [],
       editingId := None, modelsInput := "")
  }

  /** The save's answer: success closes and resets the dialog, a refusal or an exception shows why. */
  function FinishSave(d: Dialog, outcome: Outcome<(bool, Option<string>)>): (r: Dialog)
    ensures Valid(d) ==> Valid(r)
    ensures outcome.Answered? && outcome.response.0 ==> r == ResetConfigForm(d).(open := false)
    ensures outcome.Answered? && !outcome.response.0 ==> r == d.(testResult := Failure(ErrorOr(outcome.response.1, "Failed to save service")))
    ensures outcome.Threw? ==> r == d.(testResult := Failure("Error saving service: " + ErrorText(outcome.name, outcome.message)))
  {
    match outcome
    case Answered((ok, error)) =>
      if ok then ResetConfigForm(d).(open := false)
      else d.(testResult := Failure(ErrorOr(error, "Failed to save service")))
    case Threw(name, message) => d.(testResult := Failure("Error saving service: " + ErrorText(name, message)))
  }

  // ---------------------------------------------------------------------
  // Editing and rescanning

  /** `String(config.host || default)`. */
  function HostOr(host: Option<string>): string {
    if host.Some? && host.value != "" then host.value else DefaultHost
  }

  /** `editService`: the form is filled from the service, by its type. */
  function EditService(d: Dialog, s: ServiceInfo): (r: Dialog)
    ensures Valid(r)
    ensures r.editingId == Some(s.id) && r.serviceType == s.kind && r.open && r.testResult == NoResult
    ensures forall m :: m in r.selected <==> m in s.models
    ensures s.kind == "ollama" ==> r.config == ServiceConfig(s.name, Some(HostOr(s.config.host)), None, None, None)
    ensures s.kind == "openai" ==> r.discovered == s.config.models.GetOr([]) && r.modelsInput == Join(r.discovered, ",")
    ensures s.kind == "openai" ==> r.config == ServiceConfig(s.name, None, Some(s.config.apiKey.GetOr("")),
                                                            Some(s.config.baseUrl.GetOr("")), Some(r.discovered))
  {
    var d1 :=
      if s.kind == "ollama" then d.(config := ServiceConfig(s.name, Some(HostOr(s.config.host)), None, None, None))
      else if s.kind == "openai" then
        var models := s.config.models.GetOr([]);
        d.(config := ServiceConfig(s.name, None, Some(s.config.apiKey.GetOr("")), Some(s.config.baseUrl.GetOr("")), Some(models)),
           discovered := models, modelsInput := Join(models, ","))
      else d;
    d1.(editingId := Some(s.id), serviceType := s.kind, selected := Dedupe(s.models), testResult := NoResult, open := true)
  }

  /** Editing an OpenAI service and testing it again sends the same model list, when its names are clean. */
  lemma EditedListParsesBack(d: Dialog, s: ServiceInfo)
    requires s.kind == "openai" && CleanItems(s.config.models.GetOr([])) && |s.config.models.GetOr([])| > 0
    ensures TestConfig(EditService(d, s)).models == s.config.models
  {
    var models := s.config.models.GetOr([]);
    ParseJoined(models);
    assert Join(models, ",") != "" by {
      assert models[0] != "";
      if |models| > 1 {
        JoinPrefix(models);
      }
    }
  }

  lemma JoinPrefix(models: seq<string>)
    requires |models| > 1
    ensures Join(models, ",") == models[0] + "," + Join(models[1..], ",")
  {
  }

  /** `rescanModels` on a successful test: edit the service again with the models found, keeping its selection. */
  function RescanFound(d: Dialog, s: ServiceInfo, found: seq<string>): (r: Dialog)
    ensures Valid(r)
    ensures r.editingId == Some(s.id) && r.serviceType == "ollama" && r.open && r.discovered == found
    ensures r.config == ServiceConfig(s.name, Some(HostOr(s.config.host)), None, None, None)
    ensures forall m :: m in r.selected <==> m in s.models
  {
    d.(editingId := Some(s.id), serviceType := "ollama",
       config := ServiceConfig(s.name, Some(HostOr(s.config.host)), None, None, None),
       discovered := found, selected := Dedupe(s.models),
       testResult := TestResult(true, Some("Found " + NatToString(|found|) + " models. Select which ones to enable."), Some(found), Some(true)),
       open := true)
  }

  /** While a service is rescanned its id is in the refreshing set. */
  function MarkRefreshing(refreshing: seq<string>, id: string): (r: seq<string>)
    ensures id in r && forall x :: x in refreshing ==> x in r
    ensures forall x :: x in r ==> x in refreshing || x == id
  {
    if id in refreshing then refreshing else refreshing + [id]
  }

  /**
   * `rescanModels`: only Ollama services go through the connection test again, with their saved
   * config; the refreshing mark is gone afterwards however the test ended.
   */
  function Rescan(d: Dialog, refreshing: seq<string>, s: ServiceInfo, outcome: Outcome<TestResponse>): (r: (Dialog, seq<string>))
    ensures Valid(d) ==> Valid(r.0)
    ensures s.kind != "ollama" ==> r == (d, refreshing)
    ensures s.kind == "ollama" ==> s.id !in r.1 && forall x :: x in refreshing && x != s.id ==> x in r.1
    ensures forall x :: x in r.1 ==> x in refreshing
    ensures s.kind == "ollama" && outcome.Answered? && outcome.response.success && outcome.response.available ==>
      r.0 == RescanFound(d, s, outcome.response.models.GetOr([]))
    ensures s.kind == "ollama" && !(outcome.Answered? && outcome.response.success && outcome.response.available) ==>
      r.0 == d.(testResult := r.0.testResult) && !r.0.testResult.success
  {
    if s.kind != "ollama" then (d, refreshing)
    else
      var cleared := Filter(MarkRefreshing(refreshing, s.id), Without(s.id));
      var d1 := match outcome
        case Answered(res) =>
          if res.success && res.available then RescanFound(d, s, res.models.GetOr([]))
          else d.(testResult := Failure(ErrorOr(res.error, "Failed to rescan models")))
        case Threw(name, message) => d.(testResult := Failure("Error rescanning models: " + ErrorText(name, message)));
      (d1, cleared)
  }

  // ---------------------------------------------------------------------
  // The save button

  /** The add/update button is enabled only after a successful test with at least one model selected. */
  predicate SaveEnabled(d: Dialog) {
    d.testResult.success && |d.selected| > 0
  }

  /** A successful test that offers models enables saving; any other ending of a test disables it. */
  lemma TestDecidesSave(d: Dialog, outcome: Outcome<TestResponse>)
    ensures var r := FinishTest(StartTest(d).0, outcome);
      SaveEnabled(r) <==> r.testResult.success && |r.discovered| > 0
  {
    var r := FinishTest(StartTest(d).0, outcome);
    if r.testResult.success && |r.discovered| > 0 {
      assert r.discovered[0] in r.selected;
    }
  }

  /** A fresh form, or one just opened for editing, must pass the connection test again before it can be saved. */
  lemma EditingNeedsTest(d: Dialog, s: ServiceInfo)
    ensures !SaveEnabled(ResetConfigForm(d)) && !SaveEnabled(EditService(d, s))
  {
  }

  /** A rescan that finds the service keeps its models selected, so it can be saved straight away when it had any. */
  lemma RescanEnablesSave(d: Dialog, s: ServiceInfo, found: seq<string>)
    requires |s.models| > 0
    ensures SaveEnabled(RescanFound(d, s, found))
  {
    assert s.models[0] in RescanFound(d, s, found).selected;
  }

  // ---------------------------------------------------------------------
  // The model list and the current choice

  /**
   * `fetchModels`: the list shown, and the choice afterwards. A choice no
   * longer in the list is cleared; when the answer has no list, `.find` on
   * it throws before the choice is touched.
   */
  function ModelsLoaded(current: string, allModels: Option<seq<ModelInfo>>): (r: (seq<ModelInfo>, string))
    ensures r.0 == allModels.GetOr([])
    ensures r.1 == "" || r.1 == current
    ensures allModels.Some? && r.1 != "" ==> exists i :: 0 <= i < |r.0| && r.0[i].id == r.1
    ensures allModels.None? ==> r.1 == current
  {
    var models := allModels.GetOr([]);
    if current != "" && allModels.Some? && !(exists i :: 0 <= i < |models| && models[i].id == current) then (models, "")
    else (models, current)
  }

  /** A choice that is in the list survives a reload. */
  lemma ListedChoiceKept(current: string, models: seq<ModelInfo>, i: nat)
    requires i < |models| && models[i].id == current
    ensures ModelsLoaded(current, Some(models)).1 == current
  {
  }

  // ---------------------------------------------------------------------
  // Status labels

  /** A service's label: "Online" and "Configured" by name, "Error" for an "error:" status, "Offline" for anything else. */
  function ServiceStatusText(status: string): (t: string)
    ensures t in ["Online", "Configured", "Error", "Offline"]
    ensures t == "Error" <==> status != "online" && status != "configured" && StartsWith(status, "error:")
  {
    if status == "online" then "Online"
    else if status == "configured" then "Configured"
    else if StartsWith(status, "error:") then "Error"
    else "Offline"
  }

  function ServiceStatusColor(status: string): (c: string) {
    if status == "online" then "text-green-500"
    else if status == "configured" then "text-blue-500"
    else "text-red-500"
  }

  /** A model's label follows `available` alone. */
  function ModelStatusText(available: bool): string {
    if available then "Online" else "Offline"
  }

  function ModelStatusColor(available: bool): string {
    if available then "text-green-500" else "text-red-500"
  }

  /** Label and colour agree: green with "Online", blue with "Configured", red with "Error" and "Offline". */
  lemma StatusLabelsAgree(status: string, available: bool)
    ensures ServiceStatusText(status) == "Online" <==> ServiceStatusColor(status) == "text-green-500"
    ensures ServiceStatusText(status) == "Configured" <==> ServiceStatusColor(status) == "text-blue-500"
    ensures ModelStatusText(available) == "Online" <==> ModelStatusColor(available) == "text-green-500"
  {
  }

  // ---------------------------------------------------------------------
  // The dialog object

  class ServiceDialog {
    var serviceType: string
    var config: ServiceConfig
    var testing: bool
    var testResult: TestResult
    var discovered: seq<string>
    var selected: seq<string>
    var editingId: Option<string>
    var modelsInput: string
    var statusMessage: string
    var open: bool
    /** Ids of services being rescanned (a `Set`, in insertion order). */
    var refreshing: seq<string>
    /** The chosen model id, and the model list shown. */
    var selectedModel: string
    var models: seq<ModelInfo>
    /** ModelSelector takes an OpenAI service's saved models from the typed list; LLMServiceConfig does not. */
    const fromTypedList: bool

    function State(): Dialog
      reads this
    {
      Dialog(serviceType, config, testing, testResult, discovered, selected, editingId, modelsInput, statusMessage, open)
    }

    constructor(fromTypedList: bool, selectedModel: string)
      ensures State() == InitialDialog && this.fromTypedList == fromTypedList
      ensures refreshing == [] && this.selectedModel == selectedModel && models == []
    {
      serviceType, config, testing, testResult := "ollama", EmptyConfig, false, NoResult;
      discovered, selected, editingId, modelsInput := [], [], None, "";
      statusMessage, open, refreshing := "", false, [];
      this.selectedModel, models := selectedModel, [];
      this.fromTypedList := fromTypedList;
    }

    method Commit(d: Dialog)
      modifies this`serviceType, this`config, this`testing, this`testResult, this`discovered, this`selected,
               this`editingId, this`modelsInput, this`statusMessage, this`open
      ensures State() == d
    {
      serviceType, config, testing, testResult := d.serviceType, d.config, d.testing, d.testResult;
      discovered, selected, editingId, modelsInput := d.discovered, d.selected, d.editingId, d.modelsInput;
      statusMessage, open := d.statusMessage, d.open;
    }

    /** `toggleModelSelection`. */
    method ToggleModelSelection(id: string)
      requires Valid(State())
      modifies this`selected
      ensures Valid(State())
      ensures selected == Toggle(old(selected), id)
    {
      ToggleKeepsDistinct(selected, id);
      selected := Toggle(selected, id);
    }

    /** `testService`, with the request's ending given as `outcome`. */
    method TestService(outcome: Outcome<TestResponse>) returns (request: TestRequest)
      modifies this`serviceType, this`config, this`testing, this`testResult, this`discovered, this`selected,
               this`editingId, this`modelsInput, this`statusMessage, this`open
      ensures request == StartTest(old(State())).1
      ensures State() == FinishTest(StartTest(old(State())).0, outcome)
    {
      var started := StartTest(State());
      request := started.1;
      Commit(FinishTest(started.0, outcome));
    }

    /** The timer three seconds after a test clears the status line. */
    method StatusTimerFired()
      modifies this`statusMessage
      ensures statusMessage == ""
    {
      statusMessage := "";
    }

    /** `addService`, saved at time `now`, with the answer given as `outcome`. */
    method AddService(now: nat, outcome: Outcome<(bool, Option<string>)>) returns (request: SaveRequest)
      modifies this`serviceType, this`config, this`testing, this`testResult, this`discovered, this`selected,
               this`editingId, this`modelsInput, this`statusMessage, this`open
      ensures request == SaveRequestOf(old(State()), now, fromTypedList)
      ensures State() == FinishSave(old(State()), outcome)
    {
      request := SaveRequestOf(State(), now, fromTypedList);
      Commit(FinishSave(State(), outcome));
    }

    method HandleEditService(s: ServiceInfo)
      modifies this`serviceType, this`config, this`testing, this`testResult, this`discovered, this`selected,
               this`editingId, this`modelsInput, this`statusMessage, this`open
      ensures State() == EditService(old(State()), s)
    {
      Commit(EditService(State(), s));
    }

    /** ModelSelector's `rescanModels`; the test request, if one is sent, carries the service's saved config. */
    method HandleRescan(s: ServiceInfo, outcome: Outcome<TestResponse>) returns (request: Option<ServiceValues>)
      modifies this`serviceType, this`config, this`testing, this`testResult, this`discovered, this`selected,
               this`editingId, this`modelsInput, this`statusMessage, this`open, this`refreshing
      ensures request == if s.kind == "ollama" then Some(s.config) else None
      ensures (State(), refreshing) == Rescan(old(State()), old(refreshing), s, outcome)
    {
      request := if s.kind == "ollama" then Some(s.config) else None;
      var r := Rescan(State(), refreshing, s, outcome);
      Commit(r.0);
      refreshing := r.1;
    }

    method HandleResetConfigForm()
      modifies this`serviceType, this`config, this`testing, this`testResult, this`discovered, this`selected,
               this`editingId, this`modelsInput, this`statusMessage, this`open
      ensures State() == ResetConfigForm(old(State()))
    {
      Commit(ResetConfigForm(State()));
    }

    /** The model list arrives. */
    method FetchModels(allModels: Option<seq<ModelInfo>>)
      modifies this`models, this`selectedModel
      ensures (models, selectedModel) == ModelsLoaded(old(selectedModel), allModels)
    {
      var r := ModelsLoaded(selectedModel, allModels);
      models, selectedModel := r.0, r.1;
    }

    /**
     * LLMServiceConfig's `setDefaultModel`: once the request returns an ok
     * HTTP status (`requestOk`), the model becomes the choice. The reply's
     * `success` field is not read, so a default the backend refuses still
     * becomes the choice.
     */
    method SetDefaultModel(modelId: string, requestOk: bool)
      modifies this`selectedModel
      ensures selectedModel == if requestOk then modelId else old(selectedModel)
    {
      if requestOk {
        selectedModel := modelId;
      }
    }
  }
}
