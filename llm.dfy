// The backend's language-model layer: the stored service configuration
// (`ServiceConfig`), and the manager (`LLMManager`) that builds a client per
// enabled service, maps model names to services, routes a chat to the
// service of its model and reports the services and models it knows.
//
// Python dictionaries keep their insertion order; the configured services
// are therefore a sequence of (id, entry) pairs with distinct ids. Whether a
// service answers is an oracle: the clients talk to the network.
module Llm {
  import opened Wrappers
  import opened Strings
  import opened Lists

  // ---------------------------------------------------------------------
  // The stored configuration

  /** A service's `config` dictionary: its text settings by key, and its `models` list. */
  datatype Settings = Settings(fields: map<string, string>, models: seq<string>)

  datatype ServiceEntry = ServiceEntry(kind: string, settings: Settings, enabled: bool)

  datatype Service = Service(id: string, entry: ServiceEntry)

  /** What a configuration file holds once parsed. */
  datatype StoredConfig = StoredConfig(services: seq<Service>, defaultModel: Option<string>)

  predicate DistinctIds(services: seq<Service>) {
    forall i, j :: 0 <= i < j < |services| ==> services[i].id != services[j].id
  }

  /** `services.get(id)`. */
  function Lookup(services: seq<Service>, id: string): (r: Option<ServiceEntry>)
    ensures r.None? <==> forall i :: 0 <= i < |services| ==> services[i].id != id
    ensures r.Some? ==> exists i :: 0 <= i < |services| && services[i] == Service(id, r.value)
    decreases |services|
  {
    if |services| == 0 then None
    else if services[0].id == id then Some(services[0].entry)
    else Lookup(services[1..], id)
  }

  /** `services[id] = e`: a present id keeps its place and gets the new entry; a new one goes last. */
  function Put(services: seq<Service>, id: string, e: ServiceEntry): (r: seq<Service>)
    ensures Lookup(r, id) == Some(e)
    ensures forall other :: other != id ==> Lookup(r, other) == Lookup(services, other)
    ensures |r| == |services| + (if Lookup(services, id).None? then 1 else 0)
    decreases |services|
  {
    if |services| == 0 then [Service(id, e)]
    else if services[0].id == id then [Service(id, e)] + services[1..]
    else [services[0]] + Put(services[1..], id, e)
  }

  /** `del services[id]`, for a present id. */
  function Remove(services: seq<Service>, id: string): (r: seq<Service>)
    ensures forall other :: other != id ==> Lookup(r, other) == Lookup(services, other)
    ensures Lookup(services, id).None? ==> r == services
    decreases |services|
  {
    if |services| == 0 then []
    else if services[0].id == id then services[1..]
    else [services[0]] + Remove(services[1..], id)
  }

  lemma {:induction false} PutKeepsDistinct(services: seq<Service>, id: string, e: ServiceEntry)
    requires DistinctIds(services)
    ensures DistinctIds(Put(services, id, e))
    decreases |services|
  {
    if |services| > 0 && services[0].id != id {
      PutKeepsDistinct(services[1..], id, e);
      var r := Put(services, id, e);
      forall j | 1 <= j < |r| ensures r[0].id != r[j].id {
        var x := r[j];
        assert x in Put(services[1..], id, e);
        PutMembers(services[1..], id, e, x);
        if x.id != id {
          var k :| 0 <= k < |services[1..]| && services[1..][k] == x;
          assert services[k + 1] == x;
        }
      }
    }
  }

  lemma {:induction false} PutMembers(services: seq<Service>, id: string, e: ServiceEntry, x: Service)
    requires x in Put(services, id, e)
    ensures x.id == id || x in services
    decreases |services|
  {
    if |services| > 0 && services[0].id != id && x != services[0] {
      PutMembers(services[1..], id, e, x);
    }
  }

  /** Removing a present id leaves no entry under it. */
  lemma {:induction false} RemoveDeletes(services: seq<Service>, id: string)
    requires DistinctIds(services)
    ensures Lookup(Remove(services, id), id).None?
    ensures DistinctIds(Remove(services, id))
    decreases |services|
  {
    if |services| > 0 {
      if services[0].id == id {
        assert forall i :: 0 <= i < |services[1..]| ==> services[1..][i].id == services[i + 1].id != id;
      } else {
        RemoveDeletes(services[1..], id);
        var r := Remove(services, id);
        forall j | 1 <= j < |r| ensures r[0].id != r[j].id {
          RemoveMembers(services[1..], id, r[j]);
          var k :| 0 <= k < |services[1..]| && services[1..][k] == r[j];
          assert services[k + 1] == r[j];
        }
      }
    }
  }

  lemma {:induction false} RemoveMembers(services: seq<Service>, id: string, x: Service)
    requires x in Remove(services, id)
    ensures x in services
    decreases |services|
  {
    if |services| > 0 && services[0].id != id && x != services[0] {
      RemoveMembers(services[1..], id, x);
    }
  }

  /** Adding a new service and removing it again gives back the configuration. */
  lemma {:induction false} PutThenRemove(services: seq<Service>, id: string, e: ServiceEntry)
    requires Lookup(services, id).None?
    ensures Remove(Put(services, id, e), id) == services
    decreases |services|
  {
    if |services| > 0 {
      PutThenRemove(services[1..], id, e);
    }
  }

  /** The entry every newly added service gets. */
  function AddedEntry(kind: string, settings: Settings): (e: ServiceEntry)
    ensures e.kind == kind && e.settings == settings && e.enabled
  {
    ServiceEntry(kind, settings, true)
  }

  /** The configuration object; writing it to its file is not part of this model. */
  class ServiceConfig {
    var services: seq<Service>
    var defaultModel: Option<string>

    /** The parsed file, or a clean slate when the file is missing or unreadable (`None`). */
    constructor(stored: Option<StoredConfig>)
      ensures stored.None? ==> services == [] && defaultModel.None?
      ensures stored.Some? ==> services == stored.value.services && defaultModel == stored.value.defaultModel
    {
      match stored
      case None =>
        services := [];
        defaultModel := None;
      case Some(c) =>
        services := c.services;
        defaultModel := c.defaultModel;
    }

    method AddService(id: string, kind: string, settings: Settings)
      modifies this`services
      ensures services == Put(old(services), id, AddedEntry(kind, settings))
    {
      services := Put(services, id, AddedEntry(kind, settings));
    }

    method RemoveService(id: string)
      modifies this`services
      ensures services == Remove(old(services), id)
    {
      if Lookup(services, id).Some? {
        services := Remove(services, id);
      }
    }

    function GetServices(): (r: seq<Service>)
      reads this
      ensures r == services
    {
      services
    }

    method SetDefaultModel(model: string)
      modifies this`defaultModel
      ensures defaultModel == Some(model)
      ensures GetDefaultModel() == Some(model)
    {
      defaultModel := Some(model);
    }

    function GetDefaultModel(): (r: Option<string>)
      reads this
      ensures r == defaultModel
    {
      defaultModel
    }
  }

  // ---------------------------------------------------------------------
  // Clients and the model map

  datatype Client = OllamaClient(host: string) | OpenAIClient(apiKey: Option<string>, baseUrl: Option<string>)

  /**
   * The client `_initialize_services` builds for an entry: none for a
   * disabled entry, for an unknown type, or for an Ollama entry without a
   * host (the lookup fails and the error is only logged).
   */
  function ClientFor(e: ServiceEntry): (r: Option<Client>)
    ensures r.Some? ==> e.enabled && (e.kind == "ollama" || e.kind == "openai")
    ensures r.Some? <==> e.enabled && ((e.kind == "ollama" && "host" in e.settings.fields) || e.kind == "openai")
  {
    if !e.enabled then None
    else if e.kind == "ollama" then
      if "host" in e.settings.fields then Some(OllamaClient(e.settings.fields["host"])) else None
    else if e.kind == "openai" then
      Some(OpenAIClient(OptionalField(e.settings, "api_key"), OptionalField(e.settings, "base_url")))
    else None
  }

  function OptionalField(settings: Settings, key: string): Option<string> {
    if key in settings.fields then Some(settings.fields[key]) else None
  }

  /** The clients, by service id, after the loop over the configured services. */
  function ClientsOf(services: seq<Service>): map<string, Client>
    decreases |services|
  {
    if |services| == 0 then map[]
    else
      var last := services[|services| - 1];
      var init := ClientsOf(services[..|services| - 1]);
      match ClientFor(last.entry)
      case Some(c) => init[last.id := c]
      case None => init
  }

  /** A service has a client exactly when its entry gets one, and it is that client. */
  lemma {:induction false} ClientsOfMeaning(services: seq<Service>, id: string)
    requires DistinctIds(services)
    ensures id in ClientsOf(services) <==> Lookup(services, id).Some? && ClientFor(Lookup(services, id).value).Some?
    ensures id in ClientsOf(services) ==> ClientsOf(services)[id] == ClientFor(Lookup(services, id).value).value
    decreases |services|
  {
    if |services| > 0 {
      var init := services[..|services| - 1];
      var last := services[|services| - 1];
      ClientsOfMeaning(init, id);
      LookupInitLast(services, id);
    }
  }

  /** `Lookup` on a sequence with distinct ids splits into the last element and the rest. */
  lemma {:induction false} LookupInitLast(services: seq<Service>, id: string)
    requires |services| > 0 && DistinctIds(services)
    ensures var init, last := services[..|services| - 1], services[|services| - 1];
      DistinctIds(init)
      && (last.id == id ==> Lookup(services, id) == Some(last.entry) && Lookup(init, id).None?)
      && (last.id != id ==> Lookup(services, id) == Lookup(init, id))
    decreases |services|
  {
    var init, last := services[..|services| - 1], services[|services| - 1];
    assert forall i :: 0 <= i < |init| ==> init[i] == services[i];
    if |services| > 1 {
      var tail := services[1..];
      assert DistinctIds(tail) by {
        forall i, j | 0 <= i < j < |tail| ensures tail[i].id != tail[j].id {
          assert tail[i] == services[i + 1] && tail[j] == services[j + 1];
        }
      }
      LookupInitLast(tail, id);
      assert tail[..|tail| - 1] == init[1..];
      assert tail[|tail| - 1] == last;
    }
  }

  /** `model.split(':')[0]`: the name without its tag. */
  function CleanName(model: string): (r: string)
    ensures r <= model && ':' !in r
  {
    var r := BeforeFirst(model, ":");
    forall i | 0 <= i < |r| ensures r[i] != ':' {
      assert !OccursAt(model, ":", i);
      assert model[i..i + 1] == [r[i]];
    }
    r
  }

  /** `model` and its clean name, both mapped to `id`, for each model in turn. */
  function ModelKeys(mapping: map<string, string>, models: seq<string>, id: string): (r: map<string, string>)
    ensures mapping.Keys <= r.Keys
    decreases |models|
  {
    if |models| == 0 then mapping
    else
      var last := models[|models| - 1];
      ModelKeys(mapping, models[..|models| - 1], id)[last := id][CleanName(last) := id]
  }

  /** The model map after `_update_model_mapping`'s loop over the configured services. */
  function MappingOf(services: seq<Service>): map<string, string>
    decreases |services|
  {
    if |services| == 0 then map[]
    else
      var last := services[|services| - 1];
      var init := MappingOf(services[..|services| - 1]);
      if last.entry.enabled then ModelKeys(init, last.entry.settings.models, last.id) else init
  }

  /** `k` is one of the service's configured models, or the clean name of one. */
  predicate Names(s: Service, k: string) {
    exists m :: m in s.entry.settings.models && (k == m || k == CleanName(m))
  }

  /** The service at `i` is enabled and names `k`, and no later enabled service does. */
  predicate LastClaim(services: seq<Service>, k: string, i: nat) {
    i < |services| && services[i].entry.enabled && Names(services[i], k)
    && forall j :: i < j < |services| ==> !(services[j].entry.enabled && Names(services[j], k))
  }

  lemma {:induction false} ModelKeysMeaning(mapping: map<string, string>, models: seq<string>, id: string, k: string)
    ensures k in ModelKeys(mapping, models, id) <==>
      k in mapping || exists m :: m in models && (k == m || k == CleanName(m))
    ensures (exists m :: m in models && (k == m || k == CleanName(m))) ==> ModelKeys(mapping, models, id)[k] == id
    ensures !(exists m :: m in models && (k == m || k == CleanName(m))) && k in mapping ==> ModelKeys(mapping, models, id)[k] == mapping[k]
    decreases |models|
  {
    if |models| > 0 {
      var init := models[..|models| - 1];
      var last := models[|models| - 1];
      ModelKeysMeaning(mapping, init, id, k);
      assert models == init + [last];
      assert forall m :: m in models <==> m in init || m == last;
    }
  }

  /**
   * Every key of the model map is named by an enabled service, and maps to
   * the last enabled service that names it; disabled services contribute
   * nothing.
   */
  lemma {:induction false} MappingSound(services: seq<Service>, k: string)
    requires k in MappingOf(services)
    ensures exists i: nat :: LastClaim(services, k, i) && MappingOf(services)[k] == services[i].id
    decreases |services|
  {
    var init := services[..|services| - 1];
    var last := services[|services| - 1];
    assert forall j :: 0 <= j < |init| ==> init[j] == services[j];
    if last.entry.enabled && Names(last, k) {
      var m :| m in last.entry.settings.models && (k == m || k == CleanName(m));
      ModelKeysMeaning(MappingOf(init), last.entry.settings.models, last.id, k);
      assert LastClaim(services, k, |services| - 1);
    } else {
      if last.entry.enabled {
        ModelKeysMeaning(MappingOf(init), last.entry.settings.models, last.id, k);
      }
      MappingSound(init, k);
      var i: nat :| LastClaim(init, k, i) && MappingOf(init)[k] == init[i].id;
      assert LastClaim(services, k, i);
    }
  }

  /** Every model of an enabled service, and its clean name, is a key of the map. */
  lemma {:induction false} MappingComplete(services: seq<Service>, i: nat, m: string)
    requires i < |services| && services[i].entry.enabled && m in services[i].entry.settings.models
    ensures m in MappingOf(services) && CleanName(m) in MappingOf(services)
    decreases |services|
  {
    var init := services[..|services| - 1];
    var last := services[|services| - 1];
    if last.entry.enabled {
      ModelKeysMeaning(MappingOf(init), last.entry.settings.models, last.id, m);
      ModelKeysMeaning(MappingOf(init), last.entry.settings.models, last.id, CleanName(m));
    }
    if i < |services| - 1 {
      assert init[i] == services[i];
      MappingComplete(init, i, m);
    }
  }

  /** With every service disabled the map is empty. */
  lemma {:induction false} AllDisabledMapsNothing(services: seq<Service>)
    requires forall i :: 0 <= i < |services| ==> !services[i].entry.enabled
    ensures MappingOf(services) == map[]
  {
    if MappingOf(services) != map[] {
      var k :| k in MappingOf(services);
      MappingSound(services, k);
    }
  }

  // ---------------------------------------------------------------------
  // Routing a chat

  const NoModelMessage := "No model specified and no default model configured"

  function UnavailableMessage(model: string): string {
    "Model '" + model + "' not available in any configured service"
  }

  datatype Routing = NoModel | Unavailable(model: string) | RoutedTo(serviceId: string, model: string)

  /**
   * `stream_chat`'s choice: the given model, or else the default; it goes to
   * the service the map names when that id is non-empty and has a client.
   */
  function RouteChat(model: Option<string>, defaultModel: Option<string>, mapping: map<string, string>, clients: map<string, Client>): (r: Routing)
    ensures r == NoModel <==> model.None? && defaultModel.None?
    ensures r.RoutedTo? ==> (r.model == model.GetOr(defaultModel.GetOr(""))
      && r.model in mapping && r.serviceId == mapping[r.model] && r.serviceId != "" && r.serviceId in clients)
    ensures r.Unavailable? ==> (r.model == model.GetOr(defaultModel.GetOr(""))
      && !(r.model in mapping && mapping[r.model] != "" && mapping[r.model] in clients))
  {
    if model.None? && defaultModel.None? then NoModel
    else
      var m := if model.Some? then model.value else defaultModel.value;
      if m in mapping && mapping[m] != "" && mapping[m] in clients then RoutedTo(mapping[m], m)
      else Unavailable(m)
  }

  /** What the chat generator yields: one error, or what the chosen service yields. */
  datatype ChatChunk<C> = ErrorChunk(message: string) | ServiceChunk(chunk: C)

  function ChatStream<C>(r: Routing, fromService: seq<C>): (events: seq<ChatChunk<C>>)
    ensures r.NoModel? ==> events == [ErrorChunk(NoModelMessage)]
    ensures r.Unavailable? ==> events == [ErrorChunk(UnavailableMessage(r.model))]
    ensures r.RoutedTo? ==> |events| == |fromService| && forall i :: 0 <= i < |events| ==> events[i] == ServiceChunk(fromService[i])
  {
    match r
    case NoModel => [ErrorChunk(NoModelMessage)]
    case Unavailable(m) => [ErrorChunk(UnavailableMessage(m))]
    case RoutedTo(_, _) => seq(|fromService|, i requires 0 <= i < |fromService| => ServiceChunk(fromService[i]))
  }

  // ---------------------------------------------------------------------
  // Reporting services and models

  /** The answer of an Ollama availability probe: up, down, or an exception's text. */
  datatype Probe = Up | Down | Failed(message: string)

  datatype ServiceReport = ServiceReport(
    id: string, kind: string, name: string, enabled: bool, available: bool,
    models: seq<string>, status: string, config: Settings)

  datatype ModelEntry = ModelEntry(
    id: string, name: string, provider: string, service: string, serviceType: string,
    available: bool, isDefault: bool)

  datatype ModelsInfo = ModelsInfo(defaultModel: Option<string>, services: seq<ServiceReport>, allModels: seq<ModelEntry>)

  function FieldOr(settings: Settings, key: string, default: string): string {
    if key in settings.fields then settings.fields[key] else default
  }

  /** The service's settings without its API key. */
  function Redacted(settings: Settings): (r: Settings)
    ensures "api_key" !in r.fields && r.models == settings.models
    ensures forall k :: k != "api_key" ==> (k in r.fields <==> k in settings.fields)
  {
    Settings(map k | k in settings.fields && k != "api_key" :: settings.fields[k], settings.models)
  }

  /** A running service is one that is enabled and has a client. */
  predicate Running(s: Service, clients: map<string, Client>) {
    s.entry.enabled && s.id in clients
  }

  /** Whether the models of a running service are listed as available. */
  predicate ModelsUp(s: Service, probe: Probe) {
    s.entry.kind != "ollama" || probe == Up
  }

  function ReportOf(s: Service, clients: map<string, Client>, probe: Probe): (r: ServiceReport)
    ensures r.id == s.id && r.kind == s.entry.kind && r.enabled == s.entry.enabled
    ensures r.available <==> Running(s, clients) && ModelsUp(s, probe)
    ensures r.models == if Running(s, clients) then s.entry.settings.models else []
  {
    var e := s.entry;
    var base := ServiceReport(s.id, e.kind, FieldOr(e.settings, "name", s.id), e.enabled, false, [], "offline", Redacted(e.settings));
    if !Running(s, clients) then base
    else if e.kind == "ollama" then
      match probe
      case Up => base.(available := true, status := "online", models := e.settings.models)
      case Down => base.(models := e.settings.models)
      case Failed(msg) => base.(status := "error: " + msg, models := e.settings.models)
    else base.(available := true, status := "configured", models := e.settings.models)
  }

  function EntriesOf(s: Service, clients: map<string, Client>, probe: Probe, defaultModel: Option<string>): (r: seq<ModelEntry>)
    ensures !Running(s, clients) ==> r == []
  {
    var e := s.entry;
    var models := e.settings.models;
    if !Running(s, clients) then []
    else
      seq(|models|, j requires 0 <= j < |models| =>
        ModelEntry(models[j], models[j], FieldOr(e.settings, "name", PyTitle(e.kind)), s.id, e.kind,
          ModelsUp(s, probe), Some(models[j]) == defaultModel))
  }

  function ReportsOf(services: seq<Service>, clients: map<string, Client>, probe: string -> Probe): (r: seq<ServiceReport>)
    ensures |r| == |services|
    ensures forall i :: 0 <= i < |r| ==> r[i] == ReportOf(services[i], clients, probe(services[i].id))
  {
    seq(|services|, i requires 0 <= i < |services| => ReportOf(services[i], clients, probe(services[i].id)))
  }

  function AllModelsOf(services: seq<Service>, clients: map<string, Client>, probe: string -> Probe, defaultModel: Option<string>): seq<ModelEntry>
    decreases |services|
  {
    if |services| == 0 then []
    else
      var last := services[|services| - 1];
      AllModelsOf(services[..|services| - 1], clients, probe, defaultModel) + EntriesOf(last, clients, probe(last.id), defaultModel)
  }

  /** `get_available_models`, with `probe` answering for each Ollama service. */
  function ModelsInfoOf(services: seq<Service>, clients: map<string, Client>, probe: string -> Probe, defaultModel: Option<string>): ModelsInfo {
    ModelsInfo(defaultModel, ReportsOf(services, clients, probe), AllModelsOf(services, clients, probe, defaultModel))
  }

  /**
   * No report shows an API key; a service that is not running is offline,
   * unavailable and lists no models; a running non-Ollama service is
   * "configured" and available with its configured models.
   */
  lemma ReportRules(s: Service, clients: map<string, Client>, probe: Probe)
    ensures var r := ReportOf(s, clients, probe);
      "api_key" !in r.config.fields && r.id == s.id
      && (!Running(s, clients) ==> r.status == "offline" && !r.available && r.models == [])
      && (Running(s, clients) && s.entry.kind != "ollama" ==> r.status == "configured" && r.available && r.models == s.entry.settings.models)
      && (Running(s, clients) && s.entry.kind == "ollama" ==> r.models == s.entry.settings.models && (r.available <==> probe == Up))
      && (r.available <==> Running(s, clients) && ModelsUp(s, probe))
  {
  }

  /** An entry of the model list whose service and availability are accounted for. */
  predicate EntryFrom(services: seq<Service>, clients: map<string, Client>, probe: string -> Probe, defaultModel: Option<string>, e: ModelEntry) {
    e.isDefault == (Some(e.id) == defaultModel)
    && exists i :: (0 <= i < |services| && Running(services[i], clients) && services[i].id == e.service
      && e.id in services[i].entry.settings.models && e.available == ModelsUp(services[i], probe(services[i].id)))
  }

  /**
   * Every listed model is a configured model of a running service, is
   * available exactly when that service's models are, and is the default
   * exactly when it equals the default model.
   */
  lemma {:induction false} AllModelsMeaning(services: seq<Service>, clients: map<string, Client>, probe: string -> Probe, defaultModel: Option<string>)
    ensures forall e :: e in AllModelsOf(services, clients, probe, defaultModel) ==> EntryFrom(services, clients, probe, defaultModel, e)
    decreases |services|
  {
    if |services| > 0 {
      var init := services[..|services| - 1];
      var last := services[|services| - 1];
      AllModelsMeaning(init, clients, probe, defaultModel);
      forall e | e in AllModelsOf(services, clients, probe, defaultModel) ensures EntryFrom(services, clients, probe, defaultModel, e) {
        if e in AllModelsOf(init, clients, probe, defaultModel) {
          assert EntryFrom(init, clients, probe, defaultModel, e);
          var i :| 0 <= i < |init| && Running(init[i], clients) && init[i].id == e.service
            && e.id in init[i].entry.settings.models && e.available == ModelsUp(init[i], probe(init[i].id));
          assert init[i] == services[i];
        } else {
          var es := EntriesOf(last, clients, probe(last.id), defaultModel);
          var j :| 0 <= j < |es| && es[j] == e;
          assert e.id == last.entry.settings.models[j];
          assert services[|services| - 1] == last;
        }
      }
    }
  }

  /** The clean name of a listed model, or the model itself, matches `model`. */
  function ListedAs(model: string): ModelEntry -> bool {
    (e: ModelEntry) => e.id == model || CleanName(e.id) == model
  }

  /** `is_model_available`: the flag of the first listed model that matches, else false. */
  function ModelAvailable(allModels: seq<ModelEntry>, model: string): (b: bool)
    ensures b ==> exists i :: 0 <= i < |allModels| && ListedAs(model)(allModels[i]) && allModels[i].available
    ensures (forall i :: 0 <= i < |allModels| ==> !ListedAs(model)(allModels[i])) ==> !b
  {
    match FirstIndex(allModels, ListedAs(model))
    case None => false
    case Some(i) => allModels[i].available
  }

  /** The loop of `is_model_available` over the listed models. */
  method AvailableIn(allModels: seq<ModelEntry>, model: string) returns (b: bool)
    ensures b == ModelAvailable(allModels, model)
  {
    for i := 0 to |allModels|
      invariant forall j :: 0 <= j < i ==> !ListedAs(model)(allModels[j])
    {
      if allModels[i].id == model || CleanName(allModels[i].id) == model {
        assert ListedAs(model)(allModels[i]);
        return allModels[i].available;
      }
    }
    return false;
  }

  // ---------------------------------------------------------------------
  // The manager

  datatype ManagerReply =
    | ServiceAdded(serviceId: string, available: bool, models: seq<string>)
    | ServiceRemoved
    | DefaultSet(model: string)
    | Refused(error: string)

  function UnknownTypeMessage(kind: string): string {
    "Unknown service type: " + kind
  }

  function NotAvailableMessage(model: string): string {
    "Model '" + model + "' is not available"
  }

  class LLMManager {
    const serviceConfig: ServiceConfig
    var services: map<string, Client>
    var modelMapping: map<string, string>

    /** The clients and the map are those of the current configuration, whose ids are distinct. */
    predicate Valid()
      reads this, serviceConfig
    {
      DistinctIds(serviceConfig.services)
      && services == ClientsOf(serviceConfig.services)
      && modelMapping == MappingOf(serviceConfig.services)
    }

    constructor(stored: Option<StoredConfig>)
      requires stored.Some? ==> DistinctIds(stored.value.services)
      ensures fresh(serviceConfig)
      ensures stored.None? ==> serviceConfig.services == [] && serviceConfig.defaultModel.None?
      ensures stored.Some? ==> serviceConfig.services == stored.value.services && serviceConfig.defaultModel == stored.value.defaultModel
      ensures Valid()
    {
      serviceConfig := new ServiceConfig(stored);
      services := map[];
      modelMapping := map[];
      new;
      InitializeServices();
      UpdateModelMapping();
    }

    /** `_initialize_services`: rebuilt from the configuration, one client per running service. */
    method InitializeServices()
      modifies this`services
      ensures services == ClientsOf(serviceConfig.services)
    {
      var configured := serviceConfig.GetServices();
      var clients: map<string, Client> := map[];
      for i := 0 to |configured|
        invariant clients == ClientsOf(configured[..i])
      {
        var s := configured[i];
        assert configured[..i + 1][..i] == configured[..i];
        if s.entry.enabled {
          if s.entry.kind == "ollama" {
            if "host" in s.entry.settings.fields {
              clients := clients[s.id := OllamaClient(s.entry.settings.fields["host"])];
            }
          } else if s.entry.kind == "openai" {
            clients := clients[s.id := OpenAIClient(OptionalField(s.entry.settings, "api_key"), OptionalField(s.entry.settings, "base_url"))];
          }
        }
      }
      assert configured[..|configured|] == configured;
      services := clients;
    }

    /** `_update_model_mapping`: rebuilt from the configuration. */
    method UpdateModelMapping()
      modifies this`modelMapping
      ensures modelMapping == MappingOf(serviceConfig.services)
    {
      var configured := serviceConfig.GetServices();
      var mapping: map<string, string> := map[];
      for i := 0 to |configured|
        invariant mapping == MappingOf(configured[..i])
      {
        var s := configured[i];
        assert configured[..i + 1][..i] == configured[..i];
        if s.entry.enabled {
          var models := s.entry.settings.models;
          ghost var before := mapping;
          for j := 0 to |models|
            invariant mapping == ModelKeys(before, models[..j], s.id)
          {
            assert models[..j + 1][..j] == models[..j];
            var clean := CleanName(models[j]);
            mapping := mapping[models[j] := s.id];
            mapping := mapping[clean := s.id];
          }
          assert models[..|models|] == models;
        }
      }
      assert configured[..|configured|] == configured;
      modelMapping := mapping;
    }

    /** Where `stream_chat` sends a chat. */
    function Routing(model: Option<string>): (r: Routing)
      reads this, serviceConfig
      ensures r == RouteChat(model, serviceConfig.defaultModel, modelMapping, services)
    {
      RouteChat(model, serviceConfig.defaultModel, modelMapping, services)
    }

    method GetAvailableModels(probe: string -> Probe) returns (info: ModelsInfo)
      ensures info == ModelsInfoOf(serviceConfig.services, services, probe, serviceConfig.defaultModel)
    {
      var configured := serviceConfig.GetServices();
      var defaultModel := serviceConfig.GetDefaultModel();
      var reports: seq<ServiceReport> := [];
      var all: seq<ModelEntry> := [];
      for i := 0 to |configured|
        invariant reports == ReportsOf(configured[..i], services, probe)
        invariant all == AllModelsOf(configured[..i], services, probe, defaultModel)
      {
        var s := configured[i];
        assert configured[..i + 1][..i] == configured[..i];
        var entries := EntriesOf(s, services, probe(s.id), defaultModel);
        all := all + entries;
        reports := reports + [ReportOf(s, services, probe(s.id))];
      }
      assert configured[..|configured|] == configured;
      info := ModelsInfo(defaultModel, reports, all);
    }

    method IsModelAvailable(probe: string -> Probe, model: string) returns (b: bool)
      ensures b == ModelAvailable(ModelsInfoOf(serviceConfig.services, services, probe, serviceConfig.defaultModel).allModels, model)
    {
      var info := GetAvailableModels(probe);
      b := AvailableIn(info.allModels, model);
    }

    /** `set_default_model`: the default changes only to an available model. */
    method SetDefaultModel(probe: string -> Probe, model: string) returns (reply: ManagerReply)
      modifies serviceConfig`defaultModel
      ensures var ok := ModelAvailable(ModelsInfoOf(old(serviceConfig.services), services, probe, old(serviceConfig.defaultModel)).allModels, model);
        (ok ==> reply == DefaultSet(model) && serviceConfig.defaultModel == Some(model))
        && (!ok ==> reply == Refused(NotAvailableMessage(model)) && serviceConfig.defaultModel == old(serviceConfig.defaultModel))
    {
      var ok := IsModelAvailable(probe, model);
      if ok {
        serviceConfig.SetDefaultModel(model);
        reply := DefaultSet(model);
      } else {
        reply := Refused(NotAvailableMessage(model));
      }
    }

    /**
     * `add_service`. `reachable` is the test client's answer and `listed` the
     * models an Ollama server lists. An unknown type is refused, and so is an
     * Ollama entry without a host (its lookup raises), before anything is saved.
     */
    method AddService(id: string, kind: string, settings: Settings, reachable: bool, listed: seq<string>) returns (reply: ManagerReply)
      requires Valid()
      modifies this, serviceConfig
      ensures Valid()
      ensures kind != "ollama" && kind != "openai" ==>
        reply == Refused(UnknownTypeMessage(kind)) && serviceConfig.services == old(serviceConfig.services)
      ensures kind == "ollama" && "host" !in settings.fields ==>
        reply == Refused("'host'") && serviceConfig.services == old(serviceConfig.services)
      ensures (kind == "openai" || (kind == "ollama" && "host" in settings.fields)) ==>
        serviceConfig.services == Put(old(serviceConfig.services), id, AddedEntry(kind, settings))
        && reply == ServiceAdded(id, reachable, if kind == "openai" then settings.models else if reachable then listed else [])
      ensures serviceConfig.defaultModel == old(serviceConfig.defaultModel)
    {
      var models: seq<string>;
      if kind == "ollama" {
        if "host" !in settings.fields {
          return Refused("'host'");
        }
        models := if reachable then listed else [];
      } else if kind == "openai" {
        models := settings.models;
      } else {
        return Refused(UnknownTypeMessage(kind));
      }
      PutKeepsDistinct(serviceConfig.services, id, AddedEntry(kind, settings));
      serviceConfig.AddService(id, kind, settings);
      InitializeServices();
      UpdateModelMapping();
      reply := ServiceAdded(id, reachable, models);
    }

    method RemoveService(id: string) returns (reply: ManagerReply)
      requires Valid()
      modifies this, serviceConfig
      ensures Valid()
      ensures serviceConfig.services == Remove(old(serviceConfig.services), id)
      ensures Lookup(serviceConfig.services, id).None?
      ensures reply == ServiceRemoved
      ensures serviceConfig.defaultModel == old(serviceConfig.defaultModel)
    {
      RemoveDeletes(serviceConfig.services, id);
      serviceConfig.RemoveService(id);
      InitializeServices();
      UpdateModelMapping();
      reply := ServiceRemoved;
    }
  }

  /**
   * A chat is routed only to a running service that names its model: the
   * last enabled one that does.
   */
  lemma RoutedToRunningService(config: StoredConfig, clients: map<string, Client>, mapping: map<string, string>, model: Option<string>)
    requires DistinctIds(config.services)
    requires clients == ClientsOf(config.services) && mapping == MappingOf(config.services)
    requires RouteChat(model, config.defaultModel, mapping, clients).RoutedTo?
    ensures var r := RouteChat(model, config.defaultModel, mapping, clients);
      exists i: nat :: LastClaim(config.services, r.model, i) && config.services[i].id == r.serviceId
        && ClientFor(config.services[i].entry).Some?
  {
    var r := RouteChat(model, config.defaultModel, mapping, clients);
    MappingSound(config.services, r.model);
    var i: nat :| LastClaim(config.services, r.model, i) && mapping[r.model] == config.services[i].id;
    ClientsOfMeaning(config.services, r.serviceId);
    assert config.services[i] == Service(r.serviceId, config.services[i].entry);
    DistinctLookup(config.services, i);
  }

  lemma DistinctLookup(services: seq<Service>, i: nat)
    requires DistinctIds(services) && i < |services|
    ensures Lookup(services, services[i].id) == Some(services[i].entry)
  {
    var r := Lookup(services, services[i].id);
    var k :| 0 <= k < |services| && services[k] == Service(services[i].id, r.value);
  }
}
