/**
 * The server's model manager: per-model settings, memoised warm-up and the
 * keep-alive stop rule. Times are integer nanoseconds since an arbitrary
 * origin, given as inputs; HTTP requests are replaced by their outcomes.
 */
module ModelManagement {
  import opened Wrappers
  import opened Text
  import opened FastOllama

  /** `5 * time.Minute`, in nanoseconds. */
  const IdleLimit: int := 300_000_000_000

  datatype ModelState = ModelState(name: string, lastUsed: int, warmupStatus: bool)

  /** What came of the warm-up request. */
  datatype WarmupReply =
    | BadRequest(err: string)      // http.NewRequest failed
    | TransportError(err: string)  // client.Do failed
    | Status(code: nat)            // a response with this status code

  /** The models given four threads instead of eight. */
  const SmallModels: set<string> := {"qwen2.5:3b", "phi3:mini", "smollm2:135m", "gemma3:270m"}
  /** The models given `num_gpu`. */
  const GpuModels: set<string> := {"qwen2.5:3b", "phi3:mini", "gemma3:270m"}
  /** The keys every settings map holds. */
  const CommonKeys: set<string> := {"num_thread", "num_batch", "repeat_penalty", "temperature", "num_ctx"}

  /** The `num_ctx` each case of the switch picks. */
  function ContextSize(model: string): (n: int)
    ensures n in {1024, 1536, 2048, 4096}
    ensures n == 4096 <==> model !in SmallModels
  {
    if model == "qwen2.5:3b" || model == "phi3:mini" then 2048
    else if model == "smollm2:135m" then 1024
    else if model == "gemma3:270m" then 1536
    else 4096
  }

  /** The settings map `GetOptimizedSettings` builds for this model, key by key. */
  predicate OptimizedSettings(model: string, settings: map<string, OptionValue>) {
    && settings.Keys == CommonKeys + (if model in GpuModels then {"num_gpu"} else {})
    && settings["num_batch"] == IntValue(512)
    && settings["repeat_penalty"] == RealValue(1.1) && settings["temperature"] == RealValue(0.7)
    && settings["num_thread"] == IntValue(if model in SmallModels then 4 else 8)
    && settings["num_ctx"] == IntValue(ContextSize(model))
    && ("num_gpu" in settings ==> settings["num_gpu"] == IntValue(1))
  }

  /** `GetOptimizedSettings`: a fresh map, filled by assignment. */
  method GetOptimizedSettings(model: string) returns (settings: map<string, OptionValue>)
    ensures OptimizedSettings(model, settings)
  {
    settings := map["num_thread" := IntValue(8), "num_batch" := IntValue(512),
                    "repeat_penalty" := RealValue(1.1), "temperature" := RealValue(0.7)];
    if model == "qwen2.5:3b" || model == "phi3:mini" {
      settings := settings["num_ctx" := IntValue(2048)];
      settings := settings["num_gpu" := IntValue(1)];
      settings := settings["num_thread" := IntValue(4)];
    } else if model == "smollm2:135m" {
      settings := settings["num_ctx" := IntValue(1024)];
      settings := settings["num_thread" := IntValue(4)];
    } else if model == "gemma3:270m" {
      settings := settings["num_ctx" := IntValue(1536)];
      settings := settings["num_thread" := IntValue(4)];
      settings := settings["num_gpu" := IntValue(1)];
    } else {
      settings := settings["num_ctx" := IntValue(4096)];
    }
  }

  /** The small models and only they get four threads and a context under 4096. */
  lemma SmallModelsGetLessContext(model: string)
    ensures ContextSize(model) < 4096 <==> model in SmallModels
    ensures model in GpuModels ==> model in SmallModels && ContextSize(model) >= 1536
  {
  }

  class OllamaManager {
    var activeModels: map<string, ModelState>
    var warmupDone: map<string, bool>
    const baseURL: string

    /**
     * Every active model is recorded under its own name and marked warmed
     * up, and every model warmed up is active.
     */
    predicate Valid()
      reads this
    {
      && (forall m :: m in activeModels ==> activeModels[m].name == m && activeModels[m].warmupStatus)
      && (forall m :: m in warmupDone && warmupDone[m] ==> m in activeModels)
    }

    /** `warmupDone[model]`, with Go's zero value for a missing key. */
    predicate IsWarm(model: string)
      reads this
    {
      model in warmupDone && warmupDone[model]
    }

    /**
     * The keep-alive loop stops at time `now` exactly when the model has
     * no state or has been idle for more than five minutes.
     */
    predicate KeepAliveStops(model: string, now: int)
      reads this
    {
      model !in activeModels || now - activeModels[model].lastUsed > IdleLimit
    }

    /** `NewOllamaManager`. */
    constructor (url: string)
      ensures activeModels == map[] && warmupDone == map[] && baseURL == url
      ensures Valid()
    {
      activeModels := map[];
      warmupDone := map[];
      baseURL := url;
    }

    /**
     * `WarmupModel`: nothing is requested for a model already warmed up; a
     * 200 reply marks it warmed up and active at `now`; any failure leaves
     * both maps as they were.
     */
    method WarmupModel(model: string, reply: WarmupReply, now: int) returns (requested: bool, err: Option<string>)
      modifies this
      ensures requested <==> !old(IsWarm(model))
      ensures !requested ==> err.None? && activeModels == old(activeModels) && warmupDone == old(warmupDone)
      ensures requested && reply.BadRequest? ==> err == Some(reply.err)
      ensures requested && reply.TransportError? ==> err == Some(reply.err)
      ensures requested && reply.Status? && reply.code != 200 ==> err == Some("warmup failed: status " + NatToString(reply.code))
      ensures err.Some? ==> activeModels == old(activeModels) && warmupDone == old(warmupDone)
      ensures requested && reply == Status(200) ==>
                err.None?
                && warmupDone == old(warmupDone)[model := true]
                && activeModels == old(activeModels)[model := ModelState(model, now, true)]
      ensures old(Valid()) ==> Valid()
    {
      if IsWarm(model) {
        return false, None;
      }
      requested := true;
      match reply {
        case BadRequest(e) =>
          return requested, Some(e);
        case TransportError(e) =>
          return requested, Some(e);
        case Status(code) =>
          if code != 200 {
            return requested, Some("warmup failed: status " + NatToString(code));
          }
      }
      warmupDone := warmupDone[model := true];
      activeModels := activeModels[model := ModelState(model, now, true)];
      err := None;
    }

    /** `UpdateLastUsed`: only an existing entry's `lastUsed` changes. */
    method UpdateLastUsed(model: string, now: int)
      modifies this
      ensures warmupDone == old(warmupDone)
      ensures model !in old(activeModels) ==> activeModels == old(activeModels)
      ensures model in old(activeModels) ==>
                activeModels == old(activeModels)[model := old(activeModels)[model].(lastUsed := now)]
      ensures old(Valid()) ==> Valid()
    {
      if model in activeModels {
        var state := activeModels[model];
        activeModels := activeModels[model := state.(lastUsed := now)];
      }
    }

    /**
     * The `KeepAlive` loop over the given tick times: one keep-alive
     * request per tick until the first tick at which it stops.
     */
    method KeepAlive(model: string, ticks: seq<int>) returns (requests: nat)
      ensures requests <= |ticks|
      ensures forall k :: 0 <= k < requests ==> !KeepAliveStops(model, ticks[k])
      ensures requests < |ticks| ==> KeepAliveStops(model, ticks[requests])
    {
      requests := 0;
      for i := 0 to |ticks|
        invariant requests == i
        invariant forall k :: 0 <= k < i ==> !KeepAliveStops(model, ticks[k])
      {
        if KeepAliveStops(model, ticks[i]) {
          return;
        }
        requests := requests + 1;
      }
    }
  }

  /** A model being used keeps its keep-alive loop running for five minutes. */
  lemma JustUsedKeepsAlive(m: OllamaManager, model: string, now: int, later: int)
    requires model in m.activeModels && m.activeModels[model].lastUsed == now
    requires now <= later <= now + IdleLimit
    ensures !m.KeepAliveStops(model, later)
  {
  }
}
