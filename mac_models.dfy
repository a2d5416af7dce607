/**
 * The macOS app's model catalogue (`ModelManager`): the built-in list, the
 * merge with what the server reports, marking a download, the selected
 * model and its persistence, and the name lookups. Ollama's readiness and
 * the stored selection are inputs; the download itself is not modelled.
 */
module ModelCatalog {
  import opened Wrappers

  datatype AIModel = AIModel(name: string, displayName: string, size: string, description: string,
                             isDownloaded: bool, isPro: bool)

  const DefaultSelection: string := "qwen3:4b"
  const SelectionKey: string := "selectedModel"
  const NotAvailable: string := "Ollama is not available. Please install and start Ollama."
  const GenericDescription: string := "AI language model"

  /** `loadDefaultModels`: none downloaded, none Pro. */
  const DefaultModels: seq<AIModel> := [
    AIModel("gemma3:270m", "Gemma 3 270M", "165MB", "Google's ultra-compact model", false, false),
    AIModel("smollm2:135m", "SmolLM2 135M", "77MB", "Ultra-lightweight model", false, false),
    AIModel("qwen3:1.7b", "Qwen3 1.7B", "1.0GB", "Small Qwen3 model", false, false),
    AIModel("qwen3:0.6b", "Qwen3 0.6B", "400MB", "Ultra-compact Qwen3 model", false, false),
    AIModel("qwen3:4b", "Qwen3 4B", "2.4GB", "Efficient Qwen3 model", false, false),
    AIModel("qwen3:8b", "Qwen3 8B", "4.7GB", "Balanced Qwen3 model", false, false),
    AIModel("qwen3:14b", "Qwen3 14B", "8.2GB", "Powerful Qwen3 model", false, false),
    AIModel("qwen3:32b", "Qwen3 32B", "18GB", "Large Qwen3 model", false, false),
    AIModel("qwen3-coder:30b", "Qwen3 Coder 30B", "17GB", "Most agentic code model in Qwen series", false, false),
    AIModel("gpt-oss:20b", "GPT-OSS 20B", "12GB", "OpenAI's open-weight model for local use", false, false),
    AIModel("gpt-oss:120b", "GPT-OSS 120B", "70GB", "OpenAI's flagship open-weight model", false, false),
    AIModel("mannix/jan-nano", "Jan Nano 32K", "2.4GB", "4B model optimized for deep research (32K context)", false, false),
    AIModel("yasserrmd/jan-nano-4b", "Jan Nano 128K", "2.4GB", "4B model with native 128K context window", false, false),
    AIModel("qwen2.5:3b", "Qwen2.5 3B", "1.9GB", "Fast and efficient for most tasks", false, false),
    AIModel("qwen2.5:7b", "Qwen2.5 7B", "4.4GB", "High-quality Qwen model", false, false),
    AIModel("qwen2.5:14b", "Qwen2.5 14B", "8.2GB", "Powerful Qwen model", false, false),
    AIModel("qwen2.5-coder:7b", "Qwen2.5 Coder 7B", "4.4GB", "Specialized for coding", false, false),
    AIModel("phi3:mini", "Phi3 Mini", "2.2GB", "Microsoft's compact model", false, false),
    AIModel("phi3:medium", "Phi3 Medium", "7.9GB", "Microsoft's balanced model", false, false),
    AIModel("smollm2:360m", "SmolLM2 360M", "200MB", "Lightweight model", false, false),
    AIModel("llama3.2:1b", "Llama 3.2 1B", "1.3GB", "Meta's compact model", false, false),
    AIModel("llama3.2:3b", "Llama 3.2 3B", "2.0GB", "Meta's balanced model", false, false),
    AIModel("llama3.3:70b", "Llama 3.3 70B", "40GB", "Meta's latest flagship model", false, false),
    AIModel("gemma2:2b", "Gemma2 2B", "1.6GB", "Google's efficient model", false, false),
    AIModel("gemma2:9b", "Gemma2 9B", "5.4GB", "Google's powerful model", false, false),
    AIModel("gemma2:27b", "Gemma2 27B", "16GB", "Google's large model", false, false),
    AIModel("mistral:7b", "Mistral 7B", "4.1GB", "High-quality general purpose", false, false),
    AIModel("mistral-nemo:12b", "Mistral Nemo 12B", "7.0GB", "Mistral's latest model", false, false),
    AIModel("codellama:7b", "Code Llama 7B", "3.8GB", "Specialized for coding tasks", false, false),
    AIModel("codellama:13b", "Code Llama 13B", "7.3GB", "Large coding model", false, false),
    AIModel("deepseek-coder:6.7b", "DeepSeek Coder 6.7B", "3.8GB", "Advanced coding model", false, false),
    AIModel("solar:10.7b", "Solar 10.7B", "6.1GB", "High-performance model", false, false),
    AIModel("nous-hermes2:10.7b", "Nous Hermes2 10.7B", "6.1GB", "Fine-tuned assistant model", false, false)
  ]

  const DisplayNames: map<string, string> := map[
    "gemma3:270m" := "Gemma 3 270M",
    "qwen3:0.6b" := "Qwen3 0.6B",
    "qwen3:1.7b" := "Qwen3 1.7B",
    "qwen3:4b" := "Qwen3 4B",
    "qwen3:8b" := "Qwen3 8B",
    "qwen3:14b" := "Qwen3 14B",
    "qwen3:32b" := "Qwen3 32B",
    "qwen3-coder:30b" := "Qwen3 Coder 30B",
    "gpt-oss:20b" := "GPT-OSS 20B",
    "gpt-oss:120b" := "GPT-OSS 120B",
    "mannix/jan-nano" := "Jan Nano 32K",
    "yasserrmd/jan-nano-4b" := "Jan Nano 128K",
    "qwen2.5:3b" := "Qwen2.5 3B",
    "qwen2.5:7b" := "Qwen2.5 7B",
    "qwen2.5:14b" := "Qwen2.5 14B",
    "qwen2.5-coder:7b" := "Qwen2.5 Coder 7B",
    "phi3:mini" := "Phi3 Mini",
    "phi3:medium" := "Phi3 Medium",
    "smollm2:135m" := "SmolLM2 135M",
    "smollm2:360m" := "SmolLM2 360M",
    "smollm2:1.7b" := "SmolLM2 1.7B",
    "llama3.2:1b" := "Llama 3.2 1B",
    "llama3.2:3b" := "Llama 3.2 3B",
    "llama3.3:70b" := "Llama 3.3 70B",
    "gemma2:2b" := "Gemma2 2B",
    "gemma2:9b" := "Gemma2 9B",
    "gemma2:27b" := "Gemma2 27B",
    "mistral:7b" := "Mistral 7B",
    "mistral-nemo:12b" := "Mistral Nemo 12B",
    "codellama:7b" := "Code Llama 7B",
    "codellama:13b" := "Code Llama 13B",
    "deepseek-coder:6.7b" := "DeepSeek Coder 6.7B",
    "solar:10.7b" := "Solar 10.7B",
    "nous-hermes2:10.7b" := "Nous Hermes2 10.7B"
  ]

  const Descriptions: map<string, string> := map[
    "gemma3:270m" := "Google's ultra-compact model",
    "qwen3:0.6b" := "Ultra-compact Qwen3 model",
    "qwen3:1.7b" := "Small Qwen3 model",
    "qwen3:4b" := "Efficient Qwen3 model",
    "qwen3:8b" := "Balanced Qwen3 model",
    "qwen3:14b" := "Powerful Qwen3 model",
    "qwen3:32b" := "Large Qwen3 model",
    "qwen3-coder:30b" := "Most agentic code model in Qwen series",
    "gpt-oss:20b" := "OpenAI's open-weight model for local use",
    "gpt-oss:120b" := "OpenAI's flagship open-weight model",
    "mannix/jan-nano" := "4B model optimized for deep research (32K context)",
    "yasserrmd/jan-nano-4b" := "4B model with native 128K context window",
    "qwen2.5:3b" := "Fast and efficient for most tasks",
    "qwen2.5:7b" := "High-quality Qwen model",
    "qwen2.5:14b" := "Powerful Qwen model",
    "qwen2.5-coder:7b" := "Specialized for coding",
    "phi3:mini" := "Microsoft's compact model",
    "phi3:medium" := "Microsoft's balanced model",
    "smollm2:135m" := "Ultra-lightweight model",
    "smollm2:360m" := "Lightweight model",
    "smollm2:1.7b" := "Small but capable model",
    "llama3.2:1b" := "Meta's compact model",
    "llama3.2:3b" := "Meta's balanced model",
    "llama3.3:70b" := "Meta's latest flagship model",
    "gemma2:2b" := "Google's efficient model",
    "gemma2:9b" := "Google's powerful model",
    "gemma2:27b" := "Google's large model",
    "mistral:7b" := "High-quality general purpose",
    "mistral-nemo:12b" := "Mistral's latest model",
    "codellama:7b" := "Specialized for coding tasks",
    "codellama:13b" := "Large coding model",
    "deepseek-coder:6.7b" := "Advanced coding model",
    "solar:10.7b" := "High-performance model",
    "nous-hermes2:10.7b" := "Fine-tuned assistant model"
  ]

  /** `getDisplayName`: the catalogue's name, else the model's own name. */
  function DisplayName(name: string): (r: string)
    ensures name in DisplayNames ==> r == DisplayNames[name]
    ensures name !in DisplayNames ==> r == name
  {
    if name in DisplayNames then DisplayNames[name] else name
  }

  /** `getDescription`: the catalogue's description, else a generic one. */
  function Description(name: string): (r: string)
    ensures name in Descriptions ==> r == Descriptions[name]
    ensures name !in Descriptions ==> r == GenericDescription
  {
    if name in Descriptions then Descriptions[name] else GenericDescription
  }

  /** `getProStatus`: every model is free to use. */
  function ProStatus(name: string): (r: bool)
    ensures !r
  {
    false
  }

  // ---------------------------------------------------------------------
  // Lookups by name

  predicate HasName(ms: seq<AIModel>, name: string) {
    exists k :: 0 <= k < |ms| && ms[k].name == name
  }

  /** `firstIndex(where: { $0.name == name })`. */
  function FirstIndexByName(ms: seq<AIModel>, name: string): (r: Option<nat>)
    ensures r.Some? ==> r.value < |ms| && ms[r.value].name == name
    ensures r.Some? ==> forall k :: 0 <= k < r.value ==> ms[k].name != name
    ensures r.None? <==> !HasName(ms, name)
    decreases |ms|
  {
    if ms == [] then None
    else if ms[0].name == name then Some(0)
    else
      var r := FirstIndexByName(ms[1..], name);
      assert forall k :: 0 <= k < |ms| - 1 ==> ms[1..][k] == ms[k + 1];
      assert HasName(ms, name) ==> HasName(ms[1..], name) by {
        if HasName(ms, name) {
          var k :| 0 <= k < |ms| && ms[k].name == name;
          assert ms[1..][k - 1] == ms[k];
        }
      }
      match r
      case None => None
      case Some(i) => Some(i + 1)
  }

  // ---------------------------------------------------------------------
  // `refreshAvailableModels`'s merge

  /** A listed model after the merge: the server's size and downloaded, when the server has it. */
  function WithServer(d: AIModel, server: seq<AIModel>): (m: AIModel)
    ensures m.name == d.name && m.displayName == d.displayName && m.description == d.description && m.isPro == d.isPro
    ensures !HasName(server, d.name) ==> m == d
    ensures HasName(server, d.name) ==>
              m.isDownloaded && m.size == server[FirstIndexByName(server, d.name).value].size
  {
    match FirstIndexByName(server, d.name)
    case None => d
    case Some(i) => AIModel(d.name, d.displayName, server[i].size, d.description, true, d.isPro)
  }

  /** A server model the list lacked, as appended: downloaded, with its Pro status looked up. */
  function FromServer(s: AIModel): (m: AIModel)
    ensures m.name == s.name && m.isDownloaded && !m.isPro
  {
    AIModel(s.name, s.displayName, s.size, s.description, true, ProStatus(s.name))
  }

  /** Every listed model updated in place, in order. */
  function Updated(ms: seq<AIModel>, server: seq<AIModel>): (r: seq<AIModel>)
    ensures |r| == |ms| && forall k :: 0 <= k < |ms| ==> r[k] == WithServer(ms[k], server)
  {
    seq(|ms|, k requires 0 <= k < |ms| => WithServer(ms[k], server))
  }

  /** The server models, in order, each appended unless its name is already listed. */
  function AddMissing(updated: seq<AIModel>, server: seq<AIModel>): seq<AIModel>
    decreases |server|
  {
    if server == [] then updated
    else AddMissing(if HasName(updated, server[0].name) then updated else updated + [FromServer(server[0])], server[1..])
  }

  /** The whole merge. */
  function Merge(ms: seq<AIModel>, server: seq<AIModel>): seq<AIModel> {
    AddMissing(Updated(ms, server), server)
  }

  /** Appending keeps what was there, in place; whatever is appended is a server model. */
  lemma {:induction false} AddMissingExtends(updated: seq<AIModel>, server: seq<AIModel>)
    ensures var r := AddMissing(updated, server);
            |r| >= |updated| && r[..|updated|] == updated
            && (forall k :: |updated| <= k < |r| ==> exists j :: 0 <= j < |server| && r[k] == FromServer(server[j]))
    decreases |server|
  {
    if server != [] {
      var u := if HasName(updated, server[0].name) then updated else updated + [FromServer(server[0])];
      AddMissingExtends(u, server[1..]);
      var r := AddMissing(updated, server);
      assert r == AddMissing(u, server[1..]);
      assert r[..|updated|] == r[..|u|][..|updated|];
      forall k | |updated| <= k < |r| ensures exists j :: 0 <= j < |server| && r[k] == FromServer(server[j]) {
        if k < |u| {
          assert r[k] == u[k] == FromServer(server[0]);
        } else {
          var j :| 0 <= j < |server[1..]| && r[k] == FromServer(server[1..][j]);
          assert server[1..][j] == server[j + 1];
        }
      }
    }
  }

  /** Each appended model's name appears nowhere before it: not listed already, and appended once. */
  lemma {:induction false} AddMissingNewNames(updated: seq<AIModel>, server: seq<AIModel>)
    ensures var r := AddMissing(updated, server);
            forall k :: |updated| <= k < |r| ==> !HasName(r[..k], r[k].name)
    decreases |server|
  {
    if server != [] {
      var u := if HasName(updated, server[0].name) then updated else updated + [FromServer(server[0])];
      AddMissingNewNames(u, server[1..]);
      AddMissingExtends(u, server[1..]);
      var r := AddMissing(updated, server);
      assert r == AddMissing(u, server[1..]);
      if |u| > |updated| {
        assert r[..|updated|] == r[..|u|][..|updated|] == updated;
        assert r[|updated|] == u[|updated|] == FromServer(server[0]);
      }
    }
  }

  /** Every server model's name is in the merged list. */
  lemma {:induction false} AddMissingCovers(updated: seq<AIModel>, server: seq<AIModel>)
    ensures forall j :: 0 <= j < |server| ==> HasName(AddMissing(updated, server), server[j].name)
    decreases |server|
  {
    if server != [] {
      var u := if HasName(updated, server[0].name) then updated else updated + [FromServer(server[0])];
      AddMissingCovers(u, server[1..]);
      AddMissingExtends(u, server[1..]);
      var r := AddMissing(updated, server);
      assert r == AddMissing(u, server[1..]);
      assert HasName(u, server[0].name) by {
        if !HasName(updated, server[0].name) {
          assert u[|updated|].name == server[0].name;
        }
      }
      var k :| 0 <= k < |u| && u[k].name == server[0].name;
      assert r[..|u|][k] == r[k];
      forall j | 1 <= j < |server| ensures HasName(r, server[j].name) {
        assert server[j] == server[1..][j - 1];
      }
    }
  }

  /**
   * The merge keeps every listed model in its place, updated from the
   * server's first model of the same name; then appends, once each, the
   * server models whose names were not listed, downloaded and not Pro;
   * and every server model's name ends up listed.
   */
  lemma MergeSpec(ms: seq<AIModel>, server: seq<AIModel>)
    ensures var r := Merge(ms, server);
            |r| >= |ms|
            && (forall k :: 0 <= k < |ms| ==> r[k] == WithServer(ms[k], server))
            && (forall k :: |ms| <= k < |r| ==> !HasName(r[..k], r[k].name) && r[k].isDownloaded && !r[k].isPro)
            && (forall k :: |ms| <= k < |r| ==> exists j :: 0 <= j < |server| && r[k] == FromServer(server[j]))
            && (forall j :: 0 <= j < |server| ==> HasName(r, server[j].name))
  {
    var u := Updated(ms, server);
    AddMissingExtends(u, server);
    AddMissingNewNames(u, server);
    AddMissingCovers(u, server);
    var r := Merge(ms, server);
    forall k | 0 <= k < |ms| ensures r[k] == WithServer(ms[k], server) {
      assert r[..|u|][k] == r[k];
    }
    forall k | |ms| <= k < |r| ensures r[k].isDownloaded && !r[k].isPro {
      var j :| 0 <= j < |server| && r[k] == FromServer(server[j]);
    }
  }

  /** With no server models, as `refreshAvailableModels` has them for now, the merge changes nothing. */
  lemma MergeWithoutServer(ms: seq<AIModel>)
    ensures Merge(ms, []) == ms
  {
    assert Updated(ms, []) == ms;
  }

  // ---------------------------------------------------------------------
  // `downloadModel`'s marking

  /** The first model of that name marked downloaded; the list is otherwise untouched. */
  function MarkDownloaded(ms: seq<AIModel>, name: string): (r: seq<AIModel>)
    ensures |r| == |ms|
    ensures !HasName(ms, name) ==> r == ms
    ensures forall i :: 0 <= i < |ms| && ms[i].name == name && (forall k :: 0 <= k < i ==> ms[k].name != name) ==>
              r == ms[i := AIModel(ms[i].name, ms[i].displayName, ms[i].size, ms[i].description, true, ms[i].isPro)]
  {
    match FirstIndexByName(ms, name)
    case None => ms
    case Some(i) =>
      assert forall j :: 0 <= j < |ms| && ms[j].name == name && (forall k :: 0 <= k < j ==> ms[k].name != name) ==> j == i;
      ms[i := AIModel(ms[i].name, ms[i].displayName, ms[i].size, ms[i].description, true, ms[i].isPro)]
  }

  /** Marking twice is marking once. */
  lemma MarkDownloadedIdempotent(ms: seq<AIModel>, name: string)
    ensures MarkDownloaded(MarkDownloaded(ms, name), name) == MarkDownloaded(ms, name)
  {
    var r := MarkDownloaded(ms, name);
    match FirstIndexByName(ms, name)
    case None =>
    case Some(i) =>
      assert r[i].name == name && forall k :: 0 <= k < i ==> r[k] == ms[k];
      assert r[i := AIModel(r[i].name, r[i].displayName, r[i].size, r[i].description, true, r[i].isPro)] == r;
  }

  // ---------------------------------------------------------------------
  // The manager

  /** `loadSelectedModel`: a stored selection wins over the default. */
  function InitialSelection(saved: Option<string>): (r: string)
    ensures saved.Some? ==> r == saved.value
    ensures saved.None? ==> r == DefaultSelection
  {
    saved.GetOr(DefaultSelection)
  }

  class ModelManager {
    var availableModels: seq<AIModel>
    var selectedModel: string
    var isLoading: bool
    var error: Option<string>
    /** The value stored under `SelectionKey`. */
    var savedSelection: Option<string>

    /** `init` on what was stored, before the first refresh. */
    constructor (saved: Option<string>)
      ensures selectedModel == InitialSelection(saved) && savedSelection == saved
      ensures availableModels == DefaultModels && !isLoading && error.None?
    {
      availableModels := [];
      selectedModel := DefaultSelection;
      isLoading := false;
      error := None;
      savedSelection := saved;
      if saved.Some? {
        selectedModel := saved.value;
      }
      availableModels := DefaultModels;
    }

    /** `selectModel`: chosen and stored, so the next launch starts with it. */
    method SelectModel(modelName: string)
      modifies this
      ensures selectedModel == modelName && savedSelection == Some(modelName)
      ensures InitialSelection(savedSelection) == modelName
      ensures availableModels == old(availableModels) && isLoading == old(isLoading) && error == old(error)
    {
      selectedModel := modelName;
      savedSelection := Some(modelName);
    }

    /** The two loops of `refreshAvailableModels`. */
    static method MergeModels(models: seq<AIModel>, serverModels: seq<AIModel>) returns (updated: seq<AIModel>)
      ensures updated == Merge(models, serverModels)
    {
      updated := models;
      var index := 0;
      while index < |updated|
        invariant |updated| == |models| && 0 <= index <= |models|
        invariant forall k :: 0 <= k < index ==> updated[k] == WithServer(models[k], serverModels)
        invariant forall k :: index <= k < |models| ==> updated[k] == models[k]
      {
        var defaultModel := updated[index];
        var found := FirstIndexByName(serverModels, defaultModel.name);
        if found.Some? {
          var serverModel := serverModels[found.value];
          updated := updated[index := AIModel(defaultModel.name, defaultModel.displayName, serverModel.size,
                                              defaultModel.description, true, defaultModel.isPro)];
        }
        index := index + 1;
      }
      assert updated == Updated(models, serverModels);
      var j := 0;
      while j < |serverModels|
        invariant 0 <= j <= |serverModels|
        invariant AddMissing(updated, serverModels[j..]) == Merge(models, serverModels)
      {
        var serverModel := serverModels[j];
        assert serverModels[j..][0] == serverModel && serverModels[j..][1..] == serverModels[j + 1..];
        if !HasName(updated, serverModel.name) {
          updated := updated + [FromServer(serverModel)];
        }
        j := j + 1;
      }
      assert serverModels[j..] == [];
    }

    /**
     * `refreshAvailableModels`: without Ollama, the error; with it, the
     * merge with the server's models, which for now are none.
     */
    method RefreshAvailableModels(ollamaReady: bool)
      modifies this
      ensures !ollamaReady ==> error == Some(NotAvailable)
      ensures ollamaReady ==> error.None?
      ensures availableModels == old(availableModels) && !isLoading
      ensures selectedModel == old(selectedModel) && savedSelection == old(savedSelection)
    {
      isLoading := true;
      error := None;
      if !ollamaReady {
        error := Some(NotAvailable);
        isLoading := false;
        return;
      }
      var serverModels: seq<AIModel> := [];
      var updated := MergeModels(availableModels, serverModels);
      MergeWithoutServer(availableModels);
      availableModels := updated;
      isLoading := false;
    }

    /** `downloadModel`: the first model of that name marked downloaded, then a refresh. */
    method DownloadModel(modelName: string, ollamaReady: bool)
      modifies this
      ensures availableModels == MarkDownloaded(old(availableModels), modelName)
      ensures error == (if ollamaReady then None else Some(NotAvailable)) && !isLoading
      ensures selectedModel == old(selectedModel) && savedSelection == old(savedSelection)
    {
      isLoading := true;
      error := None;
      var index := FirstIndexByName(availableModels, modelName);
      if index.Some? {
        var m := availableModels[index.value];
        availableModels := availableModels[index.value := AIModel(m.name, m.displayName, m.size, m.description, true, m.isPro)];
      }
      RefreshAvailableModels(ollamaReady);
      isLoading := false;
    }
  }
}
