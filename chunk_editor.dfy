/** The chunk editor node: it turns the node's inputs, where 0, -1 and "project" mean "not set", into a replace_chunk
    request on a project directory, after checking that the node is active, that project.json exists and, in import
    mode, that an audio path is given and exists. Path resolution, the existence test for the import file and the
    VV_MOCK_TTS value come from the host. */
module ChunkEditor {
  import opened Wrappers
  import opened Values
  import opened Project
  import opened Engine
  import opened Utils

  /** The node's inputs, with the defaults of its optional inputs being -1, 0.0, 0, 0.0, 0.0, "project" and "". */
  datatype EditorInputs = EditorInputs(
    projectJson: string,
    index: int,
    mode: string,
    timelineMode: string,
    active: bool,
    seed: int,
    cfgScale: real,
    diffusionSteps: int,
    temperature: real,
    topP: real,
    samplingMode: string,
    importAudio: string)

  /** What the node takes from its host. */
  datatype Host = Host(
    // The repository root that "{repo}" stands for.
    repoRoot: string,
    // Path(p).expanduser().resolve().
    resolve: string -> string,
    // Path(p).exists() for the import file.
    fileExists: string -> bool,
    // The value of VV_MOCK_TTS, None when unset.
    mockSetting: Option<string>)

  /** The override map described key by key: each numeric override is present exactly when its input is positive,
      with the input's value; use_sampling is present exactly when the sampling mode is "true" or "false", as that
      boolean; and no other key is present. */
  predicate SentinelOverrides(ov: Dict, inputs: EditorInputs) {
    && ov.Keys <= OptionKeys
    && ("cfg_scale" in ov <==> inputs.cfgScale > 0.0)
    && ("cfg_scale" in ov ==> ov["cfg_scale"] == VReal(inputs.cfgScale))
    && ("diffusion_steps" in ov <==> inputs.diffusionSteps > 0)
    && ("diffusion_steps" in ov ==> ov["diffusion_steps"] == VInt(inputs.diffusionSteps))
    && ("temperature" in ov <==> inputs.temperature > 0.0)
    && ("temperature" in ov ==> ov["temperature"] == VReal(inputs.temperature))
    && ("top_p" in ov <==> inputs.topP > 0.0)
    && ("top_p" in ov ==> ov["top_p"] == VReal(inputs.topP))
    && ("use_sampling" in ov <==> inputs.samplingMode == "true" || inputs.samplingMode == "false")
    && ("use_sampling" in ov ==> ov["use_sampling"] == VBool(inputs.samplingMode == "true"))
  }

  /** Every override input is at its "not set" value. */
  predicate NoOverrides(inputs: EditorInputs) {
    && inputs.cfgScale <= 0.0 && inputs.diffusionSteps <= 0 && inputs.temperature <= 0.0 && inputs.topP <= 0.0
    && inputs.samplingMode != "true" && inputs.samplingMode != "false"
  }

  /** The overrides block of edit: the map is built one conditional assignment at a time. It is empty exactly when
      no override input is set. */
  method BuildOverrides(inputs: EditorInputs) returns (overrides: Dict)
    ensures SentinelOverrides(overrides, inputs)
    ensures overrides == map[] <==> NoOverrides(inputs)
  {
    overrides := map[];
    if inputs.cfgScale > 0.0 {
      overrides := overrides["cfg_scale" := VReal(inputs.cfgScale)];
    }
    if inputs.diffusionSteps > 0 {
      overrides := overrides["diffusion_steps" := VInt(inputs.diffusionSteps)];
    }
    if inputs.temperature > 0.0 {
      overrides := overrides["temperature" := VReal(inputs.temperature)];
    }
    if inputs.topP > 0.0 {
      overrides := overrides["top_p" := VReal(inputs.topP)];
    }
    if inputs.samplingMode == "true" {
      overrides := overrides["use_sampling" := VBool(true)];
    } else if inputs.samplingMode == "false" {
      overrides := overrides["use_sampling" := VBool(false)];
    }
    if !NoOverrides(inputs) {
      assert "cfg_scale" in overrides || "diffusion_steps" in overrides || "temperature" in overrides
             || "top_p" in overrides || "use_sampling" in overrides;
    }
  }

  /** The description pins the map down: two maps that both fit it are equal. */
  lemma SentinelOverridesUnique(a: Dict, b: Dict, inputs: EditorInputs)
    requires SentinelOverrides(a, inputs) && SentinelOverrides(b, inputs)
    ensures a == b
  {
    assert a.Keys == b.Keys;
    forall k | k in a ensures a[k] == b[k] {
      assert k in OptionKeys;
    }
  }

  /** What the editor's overrides do to the rendering options once replace_chunk merges them: every option whose
      input is set takes the input's value, and every other option keeps the project default. */
  lemma SentinelOverridesMerge(o: TTSOptions, ov: Dict, inputs: EditorInputs)
    requires SentinelOverrides(ov, inputs)
    ensures MergeOverrides(o, Some(ov)) == Ok(TTSOptions(
              if inputs.cfgScale > 0.0 then inputs.cfgScale else o.cfgScale,
              if inputs.diffusionSteps > 0 then inputs.diffusionSteps else o.diffusionSteps,
              if inputs.samplingMode == "true" then true
              else if inputs.samplingMode == "false" then false
              else o.useSampling,
              if inputs.temperature > 0.0 then inputs.temperature else o.temperature,
              if inputs.topP > 0.0 then inputs.topP else o.topP))
  {
    var r := MergeOverrides(o, Some(ov));
    assert r.Ok?;
    if "use_sampling" in ov {
      assert Truthy(ov["use_sampling"]) == (inputs.samplingMode == "true");
    }
  }

  /** The seed sentinel: a non-negative seed is passed on, a negative one means "keep the chunk's seed". */
  function ChunkSeed(seed: int): (r: Option<int>)
    ensures r.Some? <==> seed >= 0
    ensures r.Some? ==> r.value == seed
  {
    if seed >= 0 then Some(seed) else None
  }

  /** The path the node resolves from a path input. */
  function ResolvedPath(host: Host, path: string): string {
    host.resolve(ExpandRepoPlaceholders(path, host.repoRoot))
  }

  /** The request edit passes to replace_chunk: the index and both modes as given, the seed after the sentinel, the
      override map or None when it is empty, the resolved import path in import mode only, and the mock flag from
      the environment. */
  predicate RequestFor(req: ReplaceRequest, inputs: EditorInputs, host: Host) {
    && req.index == inputs.index && req.mode == inputs.mode && req.timelineMode == inputs.timelineMode
    && req.seed == ChunkSeed(inputs.seed)
    && (req.overrides.None? <==> NoOverrides(inputs))
    && (req.overrides.Some? ==> SentinelOverrides(req.overrides.value, inputs))
    && req.importPath == (if inputs.mode == "import" then Some(ResolvedPath(host, inputs.importAudio)) else None)
    && req.mock == IsMockMode(host.mockSetting)
  }

  /** VVChunkEditorNode.edit. An inactive node passes its project path through untouched. An active one resolves the
      project path and raises when project.json is absent; in import mode it raises when no audio path is given or
      the resolved one does not exist. Only then does it call replace_chunk, with the request above, and on success
      returns the resolved project path. */
  method Edit(dir: ProjectDir, env: Collaborators, host: Host, inputs: EditorInputs)
    returns (r: Result<string>, ghost req: ReplaceRequest, ghost replaced: Result<ChunkData>)
    modifies dir
    ensures !inputs.active ==> r == Ok(inputs.projectJson) && unchanged(dir)
    ensures inputs.active && old(dir.document).None? ==>
              r == Err(FileMissing(ResolvedPath(host, inputs.projectJson))) && unchanged(dir)
    ensures inputs.active && old(dir.document).Some? && inputs.mode == "import" && inputs.importAudio == "" ==>
              r == Err(ImportPathRequired) && unchanged(dir)
    ensures inputs.active && old(dir.document).Some? && inputs.mode == "import" && inputs.importAudio != ""
            && !host.fileExists(ResolvedPath(host, inputs.importAudio)) ==>
              r == Err(FileMissing(ResolvedPath(host, inputs.importAudio))) && unchanged(dir)
    ensures inputs.active && old(dir.document).Some?
            && (inputs.mode == "import" ==> inputs.importAudio != "" && host.fileExists(ResolvedPath(host, inputs.importAudio)))
            ==> && RequestFor(req, inputs, host)
                && Replaced(dir, env, ResolvedPath(host, inputs.projectJson), req, replaced)
                && r == (if replaced.Ok? then Ok(ResolvedPath(host, inputs.projectJson)) else Err(replaced.error))
  {
    replaced := Err(NoChunks);
    req := ReplaceRequest(0, "", "", None, None, None, false);
    if !inputs.active {
      return Ok(inputs.projectJson), req, replaced;
    }
    var projectPath := host.resolve(ExpandRepoPlaceholders(inputs.projectJson, host.repoRoot));
    if dir.document.None? {
      return Err(FileMissing(projectPath)), req, replaced;
    }
    var overrides := BuildOverrides(inputs);
    var importPath: Option<string> := None;
    if inputs.mode == "import" {
      if inputs.importAudio == "" {
        return Err(ImportPathRequired), req, replaced;
      }
      var path := host.resolve(ExpandRepoPlaceholders(inputs.importAudio, host.repoRoot));
      if !host.fileExists(path) {
        return Err(FileMissing(path)), req, replaced;
      }
      importPath := Some(path);
    }
    var chunkSeed := if inputs.seed >= 0 then Some(inputs.seed) else None;
    var request := ReplaceRequest(inputs.index, inputs.mode, inputs.timelineMode, chunkSeed,
                                  if overrides != map[] then Some(overrides) else None, importPath,
                                  IsMockMode(host.mockSetting));
    req := request;
    var outcome := ReplaceChunk(dir, env, projectPath, request);
    replaced := outcome;
    if outcome.Err? {
      return Err(outcome.error), req, replaced;
    }
    return Ok(projectPath), req, replaced;
  }
}
