/** Orchestration of a project: rendering options and their overrides, the mapping of script chunks to character
    spans, chunk file names and archive versions, and the generate / replace / final-mix / lookup operations over a
    project directory. The neural renderer, the mock renderer, the audio importer, the time stretch, the crossfade
    blend and the loudness normaliser are parameters. */
module Engine {
  import opened Wrappers
  import opened Text
  import opened Paths
  import opened Values
  import opened Numeric
  import opened Audio
  import opened Project

  // ---------------------------------------------------------------------------
  // Rendering options
  // ---------------------------------------------------------------------------

  const OptionKeys: set<string> := {"cfg_scale", "diffusion_steps", "use_sampling", "temperature", "top_p"}

  datatype TTSOptions = TTSOptions(
    cfgScale: real,
    diffusionSteps: int,
    useSampling: bool,
    temperature: real,
    topP: real)

  /** The options used when the settings carry no default parameters. */
  const DefaultOptions := TTSOptions(1.3, 20, false, 0.95, 0.95)

  /** TTSOptions.as_dict: the five options under their own keys. */
  function AsDict(o: TTSOptions): (d: Dict)
    ensures d.Keys == OptionKeys
  {
    map[
      "cfg_scale" := VReal(o.cfgScale),
      "diffusion_steps" := VInt(o.diffusionSteps),
      "use_sampling" := VBool(o.useSampling),
      "temperature" := VReal(o.temperature),
      "top_p" := VReal(o.topP)]
  }

  /** _default_tts_options: the options stored in the settings' default parameters, each coerced (float, int, bool,
      float, float) and defaulting to 1.3, 20, False, 0.95 and 0.95 when absent. */
  function DefaultTtsOptions(settings: ProjectSettings): (r: Result<TTSOptions>)
    ensures settings.defaultParams == map[] ==> r == Ok(DefaultOptions)
    ensures r.Ok? ==> r.value.useSampling == Truthy(Get(settings.defaultParams, "use_sampling", VBool(false)))
  {
    var d := settings.defaultParams;
    var cfgScale :- ToReal(Get(d, "cfg_scale", VReal(1.3)));
    var diffusionSteps :- ToInt(Get(d, "diffusion_steps", VInt(20)));
    var useSampling := Truthy(Get(d, "use_sampling", VBool(false)));
    var temperature :- ToReal(Get(d, "temperature", VReal(0.95)));
    var topP :- ToReal(Get(d, "top_p", VReal(0.95)));
    Ok(TTSOptions(cfgScale, diffusionSteps, useSampling, temperature, topP))
  }

  /** Options stored with as_dict are read back unchanged: a generated project re-renders with the options it was
      generated with. */
  lemma OptionsRoundTrip(settings: ProjectSettings, o: TTSOptions)
    ensures DefaultTtsOptions(settings.(defaultParams := AsDict(o))) == Ok(o)
  {
    var d := AsDict(o);
    assert d["cfg_scale"] == VReal(o.cfgScale);
    assert d["diffusion_steps"] == VInt(o.diffusionSteps);
    assert d["use_sampling"] == VBool(o.useSampling);
    assert d["temperature"] == VReal(o.temperature);
    assert d["top_p"] == VReal(o.topP);
  }

  /** The override for `key` is applied: the key is present and its value is not None. */
  predicate Overrides(ov: Dict, key: string) {
    key in ov && !ov[key].VNone?
  }

  /** The override merge of ChunkRenderer.render_text: only the five option keys with a non-None value are applied;
      use_sampling is coerced with bool(), diffusion_steps with int() and the rest with float(). A value that does
      not coerce raises. */
  function MergeOverrides(o: TTSOptions, overrides: Option<Dict>): (r: Result<TTSOptions>)
    ensures overrides.None? ==> r == Ok(o)
    ensures overrides.Some? ==>
              var ov := overrides.value;
              && (r.Ok? <==>
                    && (Overrides(ov, "cfg_scale") ==> ToReal(ov["cfg_scale"]).Ok?)
                    && (Overrides(ov, "diffusion_steps") ==> ToInt(ov["diffusion_steps"]).Ok?)
                    && (Overrides(ov, "temperature") ==> ToReal(ov["temperature"]).Ok?)
                    && (Overrides(ov, "top_p") ==> ToReal(ov["top_p"]).Ok?))
              && (r.Ok? ==>
                    && (if Overrides(ov, "cfg_scale") then ToReal(ov["cfg_scale"]) == Ok(r.value.cfgScale)
                        else r.value.cfgScale == o.cfgScale)
                    && (if Overrides(ov, "diffusion_steps") then ToInt(ov["diffusion_steps"]) == Ok(r.value.diffusionSteps)
                        else r.value.diffusionSteps == o.diffusionSteps)
                    && (if Overrides(ov, "use_sampling") then r.value.useSampling == Truthy(ov["use_sampling"])
                        else r.value.useSampling == o.useSampling)
                    && (if Overrides(ov, "temperature") then ToReal(ov["temperature"]) == Ok(r.value.temperature)
                        else r.value.temperature == o.temperature)
                    && (if Overrides(ov, "top_p") then ToReal(ov["top_p"]) == Ok(r.value.topP)
                        else r.value.topP == o.topP))
  {
    if overrides.None? then Ok(o)
    else
      var ov := overrides.value;
      var cfgScale :- if Overrides(ov, "cfg_scale") then ToReal(ov["cfg_scale"]) else Ok(o.cfgScale);
      var diffusionSteps :- if Overrides(ov, "diffusion_steps") then ToInt(ov["diffusion_steps"]) else Ok(o.diffusionSteps);
      var useSampling := if Overrides(ov, "use_sampling") then Truthy(ov["use_sampling"]) else o.useSampling;
      var temperature :- if Overrides(ov, "temperature") then ToReal(ov["temperature"]) else Ok(o.temperature);
      var topP :- if Overrides(ov, "top_p") then ToReal(ov["top_p"]) else Ok(o.topP);
      Ok(TTSOptions(cfgScale, diffusionSteps, useSampling, temperature, topP))
  }

  /** Keys other than the five options never influence rendering, whatever their value. */
  lemma MergeIgnoresOtherKeys(o: TTSOptions, ov: Dict, key: string, v: Value)
    requires key !in OptionKeys
    ensures MergeOverrides(o, Some(ov[key := v])) == MergeOverrides(o, Some(ov))
  {
    var ov' := ov[key := v];
    forall k | k in OptionKeys ensures Overrides(ov', k) == Overrides(ov, k) && (k in ov ==> ov'[k] == ov[k]) {
    }
  }

  /** An empty override map, or one whose option values are all None, leaves the options as they are. */
  lemma MergeWithoutEffect(o: TTSOptions, ov: Dict)
    requires forall k :: k in OptionKeys ==> !Overrides(ov, k)
    ensures MergeOverrides(o, Some(ov)) == Ok(o)
  {
    assert !Overrides(ov, "cfg_scale") && !Overrides(ov, "diffusion_steps") && !Overrides(ov, "use_sampling");
    assert !Overrides(ov, "temperature") && !Overrides(ov, "top_p");
  }

  // ---------------------------------------------------------------------------
  // Rendering
  // ---------------------------------------------------------------------------

  /** The code the core calls but does not contain. */
  datatype Collaborators = Collaborators(
    // _ensure_ready: loading the model named by the settings and preparing the voice samples; the exception it
    // raises, or None when the model is ready.
    ready: ProjectSettings -> Option<Error>,
    // The neural renderer once the model is ready: settings (model, sample rate), text, seed and options to samples
    // at the project sample rate, or the exception raised on the way (generating, resampling).
    synth: (ProjectSettings, string, int, TTSOptions) -> Result<Samples>,
    // The synthetic mock renderer: text, seed and sample rate to samples, or the exception it raises (numpy's
    // generator rejects a negative seed).
    mockSynth: (string, int, int) -> Result<Samples>,
    // load_audio on an import path at a sample rate; None when it cannot be read.
    importer: (string, int) -> Option<Samples>,
    stretch: Stretch,
    blend: Blend,
    // match_loudness: samples and a target loudness to samples.
    normalise: (Samples, real) -> Samples)

  /** ChunkRenderer: the project settings, the options it renders with, and whether it is the mock renderer. */
  datatype ChunkRenderer = ChunkRenderer(settings: ProjectSettings, options: TTSOptions, mock: bool) {

    /** What render_text gives without overrides: the audio, or the renderer's exception. */
    function Render(env: Collaborators, text: string, seed: int): Result<Samples> {
      if mock then env.mockSynth(text, seed, settings.sampleRate)
      else if env.ready(settings).Some? then Err(env.ready(settings).value)
      else env.synth(settings, text, seed, options)
    }

    /** render_text: the mock renderer ignores the overrides altogether, and without overrides the real one renders
        with its own options. Otherwise the model is made ready first, and a failure to load it is the error
        whatever the overrides hold; then it raises when the override merge does, and else renders with the merged
        options, raising whatever the model raises. */
    function RenderText(env: Collaborators, text: string, seed: int, overrides: Option<Dict>): (r: Result<Samples>)
      ensures mock || overrides.None? ==> r == Render(env, text, seed)
      ensures !mock && env.ready(settings).Some? ==> r == Err(env.ready(settings).value)
      ensures !mock && env.ready(settings).None? && MergeOverrides(options, overrides).Err? ==>
                r == Err(MergeOverrides(options, overrides).error)
      ensures !mock && env.ready(settings).None? && MergeOverrides(options, overrides).Ok? ==>
                r == env.synth(settings, text, seed, MergeOverrides(options, overrides).value)
    {
      if mock then env.mockSynth(text, seed, settings.sampleRate)
      else if env.ready(settings).Some? then Err(env.ready(settings).value)
      else
        var params :- MergeOverrides(options, overrides);
        env.synth(settings, text, seed, params)
    }
  }

  // ---------------------------------------------------------------------------
  // _chunk_script
  // ---------------------------------------------------------------------------

  /** A chunk's text and the character span [start, end) it is mapped to in the script. */
  datatype Span = Span(text: string, start: nat, end: nat)

  /** Where _chunk_script places a chunk text: its first occurrence at or after the cursor, else its first
      occurrence anywhere, else the cursor itself. */
  function Locate(script: string, t: string, cursor: nat): (r: nat)
    ensures r == cursor || OccursAt(script, t, r)
  {
    var after := FindFrom(script, t, cursor);
    if after != -1 then after
    else
      var anywhere := FindFrom(script, t, 0);
      if anywhere != -1 then anywhere else cursor
  }

  /** The three cases of Locate: the first occurrence at or after the cursor; failing that, the first occurrence
      anywhere; failing that, the cursor. */
  lemma LocatePlacement(script: string, t: string, cursor: nat)
    ensures var r := Locate(script, t, cursor);
            && ((exists i :: cursor <= i && OccursAt(script, t, i)) ==>
                  cursor <= r && OccursAt(script, t, r) && forall i :: cursor <= i < r ==> !OccursAt(script, t, i))
            && ((forall i :: cursor <= i ==> !OccursAt(script, t, i)) && (exists i :: 0 <= i && OccursAt(script, t, i)) ==>
                  OccursAt(script, t, r) && forall i :: 0 <= i < r ==> !OccursAt(script, t, i))
            && ((forall i :: 0 <= i ==> !OccursAt(script, t, i)) ==> r == cursor)
  {
    FindFromFirst(script, t, cursor);
    FindFromFirst(script, t, 0);
  }

  /** The chunk texts _chunk_script keeps: every raw chunk stripped, and dropped when nothing is left. */
  function KeptTexts(raws: seq<string>): seq<string> {
    if raws == [] then []
    else
      var t := Strip(raws[0]);
      if t == [] then KeptTexts(raws[1..]) else [t] + KeptTexts(raws[1..])
  }

  /** At most one text per raw chunk, and every kept text is non-empty and neither starts nor ends with
      whitespace. */
  lemma {:induction false} KeptTextsSpec(raws: seq<string>)
    ensures var r := KeptTexts(raws);
            && |r| <= |raws|
            && forall k :: 0 <= k < |r| ==> r[k] != [] && !IsSpace(r[k][0]) && !IsSpace(r[k][|r[k]| - 1])
  {
    if raws != [] {
      KeptTextsSpec(raws[1..]);
      StripSpec(raws[0]);
      var t := Strip(raws[0]);
      var rest := KeptTexts(raws[1..]);
      if t != [] {
        var r := [t] + rest;
        forall k | 0 < k < |r| ensures r[k] == rest[k - 1] {
        }
      }
    }
  }

  /** A raw chunk is dropped exactly when it is blank. */
  lemma KeptTextsDropBlank(raw: string, raws: seq<string>)
    ensures IsBlank(raw) ==> KeptTexts([raw] + raws) == KeptTexts(raws)
    ensures !IsBlank(raw) ==> KeptTexts([raw] + raws) == [Strip(raw)] + KeptTexts(raws)
  {
    StripSpec(raw);
    assert ([raw] + raws)[1..] == raws;
  }

  /** The spans of the kept texts, from a cursor: each text is located from the cursor, and the cursor moves to its
      end. The spans carry the texts in order, each span exactly as long as its text. */
  function SpansOf(script: string, texts: seq<string>, cursor: nat): (r: seq<Span>)
    ensures |r| == |texts|
    ensures forall k :: 0 <= k < |r| ==> r[k].text == texts[k] && r[k].end == r[k].start + |texts[k]|
    decreases |texts|
  {
    if texts == [] then []
    else
      var start := Locate(script, texts[0], cursor);
      [Span(texts[0], start, start + |texts[0]|)] + SpansOf(script, texts[1..], start + |texts[0]|)
  }

  /** What _chunk_script returns for a script and the splitter's raw chunks. */
  function ScriptSpans(script: string, raws: seq<string>): seq<Span> {
    SpansOf(script, KeptTexts(raws), 0)
  }

  /** Each span starts where Locate puts its text, searching from the end of the previous span (from the initial
      cursor for the first). */
  lemma SpansAreLocated(script: string, texts: seq<string>, cursor: nat)
    ensures var r := SpansOf(script, texts, cursor);
            && (|r| > 0 ==> r[0].start == Locate(script, texts[0], cursor))
            && (forall k :: 0 < k < |r| ==> r[k].start == Locate(script, texts[k], r[k - 1].end))
  {
    var r := SpansOf(script, texts, cursor);
    if |r| > 0 {
      SpanLocatedAt(script, texts, cursor, 0);
    }
    forall k | 0 < k < |r| ensures r[k].start == Locate(script, texts[k], r[k - 1].end) {
      SpanLocatedAt(script, texts, cursor, k);
    }
  }

  /** Span k starts where Locate puts text k, searching from the end of span k-1 (from the cursor for k = 0). */
  lemma {:induction false} SpanLocatedAt(script: string, texts: seq<string>, cursor: nat, k: nat)
    requires k < |texts|
    ensures var r := SpansOf(script, texts, cursor);
            && (k == 0 ==> r[0].start == Locate(script, texts[0], cursor))
            && (k > 0 ==> r[k].start == Locate(script, texts[k], r[k - 1].end))
    decreases k, 1
  {
    if k > 0 {
      SpanLocatedStep(script, texts, cursor, k);
    }
  }

  /** SpanLocatedAt for k > 0: span k of the list is span k-1 of the spans of the rest, which start where the first
      span ends. */
  lemma {:induction false} SpanLocatedStep(script: string, texts: seq<string>, cursor: nat, k: nat)
    requires 0 < k < |texts|
    ensures var r := SpansOf(script, texts, cursor);
            r[k].start == Locate(script, texts[k], r[k - 1].end)
    decreases k, 0
  {
    var start := Locate(script, texts[0], cursor);
    var next := start + |texts[0]|;
    var rest := SpansOf(script, texts[1..], next);
    var r := SpansOf(script, texts, cursor);
    assert r == [Span(texts[0], start, next)] + rest;
    SpanLocatedAt(script, texts[1..], next, k - 1);
    if k == 1 {
      assert r[1] == rest[0] && texts[1] == texts[1..][0];
    } else {
      assert r[k] == rest[k - 1] && r[k - 1] == rest[k - 2] && texts[k] == texts[1..][k - 1];
    }
  }

  /** When a span's text occurs in the script, the span covers one of its occurrences: script[start:end] == text;
      when it occurs at or after the previous span's end, the span starts there or later. */
  lemma SpansMatchScript(script: string, texts: seq<string>, cursor: nat, k: nat)
    requires k < |texts|
    ensures var r := SpansOf(script, texts, cursor);
            var from := if k == 0 then cursor else r[k - 1].end;
            && ((exists i :: 0 <= i && OccursAt(script, texts[k], i)) ==>
                  r[k].end <= |script| && script[r[k].start..r[k].end] == texts[k])
            && ((exists i :: from <= i && OccursAt(script, texts[k], i)) ==> from <= r[k].start)
  {
    var r := SpansOf(script, texts, cursor);
    var from := if k == 0 then cursor else r[k - 1].end;
    SpanLocatedAt(script, texts, cursor, k);
    LocateFinds(script, texts[k], from);
  }

  /** What Locate guarantees when the text occurs: it lands on an occurrence, and on one at or after the cursor when
      there is one. */
  lemma LocateFinds(script: string, t: string, cursor: nat)
    ensures (exists i :: 0 <= i && OccursAt(script, t, i)) ==> OccursAt(script, t, Locate(script, t, cursor))
    ensures (exists i :: cursor <= i && OccursAt(script, t, i)) ==> cursor <= Locate(script, t, cursor)
  {
    LocatePlacement(script, t, cursor);
    if exists i :: 0 <= i && OccursAt(script, t, i) {
      if !exists i :: cursor <= i && OccursAt(script, t, i) {
        assert forall i :: cursor <= i ==> !OccursAt(script, t, i);
      }
    }
  }

  /** Taking the first span off: the spans of `[t] + rest` from a cursor are t's span at its located start, followed by
      the spans of `rest` from that span's end. */
  lemma SpansStep(script: string, t: string, rest: seq<string>, done: seq<Span>, cursor: nat, start: nat, end: nat)
    requires start == Locate(script, t, cursor) && end == start + |t|
    ensures done + SpansOf(script, [t] + rest, cursor) == (done + [Span(t, start, end)]) + SpansOf(script, rest, end)
  {
    assert ([t] + rest)[1..] == rest;
  }

  /** The three searches of _chunk_script for one chunk text. */
  method FindStart(script: string, chunkText: string, cursor: nat) returns (start: nat)
    ensures start == Locate(script, chunkText, cursor)
  {
    var index := FindFrom(script, chunkText, cursor);
    if index == -1 {
      index := FindFrom(script, chunkText, 0);
    }
    if index == -1 {
      index := cursor;
    }
    start := index;
  }

  /** _chunk_script: a loop over the raw chunks with a cursor, appending one span per non-blank chunk. */
  method ChunkScript(script: string, rawChunks: seq<string>) returns (positions: seq<Span>)
    ensures positions == ScriptSpans(script, rawChunks)
  {
    positions := [];
    var cursor: nat := 0;
    ghost var whole := ScriptSpans(script, rawChunks);
    assert rawChunks[0..] == rawChunks;
    for i := 0 to |rawChunks|
      invariant positions + SpansOf(script, KeptTexts(rawChunks[i..]), cursor) == whole
    {
      assert rawChunks[i..][1..] == rawChunks[i + 1..];
      var chunkText := Strip(rawChunks[i]);
      ghost var rest := KeptTexts(rawChunks[i + 1..]);
      if chunkText == [] {
        assert KeptTexts(rawChunks[i..]) == rest;
        continue;
      }
      assert KeptTexts(rawChunks[i..]) == [chunkText] + rest;
      var start := FindStart(script, chunkText, cursor);
      var end := start + |chunkText|;
      SpansStep(script, chunkText, rest, positions, cursor, start, end);
      positions := positions + [Span(chunkText, start, end)];
      cursor := end;
    }
    assert rawChunks[|rawChunks|..] == [];
  }

  // ---------------------------------------------------------------------------
  // File names and archive versions
  // ---------------------------------------------------------------------------

  /** f"chunk_{idx:03d}.flac". */
  function ChunkFilename(index: nat): string {
    "chunk_" + Pad3(index) + ".flac"
  }

  /** Chunk file names have the chunk_ prefix and the .flac suffix, and different chunk numbers give different
      file names. */
  lemma ChunkFilenameInjective(a: nat, b: nat)
    ensures |ChunkFilename(a)| >= 14
    ensures ChunkFilename(a)[..6] == "chunk_" && ChunkFilename(a)[|ChunkFilename(a)| - 5..] == ".flac"
    ensures ChunkFilename(a) == ChunkFilename(b) ==> a == b
  {
    Pad3Value(a);
    Pad3Value(b);
    var s := ChunkFilename(a);
    assert s[..6] == "chunk_";
    assert s[|s| - 5..] == ".flac";
    if ChunkFilename(a) == ChunkFilename(b) {
      var t := ChunkFilename(b);
      assert Pad3(a) == s[6..|s| - 5];
      assert Pad3(b) == t[6..|t| - 5];
    }
  }

  /** f"{stem}__v{version}.flac". */
  function ArchiveName(stem: string, version: nat): string {
    stem + "__v" + NatToString(version) + ".flac"
  }

  /** The name matches the glob f"{stem}__v*.flac". */
  predicate IsArchiveOf(stem: string, name: string) {
    |name| >= |stem| + 3 + 5 && name[..|stem| + 3] == stem + "__v" && name[|name| - 5..] == ".flac"
  }

  /** The archive names of a stem present in the archive directory. */
  function Matching(archive: map<string, Samples>, stem: string): (r: set<string>)
    ensures forall n :: n in r <==> n in archive && IsArchiveOf(stem, n)
  {
    set n | n in archive && IsArchiveOf(stem, n)
  }

  /** Every archive name matches its own stem's glob. */
  lemma ArchiveNameMatches(stem: string, version: nat)
    ensures IsArchiveOf(stem, ArchiveName(stem, version))
  {
    var n := ArchiveName(stem, version);
    assert n[..|stem| + 3] == stem + "__v";
    assert n[|n| - 5..] == ".flac";
  }

  /** Different versions give different archive names. */
  lemma ArchiveNameInjective(stem: string, a: nat, b: nat)
    ensures ArchiveName(stem, a) == ArchiveName(stem, b) ==> a == b
  {
    if ArchiveName(stem, a) == ArchiveName(stem, b) {
      var s := ArchiveName(stem, a);
      var da := NatToString(a);
      var db := NatToString(b);
      assert |da| == |db|;
      assert da == s[|stem| + 3..|s| - 5] == db;
    }
  }

  /** The outcome of _archive_chunk on the chunk directory and the archive directory. */
  datatype Archived = Archived(files: map<string, Samples>, archive: map<string, Samples>, destination: Option<string>)

  /** _archive_chunk: a missing chunk file changes nothing and gives None; otherwise the file is moved to the archive
      under version k+1 of its stem, where k is the number of archive names already matching the stem's glob. */
  function ArchiveStep(files: map<string, Samples>, archive: map<string, Samples>, filename: string): (r: Archived)
    ensures filename !in files ==> r == Archived(files, archive, None)
    ensures filename in files ==>
              var stem := Stem(BaseName(filename));
              && r.destination == Some(ArchiveName(stem, |Matching(archive, stem)| + 1))
              && r.files == files - {filename}
              && r.archive == archive[r.destination.value := files[filename]]
              && IsArchiveOf(stem, r.destination.value)
  {
    if filename !in files then Archived(files, archive, None)
    else
      var stem := Stem(BaseName(filename));
      var name := ArchiveName(stem, |Matching(archive, stem)| + 1);
      ArchiveNameMatches(stem, |Matching(archive, stem)| + 1);
      Archived(files - {filename}, archive[name := files[filename]], Some(name))
  }

  /** The archive names of versions 1 to k. */
  ghost function VersionNames(stem: string, k: nat): set<string> {
    set v | 1 <= v <= k :: ArchiveName(stem, v)
  }

  lemma {:induction false} VersionNamesCount(stem: string, k: nat)
    ensures |VersionNames(stem, k)| == k
  {
    if k > 0 {
      VersionNamesCount(stem, k - 1);
      assert VersionNames(stem, k) == VersionNames(stem, k - 1) + {ArchiveName(stem, k)};
      if ArchiveName(stem, k) in VersionNames(stem, k - 1) {
        var v :| 1 <= v <= k - 1 && ArchiveName(stem, v) == ArchiveName(stem, k);
        ArchiveNameInjective(stem, v, k);
      }
    }
  }

  /** When the archive holds exactly versions 1..k of a stem, the next archive is version k+1 and afterwards it
      holds exactly versions 1..k+1. */
  lemma ArchiveNumbersConsecutive(archive: map<string, Samples>, stem: string, k: nat, content: Samples)
    requires Matching(archive, stem) == VersionNames(stem, k)
    ensures |Matching(archive, stem)| == k
    ensures Matching(archive[ArchiveName(stem, k + 1) := content], stem) == VersionNames(stem, k + 1)
  {
    VersionNamesCount(stem, k);
    var name := ArchiveName(stem, k + 1);
    ArchiveNameMatches(stem, k + 1);
    MatchingAdd(archive, stem, name, content);
    VersionNamesNext(stem, k);
  }

  /** Storing a name that matches the glob adds exactly that name to the matching set. */
  lemma MatchingAdd(archive: map<string, Samples>, stem: string, name: string, content: Samples)
    requires IsArchiveOf(stem, name)
    ensures Matching(archive[name := content], stem) == Matching(archive, stem) + {name}
  {
  }

  lemma VersionNamesNext(stem: string, k: nat)
    ensures VersionNames(stem, k + 1) == VersionNames(stem, k) + {ArchiveName(stem, k + 1)}
  {
  }

  /** Three archives of the same chunk, with no other changes to the archive directory, after versions 1..k of its
      stem (none when k = 0) are versions k+1, k+2 and k+3, and each keeps the audio it archived. */
  lemma ThreeArchives(files: map<string, Samples>, archive: map<string, Samples>, filename: string, k: nat,
                      second: Samples, third: Samples)
    requires filename in files
    requires Matching(archive, Stem(BaseName(filename))) == VersionNames(Stem(BaseName(filename)), k)
    ensures var stem := Stem(BaseName(filename));
            var s1 := ArchiveStep(files, archive, filename);
            var s2 := ArchiveStep(s1.files[filename := second], s1.archive, filename);
            var s3 := ArchiveStep(s2.files[filename := third], s2.archive, filename);
            && s1.destination == Some(ArchiveName(stem, k + 1))
            && s2.destination == Some(ArchiveName(stem, k + 2))
            && s3.destination == Some(ArchiveName(stem, k + 3))
            && s3.archive[ArchiveName(stem, k + 1)] == files[filename]
            && s3.archive[ArchiveName(stem, k + 2)] == second
            && s3.archive[ArchiveName(stem, k + 3)] == third
  {
    var stem := Stem(BaseName(filename));
    var s1 := ArchiveStep(files, archive, filename);
    ArchiveVersion(files, archive, filename, k);
    var s2 := ArchiveStep(s1.files[filename := second], s1.archive, filename);
    ArchiveVersion(s1.files[filename := second], s1.archive, filename, k + 1);
    ArchiveVersion(s2.files[filename := third], s2.archive, filename, k + 2);
    ArchiveNamesDiffer(stem, k + 1, k + 2);
    ArchiveNamesDiffer(stem, k + 1, k + 3);
    ArchiveNamesDiffer(stem, k + 2, k + 3);
  }

  lemma ArchiveNamesDiffer(stem: string, a: nat, b: nat)
    requires a != b
    ensures ArchiveName(stem, a) != ArchiveName(stem, b)
  {
    ArchiveNameInjective(stem, a, b);
  }

  /** Archiving over versions 1..k of the chunk's stem stores the file as version k+1. */
  lemma ArchiveVersion(files: map<string, Samples>, archive: map<string, Samples>, filename: string, k: nat)
    requires filename in files
    requires Matching(archive, Stem(BaseName(filename))) == VersionNames(Stem(BaseName(filename)), k)
    ensures var stem := Stem(BaseName(filename));
            var s := ArchiveStep(files, archive, filename);
            && s.destination == Some(ArchiveName(stem, k + 1))
            && s.archive == archive[ArchiveName(stem, k + 1) := files[filename]]
            && Matching(s.archive, stem) == VersionNames(stem, k + 1)
  {
    ArchiveNumbersConsecutive(archive, Stem(BaseName(filename)), k, files[filename]);
  }

  /** The version number counts archives instead of looking at their numbers: when version 1 has been removed by
      hand and only version 2 remains, the next archive is named version 2 again and replaces it. */
  lemma ArchiveGapOverwrites(files: map<string, Samples>, archive: map<string, Samples>, filename: string)
    requires filename in files
    requires Matching(archive, Stem(BaseName(filename))) == {ArchiveName(Stem(BaseName(filename)), 2)}
    ensures var stem := Stem(BaseName(filename));
            var s := ArchiveStep(files, archive, filename);
            && ArchiveName(stem, 2) in archive
            && s.destination == Some(ArchiveName(stem, 2))
            && s.archive[ArchiveName(stem, 2)] == files[filename]
  {
  }

  // ---------------------------------------------------------------------------
  // The project directory
  // ---------------------------------------------------------------------------

  /** The files of one project: the parsed project.json (None when absent), the chunks directory and the archive
      directory by file name, and the final mix. */
  class ProjectDir {
    var document: Option<Value>
    var chunkFiles: map<string, Samples>
    var archive: map<string, Samples>
    var finalMix: Option<Samples>

    constructor (document: Option<Value>, chunkFiles: map<string, Samples>, archive: map<string, Samples>)
      ensures this.document == document && this.chunkFiles == chunkFiles && this.archive == archive
      ensures finalMix.None?
    {
      this.document := document;
      this.chunkFiles := chunkFiles;
      this.archive := archive;
      this.finalMix := None;
    }

    /** _archive_chunk on this directory. */
    method ArchiveChunk(filename: string) returns (destination: Option<string>)
      modifies this
      ensures var a := ArchiveStep(old(chunkFiles), old(archive), filename);
              chunkFiles == a.files && archive == a.archive && destination == a.destination
      ensures document == old(document) && finalMix == old(finalMix)
    {
      if filename !in chunkFiles {
        return None;
      }
      var stem := Stem(BaseName(filename));
      var existing := set n | n in archive && IsArchiveOf(stem, n);
      var version := |existing| + 1;
      var name := ArchiveName(stem, version);
      archive := archive[name := chunkFiles[filename]];
      chunkFiles := chunkFiles - {filename};
      return Some(name);
    }

    /** write_flac into the chunks directory. */
    method WriteChunk(filename: string, audio: Samples)
      modifies this
      ensures chunkFiles == old(chunkFiles)[filename := audio]
      ensures document == old(document) && archive == old(archive) && finalMix == old(finalMix)
    {
      chunkFiles := chunkFiles[filename := audio];
    }

    /** save_project: the project document as to_dict writes it. */
    method Save(project: ProjectData)
      modifies this
      ensures document == Some(VMap(ProjectToDict(project.settings, project.chunks)))
      ensures chunkFiles == old(chunkFiles) && archive == old(archive) && finalMix == old(finalMix)
    {
      document := Some(VMap(ProjectToDict(project.settings, project.chunks)));
    }
  }

  // ---------------------------------------------------------------------------
  // generate_project
  // ---------------------------------------------------------------------------

  /** The record generate_project creates for span i (0-based) before the timeline is laid: chunk number i+1, its
      file name, seed global_seed + i, the span's text and offsets, the measured duration and the options. A render
      that raises, or a duration that cannot be measured, is the error. */
  function PlannedChunk(env: Collaborators, renderer: ChunkRenderer, span: Span, i: nat): (r: Result<ChunkData>)
    ensures r.Ok? ==>
              && r.value.index == i + 1 && r.value.filename == ChunkFilename(i + 1)
              && r.value.seed == renderer.settings.globalSeed + i
              && r.value.text == span.text && r.value.charStart == span.start && r.value.charEnd == span.end
              && r.value.tStartMs == 0 && r.value.params == AsDict(renderer.options) && r.value.speakerId == 0
    ensures var audio := renderer.Render(env, span.text, renderer.settings.globalSeed + i);
            && (audio.Err? ==> r == Err(audio.error))
            && (r.Ok? <==> audio.Ok? && DurationMs(audio.value, renderer.settings.sampleRate).Ok?)
  {
    var seed := renderer.settings.globalSeed + i;
    var audio :- renderer.Render(env, span.text, seed);
    var durationMs :- DurationMs(audio, renderer.settings.sampleRate);
    Ok(ChunkData(i + 1, ChunkFilename(i + 1), span.text, span.start, span.end, 0, durationMs, seed,
                 AsDict(renderer.options), 0))
  }

  /** The records for a list of spans, in order; the first span that cannot be rendered or measured raises. */
  function PlannedChunks(env: Collaborators, renderer: ChunkRenderer, spans: seq<Span>): (r: Result<seq<ChunkData>>)
    ensures r.Ok? ==> |r.value| == |spans|
  {
    if spans == [] then Ok([])
    else
      var n := |spans| - 1;
      var init := PlannedChunks(env, renderer, spans[..n]);
      if init.Err? then Err(init.error)
      else
        var last := PlannedChunk(env, renderer, spans[n], n);
        if last.Err? then Err(last.error) else Ok(init.value + [last.value])
  }

  /** Record i of a planned list is exactly what PlannedChunk gives span i, and the list is planned exactly when
      every span is. */
  lemma PlannedChunksElements(env: Collaborators, renderer: ChunkRenderer, spans: seq<Span>)
    ensures var r := PlannedChunks(env, renderer, spans);
            r.Ok? ==> forall i :: 0 <= i < |spans| ==> PlannedChunk(env, renderer, spans[i], i) == Ok(r.value[i])
    ensures PlannedChunks(env, renderer, spans).Ok? <==>
              forall i :: 0 <= i < |spans| ==> PlannedChunk(env, renderer, spans[i], i).Ok?
  {
    var r := PlannedChunks(env, renderer, spans);
    if r.Ok? {
      forall i | 0 <= i < |spans| ensures PlannedChunk(env, renderer, spans[i], i) == Ok(r.value[i]) {
        PlannedChunkAt(env, renderer, spans, i);
      }
    } else {
      PlannedChunksAllOk(env, renderer, spans);
    }
  }

  /** Record i of a planned list is what PlannedChunk gives span i. */
  lemma {:induction false} PlannedChunkAt(env: Collaborators, renderer: ChunkRenderer, spans: seq<Span>, i: nat)
    requires i < |spans| && PlannedChunks(env, renderer, spans).Ok?
    ensures PlannedChunk(env, renderer, spans[i], i) == Ok(PlannedChunks(env, renderer, spans).value[i])
    decreases |spans|
  {
    var n := |spans| - 1;
    var init := spans[..n];
    var ri := PlannedChunks(env, renderer, init);
    assert ri.Ok?;
    if i < n {
      PlannedChunkAt(env, renderer, init, i);
      assert init[i] == spans[i];
    }
  }

  /** A list whose spans all plan is planned. */
  lemma {:induction false} PlannedChunksAllOk(env: Collaborators, renderer: ChunkRenderer, spans: seq<Span>)
    ensures (forall i :: 0 <= i < |spans| ==> PlannedChunk(env, renderer, spans[i], i).Ok?) ==>
              PlannedChunks(env, renderer, spans).Ok?
    decreases |spans|
  {
    if spans != [] {
      var n := |spans| - 1;
      var init := spans[..n];
      PlannedChunksAllOk(env, renderer, init);
      if forall i :: 0 <= i < |spans| ==> PlannedChunk(env, renderer, spans[i], i).Ok? {
        forall i | 0 <= i < n ensures PlannedChunk(env, renderer, init[i], i).Ok? {
          assert init[i] == spans[i];
        }
      }
    }
  }

  /** Generated records are numbered 1..n in list order, so the list is in index order with unique indices. */
  lemma PlannedChunksOrdered(env: Collaborators, renderer: ChunkRenderer, spans: seq<Span>)
    requires PlannedChunks(env, renderer, spans).Ok?
    ensures var cs := PlannedChunks(env, renderer, spans).value;
            && (forall i :: 0 <= i < |cs| ==> cs[i].index == i + 1)
            && SortedByIndex(cs) && UniqueIndices(cs)
  {
    var cs := PlannedChunks(env, renderer, spans).value;
    PlannedChunksElements(env, renderer, spans);
    forall i | 0 <= i < |cs| ensures cs[i].index == i + 1 {
      assert PlannedChunk(env, renderer, spans[i], i) == Ok(cs[i]);
    }
  }

  /** An error in planning the last record, after the ones before it are planned, is the error of the whole list. */
  lemma PlannedChunksLastError(env: Collaborators, renderer: ChunkRenderer, spans: seq<Span>, n: nat, e: Error)
    requires n + 1 == |spans| && PlannedChunks(env, renderer, spans[..n]).Ok?
    requires PlannedChunk(env, renderer, spans[n], n) == Err(e)
    ensures PlannedChunks(env, renderer, spans) == Err(e)
  {
  }

  /** An error in planning the records before the last one is the error of the whole list. */
  lemma PlannedChunksKeepsError(env: Collaborators, renderer: ChunkRenderer, spans: seq<Span>, e: Error)
    requires spans != [] && PlannedChunks(env, renderer, spans[..|spans| - 1]) == Err(e)
    ensures PlannedChunks(env, renderer, spans) == Err(e)
  {
  }

  /** Once the records of a prefix are planned and the next one fails, planning the whole list fails with the
      same error. */
  lemma {:induction false} PlannedChunksFailure(env: Collaborators, renderer: ChunkRenderer, spans: seq<Span>, i: nat)
    requires i < |spans|
    requires PlannedChunks(env, renderer, spans[..i]).Ok?
    requires PlannedChunk(env, renderer, spans[i], i).Err?
    ensures PlannedChunks(env, renderer, spans) == Err(PlannedChunk(env, renderer, spans[i], i).error)
    decreases |spans|
  {
    var e := PlannedChunk(env, renderer, spans[i], i).error;
    if |spans| == i + 1 {
      PlannedChunksLastError(env, renderer, spans, i, e);
    } else {
      var init := spans[..|spans| - 1];
      assert init[..i] == spans[..i] && init[i] == spans[i];
      PlannedChunksFailure(env, renderer, init, i);
      PlannedChunksKeepsError(env, renderer, spans, e);
    }
  }

  /** The chunk directory after generate_project has rendered chunks 1..n: chunk k holds the audio rendered for
      span k-1 with seed global_seed + k - 1; a render that raises writes nothing. */
  ghost function RenderedFiles(files: map<string, Samples>, env: Collaborators, renderer: ChunkRenderer,
                               spans: seq<Span>, n: nat): map<string, Samples>
    requires n <= |spans|
  {
    if n == 0 then files
    else
      var before := RenderedFiles(files, env, renderer, spans, n - 1);
      match renderer.Render(env, spans[n - 1].text, renderer.settings.globalSeed + n - 1)
      case Ok(audio) => before[ChunkFilename(n) := audio]
      case Err(_) => before
  }

  /** Writing chunk number idx = n+1 (its file name and its audio) over the chunk directory after n chunks gives
      the chunk directory after n+1 chunks. */
  lemma RenderedFilesNext(files: map<string, Samples>, env: Collaborators, renderer: ChunkRenderer,
                          spans: seq<Span>, n: nat, current: map<string, Samples>, name: string, audio: Samples)
    requires n < |spans| && current == RenderedFiles(files, env, renderer, spans, n)
    requires name == ChunkFilename(n + 1)
    requires Ok(audio) == renderer.Render(env, spans[n].text, renderer.settings.globalSeed + n)
    ensures current[name := audio] == RenderedFiles(files, env, renderer, spans, n + 1)
  {
    assert n + 1 - 1 == n;
  }

  /** After n chunks are rendered, chunk file k (1 <= k <= n) holds the audio of span k-1, rendered with seed
      global_seed + k - 1, whenever that render succeeded. */
  lemma {:induction false} RenderedFilesContents(files: map<string, Samples>, env: Collaborators,
                                                 renderer: ChunkRenderer, spans: seq<Span>, n: nat)
    requires n <= |spans|
    ensures var r := RenderedFiles(files, env, renderer, spans, n);
            forall k :: 1 <= k <= n && renderer.Render(env, spans[k - 1].text, renderer.settings.globalSeed + k - 1).Ok?
              ==> ChunkFilename(k) in r
                  && Ok(r[ChunkFilename(k)])
                     == renderer.Render(env, spans[k - 1].text, renderer.settings.globalSeed + k - 1)
  {
    forall k | 1 <= k <= n && renderer.Render(env, spans[k - 1].text, renderer.settings.globalSeed + k - 1).Ok?
      ensures ChunkFilename(k) in RenderedFiles(files, env, renderer, spans, n)
      ensures Ok(RenderedFiles(files, env, renderer, spans, n)[ChunkFilename(k)])
              == renderer.Render(env, spans[k - 1].text, renderer.settings.globalSeed + k - 1)
    {
      RenderedFilesAt(files, env, renderer, spans, n, k);
    }
  }

  lemma ChunkFilenamesDiffer(a: nat, b: nat)
    requires a != b
    ensures ChunkFilename(a) != ChunkFilename(b)
  {
    ChunkFilenameInjective(a, b);
  }

  lemma {:induction false} RenderedFilesAt(files: map<string, Samples>, env: Collaborators,
                                           renderer: ChunkRenderer, spans: seq<Span>, n: nat, k: nat)
    requires 1 <= k <= n <= |spans|
    requires renderer.Render(env, spans[k - 1].text, renderer.settings.globalSeed + k - 1).Ok?
    ensures ChunkFilename(k) in RenderedFiles(files, env, renderer, spans, n)
    ensures Ok(RenderedFiles(files, env, renderer, spans, n)[ChunkFilename(k)])
            == renderer.Render(env, spans[k - 1].text, renderer.settings.globalSeed + k - 1)
  {
    var last := renderer.Render(env, spans[n - 1].text, renderer.settings.globalSeed + n - 1);
    var before := RenderedFiles(files, env, renderer, spans, n - 1);
    assert RenderedFiles(files, env, renderer, spans, n)
           == if last.Ok? then before[ChunkFilename(n) := last.value] else before;
    if k < n {
      RenderedFilesAt(files, env, renderer, spans, n - 1, k);
      ChunkFilenamesDiffer(k, n);
    }
  }

  /** Writing chunks 1..n leaves every other file of the chunk directory as it was. */
  lemma {:induction false} RenderedFilesKeepsOthers(files: map<string, Samples>, env: Collaborators,
                                                    renderer: ChunkRenderer, spans: seq<Span>, n: nat, f: string)
    requires n <= |spans| && f in files
    requires forall k :: 1 <= k <= n ==> f != ChunkFilename(k)
    ensures f in RenderedFiles(files, env, renderer, spans, n)
    ensures RenderedFiles(files, env, renderer, spans, n)[f] == files[f]
  {
    if n > 0 {
      RenderedFilesKeepsOthers(files, env, renderer, spans, n - 1, f);
      assert f != ChunkFilename(n);
    }
  }

  /** One pass of the generate_project loop before the file is written: chunk number i+1 is rendered with seed
      global_seed + i and measured, and its record starts at `start`. The record is the planned one placed at
      `start`, and a render that raises or a failed measurement is the planned error. */
  method RenderChunk(env: Collaborators, renderer: ChunkRenderer, span: Span, i: nat, start: int)
    returns (r: Result<(ChunkData, Samples)>)
    ensures r.Err? ==> PlannedChunk(env, renderer, span, i) == Err(r.error)
    ensures r.Ok? ==> PlannedChunk(env, renderer, span, i) == Ok(r.value.0.(tStartMs := 0))
    ensures r.Ok? ==> r.value.0.tStartMs == start && r.value.0.filename == ChunkFilename(i + 1)
    ensures r.Ok? ==> Ok(r.value.1) == renderer.Render(env, span.text, renderer.settings.globalSeed + i)
  {
    var idx := i + 1;
    var seed := renderer.settings.globalSeed + idx - 1;
    var rendered := renderer.Render(env, span.text, seed);
    if rendered.Err? {
      return Err(rendered.error);
    }
    var audio := rendered.value;
    var measured := DurationMs(audio, renderer.settings.sampleRate);
    if measured.Err? {
      return Err(measured.error);
    }
    var chunk := ChunkData(idx, ChunkFilename(idx), span.text, span.start, span.end, start, measured.value, seed,
                           AsDict(renderer.options), 0);
    return Ok((chunk, audio));
  }

  /** Planning one more span whose record can be made appends that record. */
  lemma PlannedChunksAppend(env: Collaborators, renderer: ChunkRenderer, spans: seq<Span>, n: nat,
                            init: seq<ChunkData>, last: ChunkData)
    requires n < |spans| && PlannedChunks(env, renderer, spans[..n]) == Ok(init)
    requires PlannedChunk(env, renderer, spans[n], n) == Ok(last)
    ensures PlannedChunks(env, renderer, spans[..n + 1]) == Ok(init + [last])
  {
    var prefix := spans[..n + 1];
    assert prefix[..n] == spans[..n];
    assert prefix[n] == spans[n];
  }

  /** The state of generate_project after the first i spans, on the values of the document, the chunk directory and
      the project: their records are planned, the project holds them retimed, the chunk directory holds their audio,
      and once a chunk exists the saved document is the project's. */
  ghost predicate GeneratedState(document: Option<Value>, chunkFiles: map<string, Samples>, settings: ProjectSettings,
                                 chunks: seq<ChunkData>, env: Collaborators, renderer: ChunkRenderer,
                                 spans: seq<Span>, files: map<string, Samples>, planned: seq<ChunkData>, i: nat)
  {
    && i <= |spans|
    && PlannedChunks(env, renderer, spans[..i]) == Ok(planned)
    && settings == renderer.settings
    && chunks == Retimed(planned, renderer.settings.crossfadeMs)
    && chunkFiles == RenderedFiles(files, env, renderer, spans, i)
    && (i > 0 ==> document == Some(VMap(ProjectToDict(settings, chunks))))
  }

  /** GeneratedState on a project directory and a project object, whose chunk list is in index order. */
  ghost predicate GeneratedUpTo(dir: ProjectDir, project: ProjectData, env: Collaborators, renderer: ChunkRenderer,
                                spans: seq<Span>, files: map<string, Samples>, planned: seq<ChunkData>, i: nat)
    reads dir, project
  {
    && GeneratedState(dir.document, dir.chunkFiles, project.settings, project.chunks, env, renderer, spans, files,
                      planned, i)
    && project.Valid()
  }

  /** One pass of the generate_project loop on the values: writing the audio of chunk i+1, adding its record placed at
      the running start and saving the document extends the state to i+1 spans, and the cursor moves to the next
      start. */
  lemma GeneratedStateNext(document: Option<Value>, chunkFiles: map<string, Samples>, settings: ProjectSettings,
                           chunks: seq<ChunkData>, env: Collaborators, renderer: ChunkRenderer, spans: seq<Span>,
                           files: map<string, Samples>, planned: seq<ChunkData>, i: nat, record: ChunkData,
                           chunk: ChunkData, audio: Samples)
    requires i < |spans|
    requires GeneratedState(document, chunkFiles, settings, chunks, env, renderer, spans, files, planned, i)
    requires PlannedChunk(env, renderer, spans[i], i) == Ok(record)
    requires chunk == record.(tStartMs := StartAt(planned, i, renderer.settings.crossfadeMs))
    requires Ok(audio) == renderer.Render(env, spans[i].text, renderer.settings.globalSeed + i)
    ensures var added := AddedChunk(chunks, chunk);
            GeneratedState(Some(VMap(ProjectToDict(settings, added))), chunkFiles[chunk.filename := audio], settings,
                           added, env, renderer, spans, files, planned + [record], i + 1)
    ensures Max(chunk.tStartMs + chunk.durationMs - renderer.settings.crossfadeMs, 0)
            == StartAt(planned + [record], i + 1, renderer.settings.crossfadeMs)
  {
    RenderedFilesNext(files, env, renderer, spans, i, chunkFiles, chunk.filename, audio);
    GenerateStep(env, renderer, spans, i, planned, record, chunk);
  }

  /** GeneratedStateNext on the project directory and the project after the chunk is saved. */
  lemma GeneratedUpToNext(dir: ProjectDir, project: ProjectData, env: Collaborators, renderer: ChunkRenderer,
                          spans: seq<Span>, files: map<string, Samples>, planned: seq<ChunkData>, i: nat,
                          record: ChunkData, chunk: ChunkData, audio: Samples, document0: Option<Value>,
                          chunkFiles0: map<string, Samples>, chunks0: seq<ChunkData>)
    requires i < |spans|
    requires GeneratedState(document0, chunkFiles0, project.settings, chunks0, env, renderer, spans, files, planned, i)
    requires PlannedChunk(env, renderer, spans[i], i) == Ok(record)
    requires chunk == record.(tStartMs := StartAt(planned, i, renderer.settings.crossfadeMs))
    requires Ok(audio) == renderer.Render(env, spans[i].text, renderer.settings.globalSeed + i)
    requires dir.chunkFiles == chunkFiles0[chunk.filename := audio]
    requires project.chunks == AddedChunk(chunks0, chunk) && project.Valid()
    requires dir.document == Some(VMap(ProjectToDict(project.settings, project.chunks)))
    ensures GeneratedUpTo(dir, project, env, renderer, spans, files, planned + [record], i + 1)
    ensures Max(chunk.tStartMs + chunk.durationMs - renderer.settings.crossfadeMs, 0)
            == StartAt(planned + [record], i + 1, renderer.settings.crossfadeMs)
  {
    GeneratedStateNext(document0, chunkFiles0, project.settings, chunks0, env, renderer, spans, files, planned, i,
                       record, chunk, audio);
  }

  /** The rest of one pass of the generate_project loop once chunk i+1 is rendered and measured: its file is written,
      its record added to the project at the running start, and the document saved. The result is the next running
      start. */
  method RecordChunk(dir: ProjectDir, project: ProjectData, env: Collaborators, renderer: ChunkRenderer,
                     spans: seq<Span>, i: nat, chunk: ChunkData, audio: Samples, ghost files: map<string, Samples>,
                     ghost planned: seq<ChunkData>, ghost record: ChunkData)
    returns (next: int)
    requires i < |spans| && GeneratedUpTo(dir, project, env, renderer, spans, files, planned, i)
    requires PlannedChunk(env, renderer, spans[i], i) == Ok(record)
    requires chunk == record.(tStartMs := StartAt(planned, i, renderer.settings.crossfadeMs))
    requires Ok(audio) == renderer.Render(env, spans[i].text, renderer.settings.globalSeed + i)
    modifies dir, project
    ensures dir.archive == old(dir.archive) && dir.finalMix == old(dir.finalMix)
    ensures GeneratedUpTo(dir, project, env, renderer, spans, files, planned + [record], i + 1)
    ensures next == StartAt(planned + [record], i + 1, renderer.settings.crossfadeMs)
  {
    ghost var document0, chunkFiles0, chunks0 := dir.document, dir.chunkFiles, project.chunks;
    SaveChunk(dir, project, chunk, audio);
    GeneratedUpToNext(dir, project, env, renderer, spans, files, planned, i, record, chunk, audio, document0,
                      chunkFiles0, chunks0);
    next := chunk.tStartMs + chunk.durationMs - renderer.settings.crossfadeMs;
    if next < 0 {
      next := 0;
    }
  }

  /** The end of one pass of the generate_project loop: the chunk's audio is written under its file name, the record
      is added to the project, and the document is saved. */
  method SaveChunk(dir: ProjectDir, project: ProjectData, chunk: ChunkData, audio: Samples)
    modifies dir, project
    ensures dir.chunkFiles == old(dir.chunkFiles)[chunk.filename := audio]
    ensures project.chunks == AddedChunk(old(project.chunks), chunk) && project.Valid()
    ensures dir.document == Some(VMap(ProjectToDict(project.settings, project.chunks)))
    ensures dir.archive == old(dir.archive) && dir.finalMix == old(dir.finalMix)
  {
    dir.WriteChunk(chunk.filename, audio);
    project.AddChunk(chunk);
    dir.Save(project);
  }

  /** What one pass of the generate_project loop establishes about the records: the records planned so far grow by
      the new record, adding the chunk placed at the running start to the retimed list retimes the grown list, and
      the cursor moves to the next start. */
  lemma GenerateStep(env: Collaborators, renderer: ChunkRenderer, spans: seq<Span>, i: nat, planned: seq<ChunkData>,
                     record: ChunkData, chunk: ChunkData)
    requires i < |spans| && PlannedChunks(env, renderer, spans[..i]) == Ok(planned)
    requires PlannedChunk(env, renderer, spans[i], i) == Ok(record)
    requires chunk == record.(tStartMs := StartAt(planned, i, renderer.settings.crossfadeMs))
    ensures PlannedChunks(env, renderer, spans[..i + 1]) == Ok(planned + [record])
    ensures SortedByIndex(Retimed(planned, renderer.settings.crossfadeMs))
    ensures AddedChunk(Retimed(planned, renderer.settings.crossfadeMs), chunk)
            == Retimed(planned + [record], renderer.settings.crossfadeMs)
    ensures Max(chunk.tStartMs + chunk.durationMs - renderer.settings.crossfadeMs, 0)
            == StartAt(planned + [record], i + 1, renderer.settings.crossfadeMs)
  {
    PlannedChunksAppend(env, renderer, spans, i, planned, record);
    PlannedNumbering(env, renderer, spans, i, planned, record);
    TimelineStep(planned, record, chunk, renderer.settings.crossfadeMs);
  }

  /** The records planned for the first i spans are numbered 1..i, and the next one is numbered i+1. */
  lemma PlannedNumbering(env: Collaborators, renderer: ChunkRenderer, spans: seq<Span>, i: nat,
                         planned: seq<ChunkData>, record: ChunkData)
    requires i < |spans| && PlannedChunks(env, renderer, spans[..i]) == Ok(planned)
    requires PlannedChunk(env, renderer, spans[i], i) == Ok(record)
    ensures |planned| == i && record.index == |planned| + 1
    ensures forall j :: 0 <= j < |planned| ==> planned[j].index == j + 1
  {
    PlannedChunksOrdered(env, renderer, spans[..i]);
  }

  /** The timeline half of GenerateStep: adding the chunk placed at the running start to the retimed list of
      records numbered 1..n retimes the grown list, and the cursor moves to the next start. */
  lemma TimelineStep(cs: seq<ChunkData>, record: ChunkData, chunk: ChunkData, crossfadeMs: int)
    requires forall j :: 0 <= j < |cs| ==> cs[j].index == j + 1
    requires record.index == |cs| + 1
    requires chunk == record.(tStartMs := StartAt(cs, |cs|, crossfadeMs))
    ensures SortedByIndex(Retimed(cs, crossfadeMs))
    ensures AddedChunk(Retimed(cs, crossfadeMs), chunk) == Retimed(cs + [record], crossfadeMs)
    ensures Max(chunk.tStartMs + chunk.durationMs - crossfadeMs, 0) == StartAt(cs + [record], |cs| + 1, crossfadeMs)
  {
    RetimedExtend(cs, record, crossfadeMs);
    NextStartAfter(cs, record, chunk, crossfadeMs);
  }

  /** The cursor after a chunk placed at the running start of a list is the start the timeline rule gives the
      next chunk of the grown list. */
  lemma NextStartAfter(cs: seq<ChunkData>, record: ChunkData, chunk: ChunkData, crossfadeMs: int)
    requires chunk == record.(tStartMs := StartAt(cs, |cs|, crossfadeMs))
    ensures Max(chunk.tStartMs + chunk.durationMs - crossfadeMs, 0) == StartAt(cs + [record], |cs| + 1, crossfadeMs)
  {
    StartAtPrefix(cs, record, |cs|, crossfadeMs);
    StartAtNext(cs + [record], |cs|, crossfadeMs);
  }

  /** The checkpoint left by a generate_project that fails at span i: the spans before it are planned, their audio is
      in the chunk directory, and the saved document is the project holding their records on the recalculated
      timeline (the document is untouched when the first span fails). */
  ghost predicate CheckpointedAt(document: Option<Value>, chunkFiles: map<string, Samples>, before: Option<Value>,
                                 files: map<string, Samples>, env: Collaborators, renderer: ChunkRenderer,
                                 spans: seq<Span>, i: nat)
  {
    && i < |spans|
    && PlannedChunks(env, renderer, spans[..i]).Ok?
    && PlannedChunk(env, renderer, spans[i], i).Err?
    && chunkFiles == RenderedFiles(files, env, renderer, spans, i)
    && (i == 0 ==> document == before)
    && (i > 0 ==> document == Some(VMap(ProjectToDict(renderer.settings,
                                          Retimed(PlannedChunks(env, renderer, spans[..i]).value,
                                                  renderer.settings.crossfadeMs)))))
  }

  /** generate_project: the options become the settings' default parameters; the script is mapped to spans (none
      raises); chunk i is rendered with seed global_seed + i - 1, written as chunk_{i:03d}.flac, added to the project
      at the running start, and the document is saved after every chunk. The starts laid incrementally are exactly
      the ones recalculate_timeline gives the same records. */
  method GenerateProject(dir: ProjectDir, env: Collaborators, script: string, rawChunks: seq<string>, root: string,
                         settings: ProjectSettings, options: TTSOptions, mock: bool)
    returns (r: Result<ProjectData>)
    modifies dir
    ensures dir.archive == old(dir.archive) && dir.finalMix == old(dir.finalMix)
    ensures var spans := ScriptSpans(script, rawChunks);
            var s := settings.(defaultParams := AsDict(options));
            var renderer := ChunkRenderer(s, options, mock);
            var planned := PlannedChunks(env, renderer, spans);
            && (spans == [] ==> r == Err(NoChunks) && unchanged(dir))
            && (spans != [] && planned.Err? ==>
                  && r == Err(planned.error)
                  && exists i :: CheckpointedAt(dir.document, dir.chunkFiles, old(dir.document), old(dir.chunkFiles),
                                                env, renderer, spans, i))
            && (spans != [] && planned.Ok? ==>
                  && r.Ok? && fresh(r.value) && r.value.Valid()
                  && r.value.root == root && r.value.settings == s
                  && r.value.chunks == Retimed(planned.value, s.crossfadeMs)
                  && dir.document == Some(VMap(ProjectToDict(s, r.value.chunks)))
                  && dir.chunkFiles == RenderedFiles(old(dir.chunkFiles), env, renderer, spans, |spans|))
  {
    var s := settings.(defaultParams := AsDict(options));
    var project := new ProjectData(root, s, []);
    var renderer := ChunkRenderer(s, options, mock);
    var specs := ChunkScript(script, rawChunks);
    if specs == [] {
      return Err(NoChunks);
    }
    ghost var planned: seq<ChunkData> := [];
    var nextStart := 0;
    for i := 0 to |specs|
      invariant GeneratedUpTo(dir, project, env, renderer, specs, old(dir.chunkFiles), planned, i)
      invariant nextStart == StartAt(planned, i, s.crossfadeMs)
      invariant project.root == root
      invariant i == 0 ==> dir.document == old(dir.document)
      invariant dir.archive == old(dir.archive) && dir.finalMix == old(dir.finalMix)
    {
      var step := RenderChunk(env, renderer, specs[i], i, nextStart);
      if step.Err? {
        PlannedChunksFailure(env, renderer, specs, i);
        assert CheckpointedAt(dir.document, dir.chunkFiles, old(dir.document), old(dir.chunkFiles), env, renderer,
                              specs, i);
        return Err(step.error);
      }
      ghost var record := step.value.0.(tStartMs := 0);
      nextStart := RecordChunk(dir, project, env, renderer, specs, i, step.value.0, step.value.1, old(dir.chunkFiles),
                               planned, record);
      planned := planned + [record];
    }
    assert specs[..|specs|] == specs;
    return Ok(project);
  }

  // ---------------------------------------------------------------------------
  // replace_chunk
  // ---------------------------------------------------------------------------

  /** The arguments of replace_chunk besides the project path. */
  datatype ReplaceRequest = ReplaceRequest(
    index: int,
    mode: string,
    timelineMode: string,
    seed: Option<int>,
    overrides: Option<Dict>,
    importPath: Option<string>,
    mock: bool)

  /** The overrides whose value is not None. */
  function NonNone(ov: Dict): (r: Dict)
    ensures forall k :: k in r <==> Overrides(ov, k)
    ensures forall k :: k in r ==> k in ov && r[k] == ov[k]
  {
    map k | k in ov && !ov[k].VNone? :: ov[k]
  }

  /** load_audio on an import path; an unreadable file raises. */
  function ImportAudio(env: Collaborators, path: string, sampleRate: int): (r: Result<Samples>)
    ensures env.importer(path, sampleRate).None? ==> r == Err(FileMissing(path))
    ensures env.importer(path, sampleRate).Some? ==> r == Ok(env.importer(path, sampleRate).value)
  {
    match env.importer(path, sampleRate)
    case None => Err(FileMissing(path))
    case Some(audio) => Ok(audio)
  }

  /** The mode branch of replace_chunk. In tts mode the chunk is re-rendered with the given seed (else its own) and
      the default options merged with the overrides, and its parameters become the defaults updated with every
      non-None override. In import mode the audio comes from the import path, the parameters are the old ones with
      "mode" set to "import", and the seed changes only if one is given. Any other mode, and import mode without a
      path, raise. Nothing but the seed and the parameters changes. */
  function Rerender(env: Collaborators, settings: ProjectSettings, defaults: TTSOptions, chunk: ChunkData,
                    req: ReplaceRequest): (r: Result<(ChunkData, Samples)>)
    ensures req.mode != "tts" && req.mode != "import" ==> r == Err(UnsupportedMode(req.mode))
    ensures req.mode == "import" && req.importPath.None? ==> r == Err(ImportPathRequired)
    ensures req.mode == "import" && req.importPath.Some? && env.importer(req.importPath.value, settings.sampleRate).None?
            ==> r == Err(FileMissing(req.importPath.value))
    ensures var rendered := ChunkRenderer(settings, defaults, req.mock)
                              .RenderText(env, chunk.text, req.seed.GetOr(chunk.seed), req.overrides);
            req.mode == "tts" && rendered.Err? ==> r == Err(rendered.error)
    ensures r.Ok? ==> r.value.0 == chunk.(seed := r.value.0.seed, params := r.value.0.params)
    ensures r.Ok? ==> r.value.0.seed == req.seed.GetOr(chunk.seed)
    ensures r.Ok? && req.mode == "tts" ==>
              && r.value.0.params == AsDict(defaults) + (if req.overrides.Some? then NonNone(req.overrides.value) else map[])
              && Ok(r.value.1) == ChunkRenderer(settings, defaults, req.mock)
                                    .RenderText(env, chunk.text, req.seed.GetOr(chunk.seed), req.overrides)
    ensures r.Ok? && req.mode == "import" ==>
              && r.value.0.params == chunk.params["mode" := VStr("import")]
              && Some(r.value.1) == env.importer(req.importPath.value, settings.sampleRate)
  {
    if req.mode == "tts" then
      var renderer := ChunkRenderer(settings, defaults, req.mock);
      var seed := req.seed.GetOr(chunk.seed);
      var audio :- renderer.RenderText(env, chunk.text, seed, req.overrides);
      var params := if req.overrides.Some? && req.overrides.value != map[]
                    then AsDict(defaults) + NonNone(req.overrides.value)
                    else AsDict(defaults);
      assert req.overrides.Some? && req.overrides.value == map[] ==> NonNone(req.overrides.value) == map[];
      Ok((chunk.(seed := seed, params := params), audio))
    else if req.mode == "import" then
      if req.importPath.None? then Err(ImportPathRequired)
      else
        var audio :- ImportAudio(env, req.importPath.value, settings.sampleRate);
        Ok((chunk.(seed := req.seed.GetOr(chunk.seed), params := chunk.params["mode" := VStr("import")]), audio))
    else Err(UnsupportedMode(req.mode))
  }

  /** The duration step of replace_chunk. The new audio's duration is always measured. In locked mode with a
      positive stored duration the audio is stretched to that duration and the stored duration is kept; otherwise
      the stored duration becomes the measured one and the audio is kept. Nothing else changes. */
  function Reconcile(chunk: ChunkData, audio: Samples, sampleRate: int, timelineMode: string, stretch: Stretch)
    : (r: Result<(ChunkData, Samples)>)
    ensures r.Ok? ==> DurationMs(audio, sampleRate).Ok?
    ensures r.Ok? ==> r.value.0 == chunk.(durationMs := r.value.0.durationMs)
    ensures r.Ok? && timelineMode == "locked" && chunk.durationMs > 0 ==>
              && r.value.0.durationMs == chunk.durationMs
              && Ok(r.value.1) == TimeStretchToDuration(audio, sampleRate, chunk.durationMs, stretch)
    ensures !(timelineMode == "locked" && chunk.durationMs > 0) ==>
              && (r.Ok? <==> DurationMs(audio, sampleRate).Ok?)
              && (r.Ok? ==> Ok(r.value.0.durationMs) == DurationMs(audio, sampleRate) && r.value.1 == audio)
  {
    var newDuration :- DurationMs(audio, sampleRate);
    if timelineMode == "locked" && chunk.durationMs > 0 then
      var stretched :- TimeStretchToDuration(audio, sampleRate, chunk.durationMs, stretch);
      Ok((chunk, stretched))
    else
      Ok((chunk.(durationMs := newDuration), audio))
  }

  /** In locked mode at a sample rate above 1000 Hz the audio written for the chunk measures exactly the stored
      duration, so the timeline stays valid. */
  lemma LockedAudioFitsTimeline(chunk: ChunkData, audio: Samples, sampleRate: int, stretch: Stretch)
    requires sampleRate > 1000 && chunk.durationMs > 0
    requires DurationMs(audio, sampleRate) != Ok(0)
    ensures var r := Reconcile(chunk, audio, sampleRate, "locked", stretch);
            && r.Ok?
            && r.value.0 == chunk
            && DurationMs(r.value.1, sampleRate) == Ok(chunk.durationMs)
  {
    if audio != [] {
      LockedDurationExact(audio, sampleRate, chunk.durationMs, stretch);
    }
  }

  /** The updated record and the audio to write for a found chunk: defaults, mode branch, duration step. */
  function UpdatedChunk(env: Collaborators, settings: ProjectSettings, chunk: ChunkData, req: ReplaceRequest)
    : (r: Result<(ChunkData, Samples)>)
    ensures r.Ok? ==> r.value.0 == chunk.(seed := r.value.0.seed, params := r.value.0.params,
                                          durationMs := r.value.0.durationMs)
    ensures r.Ok? && req.timelineMode == "locked" && chunk.durationMs > 0 ==> r.value.0.durationMs == chunk.durationMs
  {
    var defaults :- DefaultTtsOptions(settings);
    var rendered :- Rerender(env, settings, defaults, chunk, req);
    Reconcile(rendered.0, rendered.1, settings.sampleRate, req.timelineMode, env.stretch)
  }

  /** The chunk list replace_chunk saves: the updated record in place, and the timeline recomputed iff the timeline
      mode is "free". */
  function TimelineAfter(chunks: seq<ChunkData>, pos: nat, updated: ChunkData, timelineMode: string, crossfadeMs: int)
    : (r: seq<ChunkData>)
    requires pos < |chunks|
    ensures |r| == |chunks|
    ensures timelineMode == "free" ==> r == Retimed(chunks[pos := updated], crossfadeMs)
    ensures timelineMode != "free" ==> r == chunks[pos := updated]
  {
    var replaced := chunks[pos := updated];
    if timelineMode == "free" then Retimed(replaced, crossfadeMs) else replaced
  }

  /** Replacing a chunk in locked mode changes no start and no duration: every other chunk is untouched and the
      replaced one keeps its place on the timeline. */
  lemma LockedReplaceKeepsTimeline(env: Collaborators, settings: ProjectSettings, chunks: seq<ChunkData>, pos: nat,
                                   req: ReplaceRequest)
    requires pos < |chunks| && req.timelineMode == "locked" && chunks[pos].durationMs > 0
    requires UpdatedChunk(env, settings, chunks[pos], req).Ok?
    ensures var after := TimelineAfter(chunks, pos, UpdatedChunk(env, settings, chunks[pos], req).value.0, "locked",
                                       settings.crossfadeMs);
            && (forall i :: 0 <= i < |chunks| && i != pos ==> after[i] == chunks[i])
            && (forall i :: 0 <= i < |chunks| ==>
                  after[i].tStartMs == chunks[i].tStartMs && after[i].durationMs == chunks[i].durationMs)
  {
  }

  /** Replacing a chunk changes only the replaced record's seed, parameters and duration and, in free mode, the
      starts; the saved list stays in index order and loads back as it was saved. */
  lemma ReplaceKeepsOthers(env: Collaborators, settings: ProjectSettings, chunks: seq<ChunkData>, pos: nat,
                           req: ReplaceRequest)
    requires pos < |chunks| && SortedByIndex(chunks)
    requires UpdatedChunk(env, settings, chunks[pos], req).Ok?
    ensures var after := TimelineAfter(chunks, pos, UpdatedChunk(env, settings, chunks[pos], req).value.0,
                                       req.timelineMode, settings.crossfadeMs);
            && (forall i :: 0 <= i < |chunks| && i != pos ==> after[i] == chunks[i].(tStartMs := after[i].tStartMs))
            && SortedByIndex(after)
            && ParseDocument(VMap(ProjectToDict(settings, after))) == Ok((settings, after))
  {
    var updated := UpdatedChunk(env, settings, chunks[pos], req).value.0;
    var after := TimelineAfter(chunks, pos, updated, req.timelineMode, settings.crossfadeMs);
    TimelineAfterSorted(chunks, pos, updated, req.timelineMode, settings.crossfadeMs);
    DocumentRoundTrip(settings, after);
    SortedIsFixed(after);
  }

  /** Replacing a record by one with the same index, and retiming or not, keeps the list ordered and changes no other
      record except for its start. */
  lemma TimelineAfterSorted(chunks: seq<ChunkData>, pos: nat, updated: ChunkData, timelineMode: string,
                            crossfadeMs: int)
    requires pos < |chunks| && SortedByIndex(chunks) && updated.index == chunks[pos].index
    ensures var after := TimelineAfter(chunks, pos, updated, timelineMode, crossfadeMs);
            && (forall i :: 0 <= i < |chunks| && i != pos ==> after[i] == chunks[i].(tStartMs := after[i].tStartMs))
            && SortedByIndex(after)
  {
    var replaced := chunks[pos := updated];
    assert SortedByIndex(replaced) by {
      forall i, j | 0 <= i < j < |replaced| ensures replaced[i].index <= replaced[j].index {
        assert replaced[i].index == chunks[i].index && replaced[j].index == chunks[j].index;
      }
    }
    if timelineMode == "free" {
      RetimedKeepsOrder(replaced, crossfadeMs);
    }
  }

  /** What replace_chunk does to a project directory, from the state before the call to the state after it. The
      project is loaded and the chunk looked up first (an unknown index raises before anything changes); then the
      chunk file is archived, the new audio produced and reconciled with the timeline mode (a failure here leaves
      the archive done and the document unsaved), the new audio written, the record updated in place, the timeline
      recomputed in free mode, and the document saved. The updated record is returned. */
  twostate predicate Replaced(dir: ProjectDir, env: Collaborators, projectPath: string, req: ReplaceRequest,
                              new r: Result<ChunkData>)
    reads dir
  {
    && dir.finalMix == old(dir.finalMix)
    && (old(dir.document).None? ==> r == Err(FileMissing(projectPath)) && unchanged(dir))
    && (old(dir.document).Some? && ParseDocument(old(dir.document).value).Err? ==> r.Err? && unchanged(dir))
    && (old(dir.document).Some? && ParseDocument(old(dir.document).value).Ok? ==>
          var settings := ParseDocument(old(dir.document).value).value.0;
          var chunks := SortByIndex(ParseDocument(old(dir.document).value).value.1);
          var pos := ChunkPosition(chunks, req.index);
          && (pos.None? ==> r == Err(ChunkNotFound(req.index)) && unchanged(dir))
          && (pos.Some? ==>
                var chunk := chunks[pos.value];
                var archived := ArchiveStep(old(dir.chunkFiles), old(dir.archive), chunk.filename);
                var outcome := UpdatedChunk(env, settings, chunk, req);
                && dir.archive == archived.archive
                && (outcome.Err? ==>
                      r == Err(outcome.error) && dir.chunkFiles == archived.files
                      && dir.document == old(dir.document))
                && (outcome.Ok? ==>
                      var after := TimelineAfter(chunks, pos.value, outcome.value.0, req.timelineMode,
                                                 settings.crossfadeMs);
                      && r == Ok(after[pos.value])
                      && dir.chunkFiles == archived.files[chunk.filename := outcome.value.1]
                      && dir.document == Some(VMap(ProjectToDict(settings, after))))))
  }

  /** replace_chunk on a project directory. */
  method ReplaceChunk(dir: ProjectDir, env: Collaborators, projectPath: string, req: ReplaceRequest)
    returns (r: Result<ChunkData>)
    modifies dir
    ensures Replaced(dir, env, projectPath, req, r)
  {
    var loaded := LoadProject(dir.document, projectPath);
    if loaded.Err? {
      return Err(loaded.error);
    }
    var project := loaded.value;
    var pos := ChunkPosition(project.chunks, req.index);
    if pos.None? {
      return Err(ChunkNotFound(req.index));
    }
    var chunk := project.chunks[pos.value];
    var archived := dir.ArchiveChunk(chunk.filename);
    var defaults := DefaultTtsOptions(project.settings);
    if defaults.Err? {
      return Err(defaults.error);
    }
    var rendered := Rerender(env, project.settings, defaults.value, chunk, req);
    if rendered.Err? {
      return Err(rendered.error);
    }
    var reconciled := Reconcile(rendered.value.0, rendered.value.1, project.settings.sampleRate, req.timelineMode,
                                env.stretch);
    if reconciled.Err? {
      return Err(reconciled.error);
    }
    var updated := reconciled.value.0;
    dir.WriteChunk(chunk.filename, reconciled.value.1);
    project.SetChunk(pos.value, updated);
    if req.timelineMode == "free" {
      project.RecalculateTimeline();
    }
    dir.Save(project);
    return Ok(project.chunks[pos.value]);
  }

  // ---------------------------------------------------------------------------
  // build_final_mix and find_chunk
  // ---------------------------------------------------------------------------

  /** The first chunk, in list order, whose file is missing from the chunks directory. */
  function MissingChunk(chunks: seq<ChunkData>, files: map<string, Samples>): (r: Option<nat>)
    ensures r.None? <==> forall i :: 0 <= i < |chunks| ==> chunks[i].filename in files
    ensures r.Some? ==> r.value < |chunks| && chunks[r.value].filename !in files
                        && forall i :: 0 <= i < r.value ==> chunks[i].filename in files
  {
    FirstWhere(chunks, (c: ChunkData) => c.filename !in files)
  }

  /** The audio of every chunk, in list order. */
  function ChunkAudios(chunks: seq<ChunkData>, files: map<string, Samples>): (r: seq<Samples>)
    requires forall i :: 0 <= i < |chunks| ==> chunks[i].filename in files
    ensures |r| == |chunks| && forall i :: 0 <= i < |chunks| ==> r[i] == files[chunks[i].filename]
  {
    seq(|chunks|, i requires 0 <= i < |chunks| => files[chunks[i].filename])
  }

  /** The loading loop of build_final_mix: the audio of every chunk in list order, or, at the first chunk whose file
      is missing, an error naming its path in the chunks directory. */
  method LoadChunkAudios(chunks: seq<ChunkData>, files: map<string, Samples>, chunksDir: string)
    returns (r: Result<seq<Samples>>)
    ensures MissingChunk(chunks, files).Some? ==>
              r == Err(FileMissing(JoinPath(chunksDir, chunks[MissingChunk(chunks, files).value].filename)))
    ensures MissingChunk(chunks, files).None? ==> r == Ok(ChunkAudios(chunks, files))
  {
    var chunkAudios: seq<Samples> := [];
    for i := 0 to |chunks|
      invariant |chunkAudios| == i
      invariant forall k :: 0 <= k < i ==> chunks[k].filename in files
      invariant forall k :: 0 <= k < i ==> chunkAudios[k] == files[chunks[k].filename]
    {
      var filename := chunks[i].filename;
      if filename !in files {
        MissingChunkAt(chunks, files, i);
        return Err(FileMissing(JoinPath(chunksDir, filename)));
      }
      chunkAudios := chunkAudios + [files[filename]];
    }
    assert chunkAudios == ChunkAudios(chunks, files);
    return Ok(chunkAudios);
  }

  /** The first missing chunk is the one after a present prefix. */
  lemma MissingChunkAt(chunks: seq<ChunkData>, files: map<string, Samples>, i: nat)
    requires i < |chunks| && chunks[i].filename !in files
    requires forall k :: 0 <= k < i ==> chunks[k].filename in files
    ensures MissingChunk(chunks, files) == Some(i)
  {
  }

  /** What build_final_mix makes of a loaded project: the final mix path and the stitched, normalised audio of the
      chunks in list order, or the error naming the path of the first chunk whose file is missing. */
  function FinalMix(settings: ProjectSettings, chunks: seq<ChunkData>, root: string, files: map<string, Samples>,
                    env: Collaborators): (r: Result<(string, Samples)>)
    ensures r.Err? <==> exists k :: 0 <= k < |chunks| && chunks[k].filename !in files
    ensures r.Ok? ==> r.value.0 == JoinPath(root, settings.finalMix)
  {
    match MissingChunk(chunks, files)
    case Some(k) => Err(FileMissing(JoinPath(JoinPath(root, settings.chunksDir), chunks[k].filename)))
    case None =>
      var mix := Stitched(ChunkAudios(chunks, files), CrossfadeSamples(settings.sampleRate, settings.crossfadeMs), env.blend);
      Ok((JoinPath(root, settings.finalMix), env.normalise(mix, settings.loudnessLufs)))
  }

  /** build_final_mix: the project is loaded (a missing or malformed document raises), every chunk file is loaded in
      index order (the first missing one raises, naming its path), the audio is stitched with the project crossfade,
      normalised to the project loudness and written as the final mix, whose path is returned. Only the final mix
      changes. */
  method BuildFinalMix(dir: ProjectDir, env: Collaborators, projectPath: string) returns (r: Result<string>)
    modifies dir
    ensures dir.document == old(dir.document) && dir.chunkFiles == old(dir.chunkFiles) && dir.archive == old(dir.archive)
    ensures old(dir.document).None? ==> r == Err(FileMissing(projectPath)) && dir.finalMix == old(dir.finalMix)
    ensures old(dir.document).Some? && ParseDocument(old(dir.document).value).Err? ==>
              r.Err? && dir.finalMix == old(dir.finalMix)
    ensures old(dir.document).Some? && ParseDocument(old(dir.document).value).Ok? ==>
              var parsed := ParseDocument(old(dir.document).value).value;
              var mix := FinalMix(parsed.0, SortByIndex(parsed.1), ParentDir(projectPath), dir.chunkFiles, env);
              && (mix.Err? ==> r == Err(mix.error) && dir.finalMix == old(dir.finalMix))
              && (mix.Ok? ==> r == Ok(mix.value.0) && dir.finalMix == Some(mix.value.1))
  {
    var loaded := LoadProject(dir.document, projectPath);
    if loaded.Err? {
      return Err(loaded.error);
    }
    r := MixProject(dir, env, loaded.value);
  }

  /** build_final_mix after the project is loaded: the chunk audio is loaded, stitched, normalised and written as the
      final mix; a missing chunk file raises before anything is written. */
  method MixProject(dir: ProjectDir, env: Collaborators, project: ProjectData) returns (r: Result<string>)
    modifies dir
    ensures dir.document == old(dir.document) && dir.chunkFiles == old(dir.chunkFiles) && dir.archive == old(dir.archive)
    ensures var mix := FinalMix(project.settings, project.chunks, project.root, dir.chunkFiles, env);
            && (mix.Err? ==> r == Err(mix.error) && dir.finalMix == old(dir.finalMix))
            && (mix.Ok? ==> r == Ok(mix.value.0) && dir.finalMix == Some(mix.value.1))
  {
    var audios := LoadChunkAudios(project.chunks, dir.chunkFiles, project.ChunksDirectory());
    if audios.Err? {
      return Err(audios.error);
    }
    var combined := StitchChunks(audios.value, project.settings.sampleRate, project.settings.crossfadeMs, env.blend);
    var normalised := env.normalise(combined, project.settings.loudnessLufs);
    dir.finalMix := Some(normalised);
    return Ok(project.FinalMixPath());
  }

  /** find_chunk: load the project and look the timestamp up. */
  method FindChunk(dir: ProjectDir, projectPath: string, timestampMs: int) returns (r: Result<Option<ChunkData>>)
    ensures dir.document.None? ==> r == Err(FileMissing(projectPath))
    ensures dir.document.Some? && ParseDocument(dir.document.value).Err? ==> r == Err(ParseDocument(dir.document.value).error)
    ensures dir.document.Some? && ParseDocument(dir.document.value).Ok? ==>
              r == Ok(FindChunkByTimestamp(SortByIndex(ParseDocument(dir.document.value).value.1), timestampMs))
  {
    var loaded := LoadProject(dir.document, projectPath);
    if loaded.Err? {
      return Err(loaded.error);
    }
    return Ok(FindChunkByTimestamp(loaded.value.chunks, timestampMs));
  }
}
