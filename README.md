# VibeVoice project core, modelled in Dafny

This project models the project core of VibeVoice-ComfyUI. A script is cut into chunks. Each chunk is rendered to
audio with its own seed and laid out on a timeline where consecutive chunks overlap by a crossfade. A project is
kept as a `project.json` document beside a directory of chunk files. One chunk can be replaced later, by
re-rendering it or by importing audio. The replaced file is first moved to a versioned archive (`{stem}__v{N}.flac`),
and the new audio is then stretched to keep the timeline ("locked") or the timeline is recomputed ("free"). All
chunks can finally be stitched with cosine crossfades into a loudness-matched final mix.

The model has one module per concern:

- `Wrappers`: `Option`, `Result` and the error kinds the core raises.
- `Text`: the Python string built-ins the core relies on: `strip`, `find`, `replace`, `lower`, `str(int)`,
  `int(str)` and the `:03d` format.
- `Paths`: joining, parent, name and stem of `/`-separated paths.
- `Values`: JSON values and Python's `int()`, `float()`, `str()` and `dict()` coercions on them.
- `Numeric`: Python's `round`, which rounds half to even, computed exactly on rationals.
- `Audio` (`vvproject/audio.py`): the duration, the cosine crossfade, stitching and time-stretching to a duration.
- `Project` (`vvproject/project.py`):
  - the settings and chunk records with their dictionary codecs;
  - the `ProjectData` class, whose chunk list is updated in place;
  - the timeline rule and the timestamp lookup;
  - the document codec.
- `Engine` (`vvproject/engine.py`):
  - the rendering options and their overrides;
  - locating chunks in the script;
  - the archiver;
  - `generate_project`, `replace_chunk`, `build_final_mix` and `find_chunk`.

  These run against a `ProjectDir` class that holds the project document, the chunk files, the archive and the
  final mix.
- `Utils` (`vvproject/utils.py`): `{repo}` expansion, the mock-mode switch and script loading.
- `ChunkEditor` (`nodes/vv_chunk_editor.py`): the chunk editor node, which turns its "not set" input values into a
  `replace_chunk` request.

The TTS model, the audio importer, the time-stretcher, the crossfade curve and loudness matching are parameters
(`Collaborators`, `Stretch`, `Blend`). Their results are treated as arbitrary sample sequences, so every property
holds whatever they return. The renderers may also fail, as the TTS model raises on loading, generating or
resampling, and their failure is an error result.

Main results:

- **Codecs.** Settings, chunk records and whole documents survive a save and a load.
- **Timeline.** The timeline rule is: the first chunk starts at 0, and each next one starts where the previous one
  ends minus the crossfade, never before 0. `Retimed` is the unique timeline that follows it and is idempotent.
- **Incremental generation.** The start times `generate_project` computes one chunk at a time are the ones
  `recalculate_timeline` would compute for the finished project.
- **Checkpoints.** When rendering chunk `i` raises, or its duration cannot be measured, the saved document holds
  exactly chunks `1..i-1` on the correct timeline. When the first chunk fails, the document is left as it was.
- **Archives.** Replacing a chunk three times archives `v1`, `v2` and `v3` in order, each holding the audio it
  replaced. The version number is a count of the existing archive files. So after an externally deleted `__v1`, the
  next archive is written to `__v2` and overwrites the `__v2` that is already there (`Engine.ArchiveGapOverwrites`).
  This is what the code does, although a count of archive files is meant to tolerate deleted files.
- **Locked mode.** A locked replacement of a chunk with a positive stored duration keeps every start time and
  duration of the project. A chunk whose stored duration is 0 (a record without `duration_ms` loads that way)
  records the new audio's duration instead, and the timeline is not recalculated.
- **Timestamp lookup.** `find_chunk_by_timestamp` returns the lowest-index chunk covering the timestamp. When no
  chunk covers it, it returns the last chunk if the timestamp is at or after that chunk's start, and `None`
  otherwise. `None` is meant to happen only before the first chunk or with no chunks. The code also returns
  `None` for a timestamp that falls in a gap between chunks before the last start. The model follows the code
  (`Project.FindChunkByTimestamp`).

## Model

| member | source | states |
|---|---|---|
| Text.TrimStartSpec | vvproject/engine.py:146 | lstrip removes exactly the leading whitespace: the result is a suffix of the input, everything cut was whitespace, and the result does not start with whitespace |
| Text.TrimEndSpec | vvproject/engine.py:146 | rstrip removes exactly the trailing whitespace: the result is a prefix, everything cut was whitespace, and the result does not end with whitespace |
| Text.StripSpec | vvproject/engine.py:146-148 | strip's result neither starts nor ends with whitespace, and it is empty exactly when the input is blank (the `if not chunk_text` test) |
| Text.FindFrom | vvproject/engine.py:149 | str.find from a start position returns -1 or a position at or after the start where the substring occurs |
| Text.FindFromFirst | vvproject/engine.py:149-151 | str.find returns -1 exactly when there is no occurrence at or after the start, and otherwise the first such occurrence |
| Text.ReplaceAll | vvproject/utils.py:66 | str.replace leaves a string without the pattern unchanged |
| Text.ReplaceAllLeading | vvproject/utils.py:66 | str.replace replaces a leading occurrence and carries on after it, so occurrences never overlap |
| Text.Lower | vvproject/utils.py:87 | str.lower keeps the length, leaves no upper-case letter, turns each upper-case letter into the same letter in lower case and keeps every other character |
| Text.LowerIdempotent | vvproject/utils.py:87 | lowering twice is lowering once |
| Text.NatToString | vvproject/engine.py:181 | str() of a non-negative integer is a non-empty digit string whose value is the number |
| Text.IntToString | vvproject/project.py:40-45 | str() of an integer is an optional minus sign followed by the digits of its absolute value, with no surrounding whitespace |
| Text.Pad3Value | vvproject/engine.py:211 | the `:03d` format gives at least three digits whose value is the number |
| Text.ParseInt | vvproject/project.py:40 | int() of a blank string fails |
| Text.ParseIntLiteral | vvproject/project.py:40 | int() accepts whitespace, an optional sign, one or more digits and whitespace, with the value of the signed digits |
| Text.ParseIntOnlyLiterals | vvproject/project.py:40 | int() accepts nothing else: every string it accepts is such a literal, read with that value |
| Text.ParseIntToString | vvproject/project.py:40-45 | int(str(i)) == i for every integer |
| Paths.JoinPath | vvproject/project.py:101-115 | joining with an absolute name gives that name; otherwise the result starts with the base and ends with the name |
| Paths.ParentDir | vvproject/project.py:146 | Path.parent is "." for a name without a slash, and otherwise a non-empty prefix of the path |
| Paths.BaseName | vvproject/engine.py:173-178 | the file name is a suffix of the path containing no slash |
| Paths.Stem | vvproject/engine.py:178 | the stem is the name, or a proper prefix followed by the last dot, which is neither the first nor the last character |
| Values.Truncate | vvproject/project.py:40 | int() of a float truncates toward zero |
| Values.IntStrRoundTrip | vvproject/project.py:40-45 | int(str(i)) == i for every integer, so a seed or rate stored as a string reads back as itself |
| Values.IntFloatRoundTrip | vvproject/project.py:40-41 | int(float(i)) == i for every integer a double holds exactly (abs(i) <= 2^53) |
| Numeric.RoundHalfEven | vvproject/audio.py:32 | round(p/q) is within half a unit of p/q, and an exact tie goes to the even integer |
| Numeric.RoundNearest | vvproject/audio.py:32 | any integer strictly within half a unit of p/q is the rounded value |
| Audio.DurationMs | vvproject/audio.py:28-32 | empty audio lasts 0 ms; otherwise a zero rate raises and a positive rate gives a non-negative duration |
| Audio.DurationMsNearest | vvproject/audio.py:32 | the duration is the millisecond count nearest to len*1000/rate, ties to even |
| Audio.Overlap | vvproject/audio.py:54-58 | the overlap is no longer than either signal and, when positive, no longer than the requested crossfade |
| Audio.CosineCrossfade | vvproject/audio.py:52-67 | the crossfaded signal is as long as both inputs minus the overlap |
| Audio.CosineCrossfadeSpec | vvproject/audio.py:52-67 | without overlap the result is the concatenation; otherwise it is the first signal's unfaded prefix, then the blended overlap sample by sample, then the second signal's remainder |
| Audio.StitchChunks | vvproject/audio.py:70-80 | the stitching loop returns the left fold of crossfades, [] for no chunks and the chunk itself for one |
| Audio.StitchedLength | vvproject/audio.py:70-80 | when every chunk is at least one crossfade long, the mix is the total length minus one crossfade per junction |
| Audio.StitchedWithoutCrossfade | vvproject/audio.py:54-55 | with a non-positive crossfade, stitching is plain concatenation |
| Audio.FitLength | vvproject/audio.py:96-99 | the stretched audio is truncated or zero-padded to exactly the desired length |
| Audio.TimeStretchToDuration | vvproject/audio.py:83-101 | non-positive targets, empty audio and zero-length durations pass through; a zero rate raises; otherwise the result has the desired sample count and holds the stretched audio, zero-padded |
| Audio.LockedDurationExact | vvproject/audio.py:83-101 | at rates above 1 kHz, stretching to a positive target gives audio whose measured duration is exactly the target |
| Project.SettingsToDict | vvproject/project.py:21-34 | the settings dict has the eight setting keys, plus default_params only when it is non-empty |
| Project.SettingsFromDict | vvproject/project.py:36-49 | each missing key takes its documented default (24000, -16.0, VibeVoice-Large, auto, 42, 40, chunks, final_mix.flac, {}), and an empty dict gives the default settings |
| Project.SettingsToDictFields | vvproject/project.py:22-33 | each setting is stored under its key, and default_params reads back as the stored map |
| Project.SettingsRoundTrip | vvproject/project.py:21-49 | from_dict(to_dict(s)) == s |
| Project.ChunkToDict | vvproject/project.py:65-77 | the chunk dict has exactly the ten chunk keys |
| Project.ChunkFromDict | vvproject/project.py:79-92 | a missing index or filename raises KeyError; every other missing field takes its default |
| Project.ChunkRoundTrip | vvproject/project.py:65-92 | from_dict(to_dict(c)) == c |
| Project.ChunkDefaults | vvproject/project.py:84-91 | a record holding only index and filename loads with empty text, zero offsets, times, seed and speaker, and no params |
| Project.InsertByIndex | vvproject/project.py:134 | inserting by index adds exactly the new chunk and keeps a sorted list sorted |
| Project.SortByIndex | vvproject/project.py:150 | sorting by index gives a sorted permutation |
| Project.InsertByIndexStable | vvproject/project.py:134 | insertion is stable: the chunks with any one index keep their order, and the new chunk follows those with its index |
| Project.SortByIndexStable | vvproject/project.py:150 | sorting by index is stable, as list.sort is: the chunks with any one index keep their input order |
| Project.SortedIsFixed | vvproject/project.py:134 | sorting an already sorted list leaves it unchanged, as the stable sort does |
| Project.SortIdempotent | vvproject/project.py:150 | sorting twice is sorting once |
| Project.InsertKeepsUnique | vvproject/project.py:134 | inserting a chunk with a new index keeps the indices unique |
| Project.SortKeepsUnique | vvproject/project.py:150 | sorting keeps the indices unique |
| Project.FirstWhere | vvproject/project.py:124-127 | the linear scan returns the first position satisfying the test, or None when none does |
| Project.GetChunk | vvproject/project.py:123-127 | get_chunk returns the first chunk with the index, and None exactly when no chunk has it |
| Project.WithoutIndex | vvproject/project.py:130-132 | the list is unchanged when no chunk has the index, and otherwise loses exactly the first such chunk |
| Project.AddedChunk | vvproject/project.py:129-134 | add_chunk's result is sorted, contains the new chunk, and holds the old chunks less the replaced one |
| Project.WithoutIndexKeepsOthers | vvproject/project.py:130-132 | with unique indices, removal keeps exactly the chunks with other indices |
| Project.RemoveAtMembers | vvproject/project.py:132 | list.remove at the position of a unique index leaves exactly the chunks with other indices |
| Project.AddChunkReplaces | vvproject/project.py:129-134 | with unique indices, add_chunk keeps them unique, replaces the chunk with the same index and keeps every other chunk |
| Project.AddChunkAppends | vvproject/project.py:133-134 | adding a chunk whose index is above all others to a sorted list appends it |
| Project.StartAt | vvproject/project.py:155-160 | the start time the loop gives the i-th chunk is never negative |
| Project.Retimed | vvproject/project.py:154-160 | recalculating keeps the number of chunks and every field except t_start_ms, and every start is non-negative |
| Project.RetimedFollowsRule | vvproject/project.py:154-160 | the first chunk starts at 0, and each next starts at max(previous start + previous duration - crossfade, 0) |
| Project.RetimedUnique | vvproject/project.py:154-160 | any list that changes only start times and follows the timeline rule is the recalculated one |
| Project.RetimedIdempotent | vvproject/project.py:154-160 | recalculating twice is recalculating once |
| Project.RetimedKeepsOrder | vvproject/project.py:156 | recalculating keeps a sorted list sorted |
| Project.StartAtNext | vvproject/project.py:157-160 | the next start is the current start plus the duration minus the crossfade, floored at 0 |
| Project.RetimedAppend | vvproject/project.py:154-160 | recalculating a list with one more chunk appends that chunk at the start the loop has reached |
| Project.RetimedExtend | vvproject/engine.py:221-229 | adding the next-numbered chunk at the running start to a recalculated timeline gives the recalculated timeline of the longer list |
| Project.TimelineExample | vvproject/project.py:154-160 | three one-second chunks with a 100 ms crossfade start at 0, 900 and 1800 |
| Project.FindChunkByTimestamp | vvproject/project.py:163-171 | the result is a project chunk; when some chunk covers the timestamp it covers it and has the lowest such index; otherwise it is the last chunk when the timestamp is at or after that chunk's start, else None |
| Project.FindExample | vvproject/project.py:163-171 | chunks (0,1000) and (900,1000) give the first at 500, the second at 1500, the second by tail fallback at 5000, and None at -1 |
| Project.ProjectToDictSpec | vvproject/project.py:117-121 | the document has a project section holding the settings dict and a chunk list holding the chunk dicts in index order |
| Project.ChunksFromValues | vvproject/project.py:148 | the chunk list loads when every entry does, and each loaded chunk is its entry's decoding |
| Project.ParseDocument | vvproject/project.py:144-148 | a non-object document fails and an empty object loads as default settings with no chunks |
| Project.DocumentRoundTrip | vvproject/project.py:137-151 | loading a saved project gives its settings and its chunks sorted by index |
| Project.SaveLoadSave | vvproject/project.py:137-151 | saving a loaded project writes the same document again |
| Project.ProjectData.constructor | vvproject/project.py:95-99 | a project holds the given root, settings and chunks |
| Project.ProjectData.AddChunk | vvproject/project.py:129-134 | add_chunk updates the chunk list in place to AddedChunk and keeps it sorted |
| Project.ProjectData.SortChunks | vvproject/project.py:150 | sorting in place gives the sorted permutation of the old list |
| Project.ProjectData.SetChunk | vvproject/engine.py:264-285 | writing fields of one chunk in place changes that position only and keeps the list sorted |
| Project.ProjectData.RecalculateTimeline | vvproject/project.py:154-160 | recalculate_timeline sets the chunk list to its recalculated timeline and keeps it sorted |
| Project.RetimeChunks | vvproject/project.py:155-160 | the loop computes exactly Retimed |
| Project.RetimedUpToNext | vvproject/project.py:156-160 | one loop iteration extends the correctly timed prefix by one chunk, and after the last one the whole list is Retimed |
| Project.LoadProject | vvproject/project.py:144-151 | a missing file raises, a malformed document raises its parse error, and otherwise the project is rooted at the file's parent with the parsed settings and the chunks sorted by index |
| Engine.AsDict | vvproject/engine.py:46-53 | the options dict has exactly the five option keys |
| Engine.DefaultTtsOptions | vvproject/engine.py:161-169 | empty default params give the built-in options (1.3, 20, False, 0.95, 0.95), and use_sampling is the truthiness of the stored value |
| Engine.OptionsRoundTrip | vvproject/engine.py:161-169 | options stored as default params by generate_project read back as the same options |
| Engine.MergeOverrides | vvproject/engine.py:81-90 | each non-None override of a known key replaces that option after coercion (bool, int or float), other options keep their value, and the merge fails exactly when a coercion fails |
| Engine.MergeIgnoresOtherKeys | vvproject/engine.py:82-84 | override keys that are not option names have no effect |
| Engine.MergeWithoutEffect | vvproject/engine.py:82-84 | overrides holding only None for the option keys leave the options unchanged |
| Engine.ChunkRenderer.RenderText | vvproject/engine.py:76-125 | mock mode and no overrides render with the stored options; otherwise the model is made ready first and a load failure is the error whatever the overrides are, then a failing merge is the error, and else the model is called with the merged options and its exception, if any, is the error |
| Engine.Locate | vvproject/engine.py:149-153 | the start of a chunk is either the cursor or a position where its text occurs |
| Engine.LocatePlacement | vvproject/engine.py:149-153 | the first occurrence at or after the cursor wins; failing that, the first occurrence anywhere; failing that, the cursor |
| Engine.LocateFinds | vvproject/engine.py:149-151 | a text that occurs in the script is located at an occurrence, and at or after the cursor when it occurs there |
| Engine.KeptTextsSpec | vvproject/engine.py:145-148 | the kept chunk texts are non-empty and stripped, and there are no more of them than raw chunks |
| Engine.KeptTextsDropBlank | vvproject/engine.py:146-148 | a blank raw chunk is skipped and any other is kept stripped, in order |
| Engine.SpansOf | vvproject/engine.py:154-157 | there is one span per kept text, carrying that text and ending its length after its start |
| Engine.SpansAreLocated | vvproject/engine.py:149-157 | the first span is located from the initial cursor and each later span from the end of the previous one |
| Engine.SpanLocatedAt | vvproject/engine.py:149-157 | the same placement stated for one span at a time |
| Engine.SpansMatchScript | vvproject/engine.py:149-155 | when a chunk text occurs in the script, its span covers exactly that text, and it lies at or after the cursor when an occurrence lies there |
| Engine.FindStart | vvproject/engine.py:149-153 | the two-step find computes Locate |
| Engine.ChunkScript | vvproject/engine.py:140-158 | _chunk_script's loop returns exactly the spans of the kept texts located from cursor 0 |
| Engine.ChunkFilenameInjective | vvproject/engine.py:211 | chunk file names are chunk_NNN.flac, and different chunk numbers give different names |
| Engine.ArchiveNameMatches | vvproject/engine.py:179-181 | every archive name the code writes matches its own glob |
| Engine.ArchiveNameInjective | vvproject/engine.py:181 | different versions give different archive names |
| Engine.ArchiveStep | vvproject/engine.py:172-183 | a missing source is a no-op returning None; otherwise the file moves out of the chunk directory into the archive under version count+1 |
| Engine.ArchiveNumbersConsecutive | vvproject/engine.py:179-181 | when the archive holds versions 1..k, writing version k+1 leaves it holding versions 1..k+1 |
| Engine.ThreeArchives | vvproject/engine.py:172-183 | three successive replacements archive v(k+1), v(k+2) and v(k+3), each holding the audio it replaced |
| Engine.ArchiveVersion | vvproject/engine.py:179-182 | with versions 1..k archived, the next archive is v(k+1), it holds the moved file, and nothing else changes |
| Engine.ArchiveGapOverwrites | vvproject/engine.py:179-182 | when only __v2 exists (v1 deleted), the next archive is written to __v2 and replaces its content |
| Engine.ProjectDir.ArchiveChunk | vvproject/engine.py:172-183 | archiving in place moves the chunk file as ArchiveStep says, returns its destination and touches nothing else |
| Engine.ProjectDir.WriteChunk | vvproject/engine.py:213 | writing a chunk file sets that file only |
| Engine.ProjectDir.Save | vvproject/project.py:137-141 | save_project replaces the document with the project's dict and changes no audio file |
| Engine.PlannedChunk | vvproject/engine.py:207-225 | chunk i gets number i+1, file chunk_NNN.flac, seed global_seed+i, the span's text and offsets and the option params, and it is produced exactly when its audio renders and its duration can be measured; a render exception is its error |
| Engine.PlannedChunks | vvproject/engine.py:207-225 | when all chunks are produced there is one per span |
| Engine.PlannedChunksElements | vvproject/engine.py:207-225 | all chunks are produced exactly when each one is, and the i-th is the i-th planned chunk |
| Engine.PlannedChunksOrdered | vvproject/engine.py:207 | generated chunks are numbered 1..n, so they are sorted with unique indices |
| Engine.PlannedChunksFailure | vvproject/engine.py:209-210 | when chunks before i succeed and chunk i fails, generation fails with chunk i's error |
| Engine.RenderedFilesContents | vvproject/engine.py:207-213 | after n steps, each chunk_k file (k <= n) whose render succeeded holds the audio rendered for span k with seed global_seed+k-1 |
| Engine.RenderedFilesKeepsOthers | vvproject/engine.py:211-213 | files that are not chunk files of the first n chunks are left as they were |
| Engine.RenderChunk | vvproject/engine.py:207-225 | one rendering step yields the planned chunk at the running start with the audio the renderer produced for it, or fails with the planned error |
| Engine.GeneratedStateNext | vvproject/engine.py:211-229 | adding chunk i at its running start to a state checkpointed after i chunks gives the state checkpointed after i+1 chunks, and the next running start is the timeline's start of chunk i+1 |
| Engine.RecordChunk | vvproject/engine.py:211-230 | writing, adding and saving one chunk in place extends the generated project and the checkpointed document by that chunk and returns the next chunk's start |
| Engine.SaveChunk | vvproject/engine.py:213-230 | the chunk file is written, the chunk added in place and the document saved, and nothing else changes |
| Engine.GenerateStep | vvproject/engine.py:221-229 | one generation step extends the planned chunks by the new one and keeps the project equal to the recalculated timeline of the planned chunks |
| Engine.PlannedNumbering | vvproject/engine.py:207-216 | before step i, i chunks numbered 1..i exist and the new one gets number i+1 |
| Engine.TimelineStep | vvproject/engine.py:221-229 | adding the next-numbered chunk at the running start keeps the project on the recalculated timeline |
| Engine.NextStartAfter | vvproject/engine.py:227-229 | the running start after a chunk is the timeline's start of the next chunk |
| Engine.GenerateProject | vvproject/engine.py:186-232 | no chunks raises; a render failure returns its error with the document checkpointed after the last successful chunk; otherwise the project holds the planned chunks on the recalculated timeline, is saved, and every chunk file holds its audio |
| Engine.Rerender | vvproject/engine.py:257-276 | tts mode renders with the chosen seed and records defaults plus non-None overrides as params; a failing render is the error; import mode needs a path, raises FileMissing when the importer cannot read it, and marks params with mode=import; any other mode raises; only seed and params change |
| Engine.Reconcile | vvproject/engine.py:278-285 | locked mode with a known duration stretches the audio to that duration and keeps it; otherwise the measured duration is recorded and the audio kept |
| Engine.LockedAudioFitsTimeline | vvproject/engine.py:281-283 | at rates above 1 kHz, for a positive stored duration and new audio whose measured duration is not 0, a locked replacement leaves the record unchanged and its new audio measures exactly the old duration |
| Engine.UpdatedChunk | vvproject/engine.py:255-285 | a replacement changes only the chunk's seed, params and duration, and keeps a positive stored duration in locked mode |
| Engine.LockedReplaceKeepsTimeline | vvproject/engine.py:281-290 | a locked replacement of a chunk with a positive stored duration keeps every other chunk and every start time and duration |
| Engine.ReplaceKeepsOthers | vvproject/engine.py:235-293 | a replacement changes other chunks at most in their start time, keeps the list sorted, and the saved document loads back as the new project |
| Engine.TimelineAfterSorted | vvproject/engine.py:289-290 | replacing a record with one of the same index, then retiming, keeps the list sorted and other chunks' fields |
| Engine.ReplaceChunk | vvproject/engine.py:235-293 | a missing project, a bad document or an unknown index raises with nothing changed; otherwise the old file is archived; a failing render or import leaves the archive done and the document unsaved; on success the new audio is written and the updated project saved, and the updated chunk is returned |
| Engine.MissingChunk | vvproject/engine.py:299-302 | the first chunk whose file is absent, or None when every file exists |
| Engine.LoadChunkAudios | vvproject/engine.py:298-303 | the loading loop raises on the first missing file and otherwise returns every chunk's audio in order |
| Engine.FinalMix | vvproject/engine.py:296-308 | the mix fails exactly when some chunk file is missing, and it is written to the final-mix path under the root |
| Engine.MixProject | vvproject/engine.py:298-308 | the final mix is written on success only, and no document, chunk or archive file changes |
| Engine.BuildFinalMix | vvproject/engine.py:296-308 | build_final_mix loads the project, raises on a missing project, bad document or missing chunk file, and otherwise writes the mix of the sorted chunks |
| Engine.FindChunk | vvproject/engine.py:311-313 | find_chunk loads the project and returns the timestamp lookup on its sorted chunks |
| Utils.DollarPlaceholderContainsPlain | vvproject/utils.py:66 | any string containing ${repo} contains {repo} |
| Utils.ExpandWithoutPlaceholder | vvproject/utils.py:61-66 | a path without {repo} is returned unchanged |
| Utils.ExpandDollarPlaceholder | vvproject/utils.py:66 | as written, "${repo}/a" expands to "$" + root + "/a", because {repo} is replaced first |
| Utils.IsMockMode | vvproject/utils.py:84-87 | an unset or empty VV_MOCK_TTS is not mock mode |
| Utils.IsMockModeIgnoresCase | vvproject/utils.py:87 | the setting is compared case-insensitively |
| Utils.IsMockModeExamples | vvproject/utils.py:84-87 | FALSE, Off and 0 switch mock mode off; no and 1 switch it on |
| Utils.LoadScriptText | vvproject/utils.py:69-81 | a non-blank override wins; else an existing script file is read; else the sample script's text is the result; it is an error exactly when all three sources fail |
| Utils.BlankOverrideIgnored | vvproject/utils.py:71-72 | a blank override text behaves as no override |
| ChunkEditor.BuildOverrides | nodes/vv_chunk_editor.py:77-89 | each override is present exactly when its input is set (positive, or sampling mode true/false) with the input's value, and the map is empty exactly when nothing is set |
| ChunkEditor.SentinelOverridesUnique | nodes/vv_chunk_editor.py:77-89 | the override description determines the map |
| ChunkEditor.SentinelOverridesMerge | nodes/vv_chunk_editor.py:77-89 | merged by replace_chunk, every set input replaces its option and the others keep the project default |
| ChunkEditor.ChunkSeed | nodes/vv_chunk_editor.py:99 | a negative seed means "keep the chunk's seed" and any other is passed on |
| ChunkEditor.Edit | nodes/vv_chunk_editor.py:54-114 | an inactive node passes the path through; a missing project.json or import file, or an empty import path, raises with nothing changed; otherwise replace_chunk runs with the sentinel-decoded request, and the resolved path is returned on success |

## Left out

- File I/O and codecs are not modelled byte by byte. write_flac, reading audio, load_audio's resampling and JSON
  text become reads and writes of values in `ProjectDir`.
- Directory creation (`mkdir`) is left out. The directories of a project are assumed to exist.
- match_loudness and rms_loudness_lufs work on floating point. They are the `normalise` parameter of
  `Collaborators`, so the final mix is the normaliser applied to the stitched chunks.
- The cosine and sine fade curves are floating point. They are the `Blend` parameter, so the crossfade is proved
  sample by sample for any blend.
- librosa's time_stretch is the `Stretch` parameter. Its rejection of non-positive rates is not modelled.
- The VibeVoice model, the speaker formatting and the mock renderer's synthetic waveform are collaborators.
  Rendering is a function of settings, text, seed and options (`Collaborators.synth` and
  `Collaborators.mockSynth`). An exception either of them raises is an `Err` result.
- `_ensure_ready` is `Collaborators.ready`, a function of the settings whose failure is an `Err` result. That the
  loaded model and the prepared voice samples are kept on the renderer between calls is not modelled.
- Waveform reshaping and resampling inside render_text (engine.py:104-125) are part of the `synth` collaborator.
- `_split_text_into_chunks` is not part of this model. The raw chunks it produces are a parameter of
  `Engine.ChunkScript` and `Engine.GenerateProject`.
- resolve_repo_root, ensure_folder_paths, `Path.expanduser().resolve()` and `Path.exists()` come from the host
  (`ChunkEditor.Host`, the `repoRoot` parameter). A missing project.json is an absent document in `ProjectDir`.
- Exceptions are modelled as `Err` results carrying the error kind. Log messages are left out.
- Values.ToReal: float() of a string is not modelled and is an error in the model.
- Values.Value: floats are exact reals. Float rounding and overflow in float(int) (float(2**53 + 1) rounds,
  float(10**400) raises), and the NaN and Infinity values json.loads accepts, are not modelled.
- Values.ToStr: str() of a float, list or dict is not modelled and is an error in the model.
- Values.ToDict: dict() of a non-empty list of key-value pairs, or of a non-empty string, is an error in the model.
  Python builds a dict from pairs. Documents written by to_dict always store default_params as a dict.
- Text.ParseInt: underscores between digits ("1_000") and non-ASCII decimal digits, which int() accepts, are
  rejected.
- Audio.DurationMs, Audio.DurationMsNearest, Audio.LockedDurationExact: durations, crossfade lengths and desired
  sample counts are computed exactly on rationals and rounded half to even. The source divides floats first, so a
  quotient that float rounding moves across a half can round differently.
- Engine.GenerateProject: the project's settings are a value. generate_project assigns default_params on the
  caller's settings object; the model stores it in the new project only, and that aliasing is not modelled.
- Utils.LoadScriptText: reading a file is an option that is absent both when the path is not a file and when the
  file cannot be read. The source raises in the second case, and the model falls back to the next source.
- Text.Lower: lowers ASCII letters only. Unicode case mapping is not modelled.
- Engine.MergeOverrides: the key order of the override dict is not modelled. Each key's effect does not depend on the
  others.
- Engine.Matching: glob metacharacters inside a stem are treated literally. Path normalisation is not modelled.
- Chunk objects are values. In replace_chunk, the in-place writes to the chunk returned by get_chunk become a
  positional update of the project's chunk list (`ProjectData.SetChunk`). Aliasing of chunk objects is not modelled.
- `ProjectDir` holds a single project document at a time, so a project is saved to and loaded from one slot.
- Project.ProjectData.RecalculateTimeline: requires the chunk list to be sorted. It then iterates sorted(chunks) in
  list order. Every project the core builds or loads is sorted.
- Engine.ProjectDir.ArchiveChunk: its destination is only logged by replace_chunk, so the model drops it there.
- Three loops are split at natural seams:
  - the loop of generate_project into `RenderChunk` and `RecordChunk` (with `SaveChunk`);
  - build_final_mix into `LoadChunkAudios` and `MixProject`;
  - recalculate_timeline's loop into `RetimeChunks`.
- Utils.ExpandDollarPlaceholder: the model keeps the as-written result of expanding `${repo}`. A `$` remains in
  front of the root because `{repo}` is replaced first.
