/** The project document: settings, chunk records, their dictionary form, the index-ordered chunk list, the
    timeline recomputation and the lookup of a chunk by timestamp. */
module Project {
  import opened Wrappers
  import opened Values
  import opened Numeric
  import opened Paths

  // ---------------------------------------------------------------------------
  // Records and their dictionary form
  // ---------------------------------------------------------------------------

  datatype ProjectSettings = ProjectSettings(
    sampleRate: int,
    loudnessLufs: real,
    modelName: string,
    attentionType: string,
    globalSeed: int,
    crossfadeMs: int,
    chunksDir: string,
    finalMix: string,
    defaultParams: Dict)

  datatype ChunkData = ChunkData(
    index: int,
    filename: string,
    text: string,
    charStart: int,
    charEnd: int,
    tStartMs: int,
    durationMs: int,
    seed: int,
    params: Dict,
    speakerId: int)

  /** The settings a document without a "project" section loads as. */
  const DefaultSettings :=
    ProjectSettings(24000, -16.0, "VibeVoice-Large", "auto", 42, 40, "chunks", "final_mix.flac", map[])

  const SettingsKeys: set<string> :=
    {"sample_rate", "loudness_lufs", "model_name", "attention_type", "global_seed", "crossfade_ms", "chunks_dir",
     "final_mix"}

  /** ProjectSettings.to_dict: every field under its own key, except that empty default parameters are omitted. */
  function SettingsToDict(s: ProjectSettings): (d: Dict)
    ensures d.Keys == if s.defaultParams == map[] then SettingsKeys else SettingsKeys + {"default_params"}
  {
    var d := map[
      "sample_rate" := VInt(s.sampleRate),
      "loudness_lufs" := VReal(s.loudnessLufs),
      "model_name" := VStr(s.modelName),
      "attention_type" := VStr(s.attentionType),
      "global_seed" := VInt(s.globalSeed),
      "crossfade_ms" := VInt(s.crossfadeMs),
      "chunks_dir" := VStr(s.chunksDir),
      "final_mix" := VStr(s.finalMix)];
    if s.defaultParams != map[] then d["default_params" := VMap(s.defaultParams)] else d
  }

  /** ProjectSettings.from_dict: every missing key takes its documented default; a value of the wrong kind raises
      when it is converted, in field order. */
  function SettingsFromDict(payload: Dict): (r: Result<ProjectSettings>)
    ensures r.Ok? ==>
              && ("sample_rate" !in payload ==> r.value.sampleRate == 24000)
              && ("loudness_lufs" !in payload ==> r.value.loudnessLufs == -16.0)
              && ("model_name" !in payload ==> r.value.modelName == "VibeVoice-Large")
              && ("attention_type" !in payload ==> r.value.attentionType == "auto")
              && ("global_seed" !in payload ==> r.value.globalSeed == 42)
              && ("crossfade_ms" !in payload ==> r.value.crossfadeMs == 40)
              && ("chunks_dir" !in payload ==> r.value.chunksDir == "chunks")
              && ("final_mix" !in payload ==> r.value.finalMix == "final_mix.flac")
              && ("default_params" !in payload ==> r.value.defaultParams == map[])
    ensures payload == map[] ==> r == Ok(DefaultSettings)
  {
    var defaultParams := Get(payload, "default_params", VMap(map[]));
    var sampleRate :- ToInt(Get(payload, "sample_rate", VInt(24000)));
    var loudness :- ToReal(Get(payload, "loudness_lufs", VReal(-16.0)));
    var modelName :- ToStr(Get(payload, "model_name", VStr("VibeVoice-Large")));
    var attentionType :- ToStr(Get(payload, "attention_type", VStr("auto")));
    var globalSeed :- ToInt(Get(payload, "global_seed", VInt(42)));
    var crossfadeMs :- ToInt(Get(payload, "crossfade_ms", VInt(40)));
    var chunksDir :- ToStr(Get(payload, "chunks_dir", VStr("chunks")));
    var finalMix :- ToStr(Get(payload, "final_mix", VStr("final_mix.flac")));
    var params :- ToDict(defaultParams);
    Ok(ProjectSettings(sampleRate, loudness, modelName, attentionType, globalSeed, crossfadeMs, chunksDir, finalMix,
                       params))
  }

  /** ProjectSettings.to_dict stores every field under its own key. */
  lemma SettingsToDictFields(s: ProjectSettings)
    ensures var d := SettingsToDict(s);
            && d["sample_rate"] == VInt(s.sampleRate)
            && d["loudness_lufs"] == VReal(s.loudnessLufs)
            && d["model_name"] == VStr(s.modelName)
            && d["attention_type"] == VStr(s.attentionType)
            && d["global_seed"] == VInt(s.globalSeed)
            && d["crossfade_ms"] == VInt(s.crossfadeMs)
            && d["chunks_dir"] == VStr(s.chunksDir)
            && d["final_mix"] == VStr(s.finalMix)
            && Get(d, "default_params", VMap(map[])) == VMap(s.defaultParams)
  {
  }

  /** ProjectSettings.from_dict(s.to_dict()) == s. */
  lemma SettingsRoundTrip(s: ProjectSettings)
    ensures SettingsFromDict(SettingsToDict(s)) == Ok(s)
  {
    SettingsToDictFields(s);
  }

  const ChunkKeys: set<string> :=
    {"index", "filename", "text", "char_start", "char_end", "t_start_ms", "duration_ms", "seed", "params",
     "speaker_id"}

  /** ChunkData.to_dict: all ten fields, each under its own key. */
  function ChunkToDict(c: ChunkData): (d: Dict)
    ensures d.Keys == ChunkKeys
  {
    map[
      "index" := VInt(c.index),
      "filename" := VStr(c.filename),
      "text" := VStr(c.text),
      "char_start" := VInt(c.charStart),
      "char_end" := VInt(c.charEnd),
      "t_start_ms" := VInt(c.tStartMs),
      "duration_ms" := VInt(c.durationMs),
      "seed" := VInt(c.seed),
      "params" := VMap(c.params),
      "speaker_id" := VInt(c.speakerId)]
  }

  /** ChunkData.from_dict: "index" and "filename" are required (KeyError, index first); the text defaults to "",
      the integers and the speaker to 0 and the parameters to {}. */
  function ChunkFromDict(payload: Dict): (r: Result<ChunkData>)
    ensures "index" !in payload ==> r == Err(KeyMissing("index"))
    ensures "index" in payload && ToInt(payload["index"]).Ok? && "filename" !in payload
            ==> r == Err(KeyMissing("filename"))
    ensures r.Ok? ==>
              && ("text" !in payload ==> r.value.text == "")
              && ("char_start" !in payload ==> r.value.charStart == 0)
              && ("char_end" !in payload ==> r.value.charEnd == 0)
              && ("t_start_ms" !in payload ==> r.value.tStartMs == 0)
              && ("duration_ms" !in payload ==> r.value.durationMs == 0)
              && ("seed" !in payload ==> r.value.seed == 0)
              && ("params" !in payload ==> r.value.params == map[])
              && ("speaker_id" !in payload ==> r.value.speakerId == 0)
  {
    if "index" !in payload then Err(KeyMissing("index"))
    else
      var index :- ToInt(payload["index"]);
      if "filename" !in payload then Err(KeyMissing("filename"))
      else
        var filename :- ToStr(payload["filename"]);
        var text :- ToStr(Get(payload, "text", VStr("")));
        var charStart :- ToInt(Get(payload, "char_start", VInt(0)));
        var charEnd :- ToInt(Get(payload, "char_end", VInt(0)));
        var tStartMs :- ToInt(Get(payload, "t_start_ms", VInt(0)));
        var durationMs :- ToInt(Get(payload, "duration_ms", VInt(0)));
        var seed :- ToInt(Get(payload, "seed", VInt(0)));
        var params :- ToDict(Get(payload, "params", VMap(map[])));
        var speakerId :- ToInt(Get(payload, "speaker_id", VInt(0)));
        Ok(ChunkData(index, filename, text, charStart, charEnd, tStartMs, durationMs, seed, params, speakerId))
  }

  /** ChunkData.from_dict(c.to_dict()) == c. */
  lemma ChunkRoundTrip(c: ChunkData)
    ensures ChunkFromDict(ChunkToDict(c)) == Ok(c)
  {
  }

  /** A record holding only the two required keys loads with every other field at its default. */
  lemma ChunkDefaults(index: int, filename: string)
    ensures ChunkFromDict(map["index" := VInt(index), "filename" := VStr(filename)])
            == Ok(ChunkData(index, filename, "", 0, 0, 0, 0, 0, map[], 0))
  {
  }

  // ---------------------------------------------------------------------------
  // The chunk list in index order
  // ---------------------------------------------------------------------------

  predicate SortedByIndex(cs: seq<ChunkData>) {
    forall i, j :: 0 <= i < j < |cs| ==> cs[i].index <= cs[j].index
  }

  predicate UniqueIndices(cs: seq<ChunkData>) {
    forall i, j :: 0 <= i < j < |cs| ==> cs[i].index != cs[j].index
  }

  /** Where a stable sort by index puts `c` when it follows an already sorted list: after every chunk whose index is
      not greater than its own. */
  function InsertByIndex(s: seq<ChunkData>, c: ChunkData): (r: seq<ChunkData>)
    ensures |r| == |s| + 1
    ensures multiset(r) == multiset(s) + multiset{c}
    ensures SortedByIndex(s) ==> SortedByIndex(r)
  {
    if s == [] then [c]
    else
      var last := s[|s| - 1];
      var init := s[..|s| - 1];
      assert s == init + [last];
      if last.index <= c.index then s + [c]
      else
        var r' := InsertByIndex(init, c);
        InsertBelowLast(s, c, r');
        r' + [last]
  }

  /** When the chunk goes before the last one of an ordered list, every chunk of the insertion into the rest has an
      index no larger than the last one's. */
  lemma InsertBelowLast(s: seq<ChunkData>, c: ChunkData, r: seq<ChunkData>)
    requires s != [] && c.index < s[|s| - 1].index
    requires multiset(r) == multiset(s[..|s| - 1]) + multiset{c}
    ensures SortedByIndex(s) ==> forall i :: 0 <= i < |r| ==> r[i].index <= s[|s| - 1].index
  {
    if SortedByIndex(s) {
      var init := s[..|s| - 1];
      forall i | 0 <= i < |r| ensures r[i].index <= s[|s| - 1].index {
        assert r[i] in multiset(r);
        assert r[i] in multiset(init) || r[i] == c;
        if r[i] in init {
          var j :| 0 <= j < |init| && init[j] == r[i];
          assert s[j] == r[i];
        }
      }
    }
  }

  /** `sorted(chunks, key=lambda c: c.index)`, a stable sort (insertion sort from the left): the result is ordered by
      index and is a permutation of the input. */
  function SortByIndex(s: seq<ChunkData>): (r: seq<ChunkData>)
    ensures |r| == |s|
    ensures multiset(r) == multiset(s)
    ensures SortedByIndex(r)
  {
    if s == [] then []
    else
      assert s == s[..|s| - 1] + [s[|s| - 1]];
      InsertByIndex(SortByIndex(s[..|s| - 1]), s[|s| - 1])
  }

  /** The chunks of s that carry index k, in their order in s. */
  function WithIndex(s: seq<ChunkData>, k: int): (r: seq<ChunkData>)
    ensures |r| <= |s|
    ensures forall i :: 0 <= i < |r| ==> r[i].index == k && r[i] in s
  {
    if s == [] then []
    else WithIndex(s[..|s| - 1], k) + (if s[|s| - 1].index == k then [s[|s| - 1]] else [])
  }

  /** Appending a chunk appends it to the chunks with its own index and to no others. */
  lemma WithIndexAppend(t: seq<ChunkData>, x: ChunkData, k: int)
    ensures WithIndex(t + [x], k) == WithIndex(t, k) + (if x.index == k then [x] else [])
  {
    assert (t + [x])[..|t|] == t;
  }

  /** Inserting by index is stable: the chunks with any one index keep their order, and the new chunk comes after
      those already there with its index. */
  lemma {:induction false} InsertByIndexStable(s: seq<ChunkData>, c: ChunkData, k: int)
    ensures WithIndex(InsertByIndex(s, c), k) == WithIndex(s, k) + (if c.index == k then [c] else [])
  {
    if s == [] {
      WithIndexAppend([], c, k);
      assert [] + [c] == [c];
    } else {
      var last := s[|s| - 1];
      var init := s[..|s| - 1];
      assert s == init + [last];
      WithIndexAppend(init, last, k);
      if last.index <= c.index {
        WithIndexAppend(s, c, k);
      } else {
        var r' := InsertByIndex(init, c);
        assert InsertByIndex(s, c) == r' + [last];
        WithIndexAppend(r', last, k);
        InsertByIndexStable(init, c, k);
      }
    }
  }

  /** Sorting by index is stable, as list.sort is: the chunks with any one index keep their input order. */
  lemma {:induction false} SortByIndexStable(s: seq<ChunkData>, k: int)
    ensures WithIndex(SortByIndex(s), k) == WithIndex(s, k)
  {
    if s != [] {
      var init := s[..|s| - 1];
      assert s == init + [s[|s| - 1]];
      SortByIndexStable(init, k);
      InsertByIndexStable(SortByIndex(init), s[|s| - 1], k);
      WithIndexAppend(init, s[|s| - 1], k);
    }
  }

  /** Sorting a list that is already in index order changes nothing. */
  lemma {:induction false} SortedIsFixed(s: seq<ChunkData>)
    requires SortedByIndex(s)
    ensures SortByIndex(s) == s
  {
    if s != [] {
      var init := s[..|s| - 1];
      SortedIsFixed(init);
      assert s == init + [s[|s| - 1]];
    }
  }

  /** Sorting twice is sorting once. */
  lemma SortIdempotent(s: seq<ChunkData>)
    ensures SortByIndex(SortByIndex(s)) == SortByIndex(s)
  {
    SortedIsFixed(SortByIndex(s));
  }

  /** Inserting a chunk whose index no chunk of a uniquely indexed list has keeps the indices unique. */
  lemma {:induction false} InsertKeepsUnique(s: seq<ChunkData>, c: ChunkData)
    requires UniqueIndices(s)
    requires forall i :: 0 <= i < |s| ==> s[i].index != c.index
    ensures UniqueIndices(InsertByIndex(s, c))
  {
    if s == [] {
    } else if s[|s| - 1].index <= c.index {
      UniqueAppend(s, c);
    } else {
      var last := s[|s| - 1];
      var init := s[..|s| - 1];
      InsertKeepsUnique(init, c);
      var r' := InsertByIndex(init, c);
      forall i | 0 <= i < |r'| ensures r'[i].index != last.index {
        InsertedFrom(init, c, r'[i]);
        if r'[i] != c {
          EarlierIndexDiffers(s, r'[i]);
        }
      }
      UniqueAppend(r', last);
    }
  }

  lemma UniqueAppend(s: seq<ChunkData>, c: ChunkData)
    requires UniqueIndices(s)
    requires forall i :: 0 <= i < |s| ==> s[i].index != c.index
    ensures UniqueIndices(s + [c])
  {
  }

  lemma InsertedFrom(s: seq<ChunkData>, c: ChunkData, x: ChunkData)
    requires x in InsertByIndex(s, c)
    ensures x == c || x in s
  {
    assert x in multiset(InsertByIndex(s, c));
  }

  lemma EarlierIndexDiffers(s: seq<ChunkData>, x: ChunkData)
    requires s != [] && UniqueIndices(s) && x in s[..|s| - 1]
    ensures x.index != s[|s| - 1].index
  {
    var k :| 0 <= k < |s| - 1 && s[..|s| - 1][k] == x;
    assert s[k] == x;
  }

  /** Sorting keeps the indices unique. */
  lemma {:induction false} SortKeepsUnique(s: seq<ChunkData>)
    requires UniqueIndices(s)
    ensures UniqueIndices(SortByIndex(s))
  {
    if s != [] {
      var init := s[..|s| - 1];
      var last := s[|s| - 1];
      SortKeepsUnique(init);
      var sorted := SortByIndex(init);
      forall i | 0 <= i < |sorted| ensures sorted[i].index != last.index {
        assert sorted[i] in multiset(sorted);
        var k :| 0 <= k < |init| && init[k] == sorted[i];
        assert s[k] == init[k];
      }
      InsertKeepsUnique(sorted, last);
    }
  }

  // ---------------------------------------------------------------------------
  // get_chunk and add_chunk
  // ---------------------------------------------------------------------------

  /** The position of the first chunk satisfying p, scanning from the front. */
  function FirstWhere(cs: seq<ChunkData>, p: ChunkData -> bool): (r: Option<nat>)
    ensures r.None? <==> forall i :: 0 <= i < |cs| ==> !p(cs[i])
    ensures r.Some? ==> r.value < |cs| && p(cs[r.value]) && forall i :: 0 <= i < r.value ==> !p(cs[i])
  {
    if cs == [] then None
    else if p(cs[0]) then Some(0)
    else
      match FirstWhere(cs[1..], p)
      case None =>
        assert forall i :: 1 <= i < |cs| ==> cs[i] == cs[1..][i - 1];
        None
      case Some(k) =>
        assert forall i :: 1 <= i < k + 1 ==> cs[i] == cs[1..][i - 1];
        Some(k + 1)
  }

  /** The position of the first chunk with the given index. */
  function ChunkPosition(cs: seq<ChunkData>, index: int): Option<nat> {
    FirstWhere(cs, (c: ChunkData) => c.index == index)
  }

  /** ProjectData.get_chunk: the first chunk with the given index, and None exactly when no chunk has it. */
  function GetChunk(cs: seq<ChunkData>, index: int): (r: Option<ChunkData>)
    ensures r.None? <==> forall i :: 0 <= i < |cs| ==> cs[i].index != index
    ensures r.Some? ==> exists k :: 0 <= k < |cs| && cs[k] == r.value && r.value.index == index
                                  && forall i :: 0 <= i < k ==> cs[i].index != index
  {
    match ChunkPosition(cs, index)
    case None => None
    case Some(k) => Some(cs[k])
  }

  function RemoveAt(cs: seq<ChunkData>, k: nat): seq<ChunkData>
    requires k < |cs|
  {
    cs[..k] + cs[k + 1..]
  }

  /** The chunks add_chunk keeps: all of them, except the first one that has the new chunk's index. */
  function WithoutIndex(cs: seq<ChunkData>, index: int): (r: seq<ChunkData>)
    ensures ChunkPosition(cs, index).None? ==> r == cs
    ensures ChunkPosition(cs, index).Some? ==> multiset(r) + multiset{cs[ChunkPosition(cs, index).value]} == multiset(cs)
  {
    match ChunkPosition(cs, index)
    case None => cs
    case Some(k) =>
      assert cs == cs[..k] + [cs[k]] + cs[k + 1..];
      RemoveAt(cs, k)
  }

  /** The list after ProjectData.add_chunk: the first chunk with the same index is removed, the new chunk appended,
      and the list sorted by index. */
  function AddedChunk(cs: seq<ChunkData>, c: ChunkData): (r: seq<ChunkData>)
    ensures SortedByIndex(r)
    ensures multiset(r) == multiset(WithoutIndex(cs, c.index)) + multiset{c}
    ensures c in r
  {
    var r := SortByIndex(WithoutIndex(cs, c.index) + [c]);
    assert c in multiset(r);
    r
  }

  /** Removing the first chunk with an index from a uniquely indexed list leaves exactly the chunks with other
      indices, still uniquely indexed. */
  lemma WithoutIndexKeepsOthers(cs: seq<ChunkData>, index: int)
    requires UniqueIndices(cs)
    ensures UniqueIndices(WithoutIndex(cs, index))
    ensures forall x :: x in WithoutIndex(cs, index) <==> x in cs && x.index != index
  {
    var rest := WithoutIndex(cs, index);
    match ChunkPosition(cs, index)
    case None =>
    case Some(k) =>
      RemoveAtElements(cs, k);
      forall i, j | 0 <= i < j < |rest| ensures rest[i].index != rest[j].index {
        assert rest[i] == cs[if i < k then i else i + 1];
        assert rest[j] == cs[if j < k then j else j + 1];
      }
      RemoveAtMembers(cs, k, index);
  }

  /** Removing the one chunk with a given index from a list with unique indices keeps exactly the others. */
  lemma RemoveAtMembers(cs: seq<ChunkData>, k: nat, index: int)
    requires UniqueIndices(cs) && k < |cs| && cs[k].index == index
    ensures forall x :: x in RemoveAt(cs, k) <==> x in cs && x.index != index
  {
    var rest := RemoveAt(cs, k);
    RemoveAtElements(cs, k);
    forall x ensures x in rest <==> x in cs && x.index != index {
      if x in rest {
        var j :| 0 <= j < |rest| && rest[j] == x;
        assert cs[if j < k then j else j + 1] == x;
      }
      if x in cs && x.index != index {
        var i :| 0 <= i < |cs| && cs[i] == x;
        assert rest[if i < k then i else i - 1] == x;
      }
    }
  }

  /** Element j of RemoveAt(cs, k) is element j of cs before k and element j+1 from k on. */
  lemma RemoveAtElements(cs: seq<ChunkData>, k: nat)
    requires k < |cs|
    ensures |RemoveAt(cs, k)| == |cs| - 1
    ensures forall j :: 0 <= j < |cs| - 1 ==> RemoveAt(cs, k)[j] == cs[if j < k then j else j + 1]
  {
  }

  /** On a list with unique indices, add_chunk leaves exactly one chunk with the new chunk's index, the new chunk;
      every chunk with another index is kept and nothing else is added. */
  lemma AddChunkReplaces(cs: seq<ChunkData>, c: ChunkData)
    requires UniqueIndices(cs)
    ensures var r := AddedChunk(cs, c);
            && UniqueIndices(r)
            && (forall x :: x in r && x.index == c.index ==> x == c)
            && (forall x :: x in cs && x.index != c.index ==> x in r)
            && (forall x :: x in r ==> x == c || (x in cs && x.index != c.index))
  {
    var rest := WithoutIndex(cs, c.index);
    var r := AddedChunk(cs, c);
    WithoutIndexKeepsOthers(cs, c.index);
    assert UniqueIndices(rest + [c]) by {
      forall i | 0 <= i < |rest| ensures rest[i].index != c.index {
        assert rest[i] in rest;
      }
    }
    SortKeepsUnique(rest + [c]);
    forall x | x in r ensures x == c || (x in cs && x.index != c.index) {
      assert x in multiset(r);
    }
    forall x | x in cs && x.index != c.index ensures x in r {
      assert x in multiset(rest + [c]);
    }
  }

  /** Adding a chunk whose index is above every index of an ordered list appends it. */
  lemma AddChunkAppends(cs: seq<ChunkData>, c: ChunkData)
    requires SortedByIndex(cs)
    requires forall i :: 0 <= i < |cs| ==> cs[i].index < c.index
    ensures AddedChunk(cs, c) == cs + [c]
  {
    assert WithoutIndex(cs, c.index) == cs;
    SortedIsFixed(cs + [c]);
  }

  // ---------------------------------------------------------------------------
  // The timeline
  // ---------------------------------------------------------------------------

  /** The start recalculate_timeline gives the chunk at position i: 0 for the first, and for every later one the
      previous start plus the previous duration minus the crossfade, clamped at 0. */
  function StartAt(cs: seq<ChunkData>, i: nat, crossfadeMs: int): (t: int)
    requires i <= |cs|
    ensures t >= 0
  {
    if i == 0 then 0 else Max(StartAt(cs, i - 1, crossfadeMs) + cs[i - 1].durationMs - crossfadeMs, 0)
  }

  /** The chunk list after recalculate_timeline: only t_start_ms changes; the first chunk starts at 0 and every
      later one where its predecessor ends minus the crossfade, never below 0. */
  function Retimed(cs: seq<ChunkData>, crossfadeMs: int): (r: seq<ChunkData>)
    ensures |r| == |cs|
    ensures forall i :: 0 <= i < |cs| ==> r[i] == cs[i].(tStartMs := r[i].tStartMs)
    ensures forall i :: 0 <= i < |cs| ==> r[i].tStartMs >= 0
  {
    seq(|cs|, i requires 0 <= i < |cs| => cs[i].(tStartMs := StartAt(cs, i, crossfadeMs)))
  }

  /** The retimed list follows the timeline rule: the first chunk starts at 0 and every later one where its
      predecessor ends minus the crossfade, never below 0. */
  lemma RetimedFollowsRule(cs: seq<ChunkData>, crossfadeMs: int)
    ensures var r := Retimed(cs, crossfadeMs);
            && (|cs| > 0 ==> r[0].tStartMs == 0)
            && forall i :: 0 < i < |cs| ==>
                 r[i].tStartMs == Max(r[i - 1].tStartMs + r[i - 1].durationMs - crossfadeMs, 0)
  {
    var r := Retimed(cs, crossfadeMs);
    forall i | 0 < i < |cs| ensures r[i].tStartMs == Max(r[i - 1].tStartMs + r[i - 1].durationMs - crossfadeMs, 0) {
      assert r[i - 1].durationMs == cs[i - 1].durationMs;
    }
  }

  /** Any list that differs from cs only in its starts and satisfies the timeline rule is Retimed(cs): the rule
      determines the timeline. */
  lemma RetimedUnique(cs: seq<ChunkData>, r: seq<ChunkData>, crossfadeMs: int)
    requires |r| == |cs|
    requires forall i :: 0 <= i < |cs| ==> r[i] == cs[i].(tStartMs := r[i].tStartMs)
    requires |cs| > 0 ==> r[0].tStartMs == 0
    requires forall i :: 0 < i < |cs| ==>
               r[i].tStartMs == Max(r[i - 1].tStartMs + r[i - 1].durationMs - crossfadeMs, 0)
    ensures r == Retimed(cs, crossfadeMs)
  {
    forall i | 0 <= i < |cs| ensures r[i].tStartMs == StartAt(cs, i, crossfadeMs) {
      StartsFollowRule(cs, r, crossfadeMs, i);
    }
  }

  lemma {:induction false} StartsFollowRule(cs: seq<ChunkData>, r: seq<ChunkData>, crossfadeMs: int, i: nat)
    requires |r| == |cs| && i < |cs|
    requires forall i :: 0 <= i < |cs| ==> r[i] == cs[i].(tStartMs := r[i].tStartMs)
    requires |cs| > 0 ==> r[0].tStartMs == 0
    requires forall i :: 0 < i < |cs| ==>
               r[i].tStartMs == Max(r[i - 1].tStartMs + r[i - 1].durationMs - crossfadeMs, 0)
    ensures r[i].tStartMs == StartAt(cs, i, crossfadeMs)
  {
    if i > 0 {
      StartsFollowRule(cs, r, crossfadeMs, i - 1);
      assert r[i - 1].durationMs == cs[i - 1].durationMs;
    }
  }

  /** recalculate_timeline is idempotent: recomputing an already computed timeline changes nothing. */
  lemma RetimedIdempotent(cs: seq<ChunkData>, crossfadeMs: int)
    ensures Retimed(Retimed(cs, crossfadeMs), crossfadeMs) == Retimed(cs, crossfadeMs)
  {
    var r := Retimed(cs, crossfadeMs);
    RetimedFollowsRule(cs, crossfadeMs);
    RetimedUnique(r, r, crossfadeMs);
  }

  /** Retiming keeps the chunks, and so their index order, in place. */
  lemma RetimedKeepsOrder(cs: seq<ChunkData>, crossfadeMs: int)
    requires SortedByIndex(cs)
    ensures SortedByIndex(Retimed(cs, crossfadeMs))
  {
    var r := Retimed(cs, crossfadeMs);
    forall i, j | 0 <= i < j < |r| ensures r[i].index <= r[j].index {
      assert r[i].index == cs[i].index && r[j].index == cs[j].index;
    }
  }

  /** The starts of a prefix do not depend on what follows it. */
  lemma {:induction false} StartAtPrefix(cs: seq<ChunkData>, c: ChunkData, i: nat, crossfadeMs: int)
    requires i <= |cs|
    ensures StartAt(cs + [c], i, crossfadeMs) == StartAt(cs, i, crossfadeMs)
  {
    if i > 0 {
      StartAtPrefix(cs, c, i - 1, crossfadeMs);
      assert (cs + [c])[i - 1] == cs[i - 1];
    }
  }

  /** One step of the running start: chunk i+1 starts where chunk i ends minus the crossfade, never below 0. */
  lemma StartAtNext(cs: seq<ChunkData>, i: nat, crossfadeMs: int)
    requires i < |cs|
    ensures StartAt(cs, i + 1, crossfadeMs) == Max(StartAt(cs, i, crossfadeMs) + cs[i].durationMs - crossfadeMs, 0)
  {
  }

  /** Retiming a list with one more chunk retimes the prefix as before and starts the new chunk where the prefix
      leaves the cursor. */
  lemma RetimedAppend(cs: seq<ChunkData>, c: ChunkData, crossfadeMs: int)
    ensures Retimed(cs + [c], crossfadeMs)
            == Retimed(cs, crossfadeMs) + [c.(tStartMs := StartAt(cs, |cs|, crossfadeMs))]
  {
    var lhs := Retimed(cs + [c], crossfadeMs);
    var rhs := Retimed(cs, crossfadeMs) + [c.(tStartMs := StartAt(cs, |cs|, crossfadeMs))];
    forall i | 0 <= i < |lhs| ensures lhs[i] == rhs[i] {
      StartAtPrefix(cs, c, i, crossfadeMs);
    }
  }

  /** Adding the next record of a list numbered 1..n, placed where the retimed list ends, to the retimed list gives
      the retimed list of the extended records: the incremental timeline of generate_project agrees with
      recalculate_timeline. */
  lemma RetimedExtend(cs: seq<ChunkData>, c: ChunkData, crossfadeMs: int)
    requires forall j :: 0 <= j < |cs| ==> cs[j].index == j + 1
    requires c.index == |cs| + 1
    ensures SortedByIndex(Retimed(cs, crossfadeMs))
    ensures AddedChunk(Retimed(cs, crossfadeMs), c.(tStartMs := StartAt(cs, |cs|, crossfadeMs)))
            == Retimed(cs + [c], crossfadeMs)
  {
    var r := Retimed(cs, crossfadeMs);
    assert forall j :: 0 <= j < |r| ==> r[j].index == j + 1;
    AddChunkAppends(r, c.(tStartMs := StartAt(cs, |cs|, crossfadeMs)));
    RetimedAppend(cs, c, crossfadeMs);
  }

  /** A worked example: three one-second chunks with a 100 ms crossfade start at 0, 900 and 1800. */
  lemma TimelineExample(a: ChunkData, b: ChunkData, c: ChunkData)
    requires a.durationMs == 1000 && b.durationMs == 1000 && c.durationMs == 1000
    ensures var r := Retimed([a, b, c], 100);
            r[0].tStartMs == 0 && r[1].tStartMs == 900 && r[2].tStartMs == 1800
  {
    RetimedFollowsRule([a, b, c], 100);
  }

  // ---------------------------------------------------------------------------
  // find_chunk_by_timestamp
  // ---------------------------------------------------------------------------

  /** The chunk's interval [t_start_ms, t_start_ms + duration_ms) holds the timestamp. */
  predicate Covers(c: ChunkData, timestampMs: int) {
    c.tStartMs <= timestampMs < c.tStartMs + c.durationMs
  }

  /** find_chunk_by_timestamp: the covering chunk that comes first in index order; when no chunk covers the
      timestamp, the last chunk of the list if the timestamp is at or after its start, and otherwise None. */
  function FindChunkByTimestamp(cs: seq<ChunkData>, timestampMs: int): (r: Option<ChunkData>)
    ensures r.Some? ==> r.value in cs
    ensures (exists i :: 0 <= i < |cs| && Covers(cs[i], timestampMs)) ==>
              && r.Some? && Covers(r.value, timestampMs)
              && forall c :: c in cs && Covers(c, timestampMs) ==> r.value.index <= c.index
    ensures (forall i :: 0 <= i < |cs| ==> !Covers(cs[i], timestampMs)) ==>
              r == if cs != [] && timestampMs >= cs[|cs| - 1].tStartMs then Some(cs[|cs| - 1]) else None
  {
    var sorted := SortByIndex(cs);
    match FirstWhere(sorted, (c: ChunkData) => Covers(c, timestampMs))
    case Some(k) =>
      FirstCoverIsMinimal(cs, sorted, k, timestampMs);
      Some(sorted[k])
    case None =>
      NoCoverInSorted(cs, sorted, timestampMs);
      if cs != [] && timestampMs >= cs[|cs| - 1].tStartMs then Some(cs[|cs| - 1]) else None
  }

  /** The first covering chunk of the index-ordered list is a chunk of cs with the least index among the covering
      ones. */
  lemma FirstCoverIsMinimal(cs: seq<ChunkData>, sorted: seq<ChunkData>, k: nat, timestampMs: int)
    requires multiset(sorted) == multiset(cs) && SortedByIndex(sorted)
    requires k < |sorted| && forall i :: 0 <= i < k ==> !Covers(sorted[i], timestampMs)
    ensures sorted[k] in cs
    ensures forall c :: c in cs && Covers(c, timestampMs) ==> sorted[k].index <= c.index
  {
    assert sorted[k] in multiset(sorted);
    forall c | c in cs && Covers(c, timestampMs) ensures sorted[k].index <= c.index {
      assert c in multiset(sorted);
      var j :| 0 <= j < |sorted| && sorted[j] == c;
      assert j >= k;
    }
  }

  /** A permutation of cs without covering chunks means cs has none either. */
  lemma NoCoverInSorted(cs: seq<ChunkData>, sorted: seq<ChunkData>, timestampMs: int)
    requires multiset(sorted) == multiset(cs)
    requires forall i :: 0 <= i < |sorted| ==> !Covers(sorted[i], timestampMs)
    ensures forall i :: 0 <= i < |cs| ==> !Covers(cs[i], timestampMs)
  {
    forall i | 0 <= i < |cs| ensures !Covers(cs[i], timestampMs) {
      assert cs[i] in multiset(sorted);
    }
  }

  /** A worked example: chunks (0, 1000) and (900, 1000) give the first for 500, the second for 1500,
      and the second again, as the tail fallback, for 5000. */
  lemma FindExample(a: ChunkData, b: ChunkData)
    requires a.index == 1 && a.tStartMs == 0 && a.durationMs == 1000
    requires b.index == 2 && b.tStartMs == 900 && b.durationMs == 1000
    ensures FindChunkByTimestamp([a, b], 500) == Some(a)
    ensures FindChunkByTimestamp([a, b], 1500) == Some(b)
    ensures FindChunkByTimestamp([a, b], 5000) == Some(b)
    ensures FindChunkByTimestamp([a, b], -1) == None
  {
    assert Covers([a, b][0], 500);
    assert Covers([a, b][1], 1500);
  }

  // ---------------------------------------------------------------------------
  // The project document
  // ---------------------------------------------------------------------------

  /** ProjectData.to_dict: the settings under "project" and the chunk records under "chunks" in index order. */
  function ProjectToDict(settings: ProjectSettings, chunks: seq<ChunkData>): Dict {
    var sorted := SortByIndex(chunks);
    map["project" := VMap(SettingsToDict(settings)),
        "chunks" := VList(seq(|sorted|, i requires 0 <= i < |sorted| => VMap(ChunkToDict(sorted[i]))))]
  }

  /** The saved document has exactly the keys "project" and "chunks": the settings record, and one record per chunk
      in index order. */
  lemma ProjectToDictSpec(settings: ProjectSettings, chunks: seq<ChunkData>)
    ensures var d := ProjectToDict(settings, chunks);
            && d.Keys == {"project", "chunks"}
            && d["project"] == VMap(SettingsToDict(settings))
            && d["chunks"].VList? && |d["chunks"].items| == |chunks|
            && forall i :: 0 <= i < |chunks| ==> d["chunks"].items[i] == VMap(ChunkToDict(SortByIndex(chunks)[i]))
  {
  }

  /** One element of the "chunks" array: a record, or a TypeError. */
  function ChunkFromValue(v: Value): Result<ChunkData> {
    match v
    case VMap(d) => ChunkFromDict(d)
    case _ => Err(Malformed("chunk record"))
  }

  /** The records of the "chunks" array, in file order; the first bad record raises. */
  function ChunksFromValues(vs: seq<Value>): (r: Result<seq<ChunkData>>)
    ensures r.Ok? ==> |r.value| == |vs| && forall i :: 0 <= i < |vs| ==> ChunkFromValue(vs[i]) == Ok(r.value[i])
    ensures (forall i :: 0 <= i < |vs| ==> ChunkFromValue(vs[i]).Ok?) ==> r.Ok?
  {
    if vs == [] then Ok([])
    else
      var c :- ChunkFromValue(vs[0]);
      var rest :- ChunksFromValues(vs[1..]);
      assert forall i :: 1 <= i < |vs| ==> vs[i] == vs[1..][i - 1];
      Ok([c] + rest)
  }

  /** Iterating `payload.get("chunks", [])`: a list gives its elements, an empty dict or string gives nothing, and
      anything else raises once its elements are used as records. */
  function ChunkEntries(v: Value): Result<seq<Value>> {
    match v
    case VList(xs) => Ok(xs)
    case VMap(m) => if m == map[] then Ok([]) else Err(Malformed("chunks"))
    case VStr(s) => if s == "" then Ok([]) else Err(Malformed("chunks"))
    case _ => Err(Malformed("chunks"))
  }

  /** The settings and chunk records of a parsed project document, chunks in file order (load_project before its
      sort). */
  function ParseDocument(doc: Value): (r: Result<(ProjectSettings, seq<ChunkData>)>)
    ensures !doc.VMap? ==> r.Err?
    ensures doc.VMap? && doc.fields == map[] ==> r == Ok((DefaultSettings, []))
  {
    if !doc.VMap? then Err(Malformed("document"))
    else
      var project := Get(doc.fields, "project", VMap(map[]));
      if !project.VMap? then Err(Malformed("project"))
      else
        var settings :- SettingsFromDict(project.fields);
        var entries :- ChunkEntries(Get(doc.fields, "chunks", VList([])));
        var chunks :- ChunksFromValues(entries);
        Ok((settings, chunks))
  }

  /** Loading a saved document gives back the settings and the chunk list in index order. */
  lemma DocumentRoundTrip(settings: ProjectSettings, chunks: seq<ChunkData>)
    ensures ParseDocument(VMap(ProjectToDict(settings, chunks))) == Ok((settings, SortByIndex(chunks)))
  {
    var d := ProjectToDict(settings, chunks);
    var sorted := SortByIndex(chunks);
    ProjectToDictSpec(settings, chunks);
    var items := d["chunks"].items;
    SettingsRoundTrip(settings);
    assert Get(d, "project", VMap(map[])) == VMap(SettingsToDict(settings));
    assert ChunkEntries(Get(d, "chunks", VList([]))) == Ok(items);
    forall i | 0 <= i < |items| ensures ChunkFromValue(items[i]) == Ok(sorted[i]) {
      ChunkRoundTrip(sorted[i]);
    }
    var r := ChunksFromValues(items);
    assert r.Ok?;
    assert r.value == sorted;
  }

  /** save(load(save(p))) == save(p): the saved document is a fixed point of loading and saving again. */
  lemma SaveLoadSave(settings: ProjectSettings, chunks: seq<ChunkData>)
    ensures var loaded := ParseDocument(VMap(ProjectToDict(settings, chunks)));
            && loaded.Ok?
            && ProjectToDict(loaded.value.0, SortByIndex(loaded.value.1)) == ProjectToDict(settings, chunks)
  {
    DocumentRoundTrip(settings, chunks);
    SortIdempotent(chunks);
    SortIdempotent(SortByIndex(chunks));
  }

  // ---------------------------------------------------------------------------
  // ProjectData
  // ---------------------------------------------------------------------------

  /** A loaded or generated project. Its chunk list is kept in index order by every operation that changes it. */
  class ProjectData {
    const root: string
    const settings: ProjectSettings
    var chunks: seq<ChunkData>

    ghost predicate Valid()
      reads this
    {
      SortedByIndex(chunks)
    }

    constructor (root: string, settings: ProjectSettings, chunks: seq<ChunkData>)
      ensures this.root == root && this.settings == settings && this.chunks == chunks
    {
      this.root := root;
      this.settings := settings;
      this.chunks := chunks;
    }

    function ProjectJsonPath(): string {
      JoinPath(root, "project.json")
    }

    function ChunksDirectory(): string {
      JoinPath(root, settings.chunksDir)
    }

    function ArchiveDirectory(): string {
      JoinPath(root, "chunks_archive")
    }

    function FinalMixPath(): string {
      JoinPath(root, settings.finalMix)
    }

    /** add_chunk: replace the first chunk with the same index, append, sort by index. */
    method AddChunk(chunk: ChunkData)
      modifies this
      ensures chunks == AddedChunk(old(chunks), chunk)
      ensures Valid() && chunk in chunks
    {
      var existing := ChunkPosition(chunks, chunk.index);
      if existing.Some? {
        chunks := RemoveAt(chunks, existing.value);
      }
      chunks := chunks + [chunk];
      chunks := SortByIndex(chunks);
    }

    /** The in-place sort of load_project. */
    method SortChunks()
      modifies this
      ensures chunks == SortByIndex(old(chunks))
      ensures Valid() && multiset(chunks) == multiset(old(chunks))
    {
      chunks := SortByIndex(chunks);
    }

    /** In-place updates of one chunk's fields (seed, params, duration): the chunk keeps its index. */
    method SetChunk(pos: nat, chunk: ChunkData)
      requires pos < |chunks| && chunk.index == chunks[pos].index
      requires Valid()
      modifies this
      ensures chunks == old(chunks)[pos := chunk]
      ensures Valid()
    {
      chunks := chunks[pos := chunk];
    }

    /** recalculate_timeline: walk the chunks in index order assigning each its start. On an ordered list the index
        order is the list order, so the list keeps its order. */
    method RecalculateTimeline()
      requires Valid()
      modifies this
      ensures chunks == Retimed(old(chunks), settings.crossfadeMs)
      ensures Valid()
    {
      var retimed := RetimeChunks(chunks, settings.crossfadeMs);
      RetimedKeepsOrder(chunks, settings.crossfadeMs);
      chunks := retimed;
    }
  }

  /** The loop of recalculate_timeline: a running start, assigned to each chunk in turn and advanced by the chunk's
      duration minus the crossfade, clamped at 0. */
  method RetimeChunks(original: seq<ChunkData>, crossfadeMs: int) returns (retimed: seq<ChunkData>)
    ensures retimed == Retimed(original, crossfadeMs)
  {
    retimed := original;
    var currentStart := 0;
    var i := 0;
    while i < |retimed|
      invariant 0 <= i <= |retimed| == |original|
      invariant currentStart == StartAt(original, i, crossfadeMs)
      invariant RetimedUpTo(original, retimed, i, crossfadeMs)
    {
      var chunk := retimed[i].(tStartMs := Max(currentStart, 0));
      RetimedUpToNext(original, retimed, i, crossfadeMs);
      retimed := retimed[i := chunk];
      currentStart := chunk.tStartMs + chunk.durationMs - crossfadeMs;
      if currentStart < 0 {
        currentStart := 0;
      }
      i := i + 1;
    }
  }

  /** The first i chunks carry their StartAt and the rest are as they were. */
  predicate RetimedUpTo(cs: seq<ChunkData>, r: seq<ChunkData>, i: nat, crossfadeMs: int)
    requires i <= |cs| == |r|
  {
    && (forall k :: 0 <= k < i ==> r[k] == cs[k].(tStartMs := StartAt(cs, k, crossfadeMs)))
    && (forall k :: i <= k < |r| ==> r[k] == cs[k])
  }

  /** One loop step: retiming chunk i extends the retimed prefix and advances the running start; at the end of the
      list the prefix is all of Retimed. */
  lemma RetimedUpToNext(cs: seq<ChunkData>, r: seq<ChunkData>, i: nat, crossfadeMs: int)
    requires i < |cs| == |r| && RetimedUpTo(cs, r, i, crossfadeMs)
    ensures r[i] == cs[i]
    ensures var t := StartAt(cs, i, crossfadeMs);
            && RetimedUpTo(cs, r[i := r[i].(tStartMs := t)], i + 1, crossfadeMs)
            && StartAt(cs, i + 1, crossfadeMs) == Max(t + cs[i].durationMs - crossfadeMs, 0)
            && (i + 1 == |cs| ==> r[i := r[i].(tStartMs := t)] == Retimed(cs, crossfadeMs))
  {
  }

  /** load_project on the parsed document (None when the file does not exist): the settings and records of the
      document, with the chunks sorted by index, rooted at the document's directory. */
  method LoadProject(document: Option<Value>, path: string) returns (r: Result<ProjectData>)
    ensures document.None? ==> r == Err(FileMissing(path))
    ensures document.Some? && ParseDocument(document.value).Err? ==> r == Err(ParseDocument(document.value).error)
    ensures document.Some? && ParseDocument(document.value).Ok? ==>
              && r.Ok? && fresh(r.value) && r.value.Valid()
              && r.value.root == ParentDir(path)
              && r.value.settings == ParseDocument(document.value).value.0
              && r.value.chunks == SortByIndex(ParseDocument(document.value).value.1)
  {
    if document.None? {
      return Err(FileMissing(path));
    }
    var parsed := ParseDocument(document.value);
    if parsed.Err? {
      return Err(parsed.error);
    }
    var project := new ProjectData(ParentDir(path), parsed.value.0, parsed.value.1);
    project.SortChunks();
    return Ok(project);
  }
}
