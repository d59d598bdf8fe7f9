/** `renderVideo`: the argument list and filter graph handed to the FFmpeg
    engine, and the emptying of the engine's working directory. Fetches are
    oracles indexed by scene; the engine itself is not modelled. Filters are
    kept as a datatype rather than as their text. */
module VideoRender {
  import opened Common

  /** A scene as the renderer reads it: the two visual URLs, the audio URL
      and the `audio_offset` of every subtitle cue, when there is a cue
      array. */
  datatype Clip = Clip(videoUrl: Option<string>, imageUrl: Option<string>, audioUrl: Option<string>,
                       subtitles: Option<seq<int>>)

  /** A JavaScript number that may be `NaN` (reading past the end of
      `sceneDurations` gives `undefined`, and arithmetic on it `NaN`). */
  datatype Num = Val(v: real) | NaN

  /** A video stream label: `[v<letter>]` of a scene or `[v_xf<k>]` of a
      cross-fade. */
  datatype VLabel = SceneV(letter: nat) | Faded(k: nat)

  /** One entry of `filterComplex`. Labels hold the UTF-16 code unit of
      `idx_to_letter`. */
  datatype Filter =
    | Zoompan(input: nat, width: nat, height: nat, frames: int, out: nat)
    | Cropped(input: nat, width: nat, height: nat, seconds: real, out: nat)
    | Resample(input: nat, out: nat)
    | Concat(sources: seq<nat>, n: nat)
    | XFade(from: VLabel, next: nat, offset: Num, out: nat)
    | MixMusic(music: int)
    | VoiceOnly

  datatype Plan = Plan(inputs: seq<string>, filters: seq<Filter>, durations: seq<real>, mapVideo: VLabel)

  /** The result of building: the plan handed to `exec`, or the error
      thrown when the asset of scene number `scene` (1-based) could not be
      fetched. */
  datatype Outcome = Rendered(plan: Plan) | AssetMissing(scene: nat)

  const TransitionSeconds: real := 0.5
  const SilenceSeconds: real := 5.0
  const FrameRate: int := 25
  const Silence: seq<string> := ["-f", "lavfi", "-t", "5", "-i", "anullsrc=r=44100:cl=stereo"]
  const MusicFile: string := "bg_music.mp3"

  /** `String.fromCharCode(97 + idx)`, as a UTF-16 code unit. */
  function Letter(i: nat): nat
  {
    (97 + i) % 0x1_0000
  }

  /** `Math.ceil`. */
  function Ceil(x: real): int
  {
    -((-x).Floor)
  }

  lemma CeilBounds(x: real)
    ensures (Ceil(x) - 1) as real < x <= Ceil(x) as real
  {
  }

  /** The number of `-i` entries. */
  function CountI(s: seq<string>): nat
  {
    if |s| == 0 then 0 else CountI(s[..|s| - 1]) + (if s[|s| - 1] == "-i" then 1 else 0)
  }

  lemma {:induction false} CountIAppend(a: seq<string>, b: seq<string>)
    ensures CountI(a + b) == CountI(a) + CountI(b)
    decreases |b|
  {
    if |b| == 0 {
      assert a + b == a;
    } else {
      CountIAppend(a, b[..|b| - 1]);
      assert (a + b)[..|a + b| - 1] == a + b[..|b| - 1];
    }
  }

  // ---------------------------------------------------------------------------
  // One scene
  // ---------------------------------------------------------------------------

  /** `scene.videoUrl || scene.imageUrl` is set: otherwise the scene is
      skipped. */
  predicate HasAsset(c: Clip)
  {
    Truthy(c.videoUrl) || Truthy(c.imageUrl)
  }

  function AssetFile(c: Clip, i: nat): string
  {
    "input_" + Decimal(i) + (if Truthy(c.videoUrl) then ".mp4" else ".jpg")
  }

  function AudioFile(i: nat): string
  {
    "audio_" + Decimal(i) + ".mp3"
  }

  /** A video loops its input; a still is read once. */
  function AssetInputs(c: Clip, i: nat): seq<string>
  {
    if Truthy(c.videoUrl) then ["-stream_loop", "-1", "-i", AssetFile(c, i)] else ["-i", AssetFile(c, i)]
  }

  /** The narration, or five seconds of silence when there is no audio URL
      or its fetch failed. */
  function AudioInputs(i: nat, hasAudio: bool): seq<string>
  {
    if hasAudio then ["-i", AudioFile(i)] else Silence
  }

  predicate HasAudio(c: Clip, i: nat, audioOk: nat -> bool)
  {
    Truthy(c.audioUrl) && audioOk(i)
  }

  /** The scene length in seconds: the last cue's onset (100-ns ticks) plus
      1.2 s when the audio was fetched and there are cues, else 5 s. */
  function Duration(c: Clip, hasAudio: bool): real
  {
    if hasAudio && c.subtitles.Some? && |c.subtitles.value| > 0 then
      c.subtitles.value[|c.subtitles.value| - 1] as real / 10000.0 / 1000.0 + 1.2
    else SilenceSeconds
  }

  /** The frame: 720x1280 for "9:16", else 1280x720. */
  function Width(portrait: bool): nat { if portrait then 720 else 1280 }
  function Height(portrait: bool): nat { if portrait then 1280 else 720 }

  /** The visual filter of scene `i`, chosen by `imageUrl` first: a slow
      zoom over a still, or a crop-and-trim of a clip. It reads input
      `2i`. */
  function VisualFilter(c: Clip, i: nat, portrait: bool, d: real): Filter
  {
    if Truthy(c.imageUrl) then Zoompan(2 * i, Width(portrait), Height(portrait), Ceil(d * FrameRate as real), Letter(i))
    else Cropped(2 * i, Width(portrait), Height(portrait), d, Letter(i))
  }

  /** What the scene loop has built so far. */
  datatype Built = Built(inputs: seq<string>, filters: seq<Filter>, durations: seq<real>, written: seq<string>)

  /** The built lists and, once an asset fetch failed, the scene number in
      the error. */
  datatype Stage = Stage(b: Built, failed: Option<nat>)

  /** One pass of the scene loop over scene `i`. */
  function AddScene(b: Built, c: Clip, i: nat, portrait: bool, assetOk: nat -> bool, audioOk: nat -> bool): Stage
  {
    if !HasAsset(c) then Stage(b, None)
    else if !assetOk(i) then Stage(b, Some(i + 1))
    else
      var audio := HasAudio(c, i, audioOk);
      var d := Duration(c, audio);
      Stage(Built(b.inputs + AssetInputs(c, i) + AudioInputs(i, audio),
                  b.filters + [VisualFilter(c, i, portrait, d), Resample(2 * i + 1, Letter(i))],
                  b.durations + [d],
                  b.written + [AssetFile(c, i)] + (if audio then [AudioFile(i)] else [])),
            None)
  }

  /** The scene loop over the first `k` scenes; it stops at the first
      failure. */
  function Collect(scenes: seq<Clip>, portrait: bool, assetOk: nat -> bool, audioOk: nat -> bool, k: nat): Stage
    requires k <= |scenes|
  {
    if k == 0 then Stage(Built([], [], [], []), None)
    else
      var prev := Collect(scenes, portrait, assetOk, audioOk, k - 1);
      if prev.failed.Some? then prev else AddScene(prev.b, scenes[k - 1], k - 1, portrait, assetOk, audioOk)
  }

  // ---------------------------------------------------------------------------
  // The cross-fade chain
  // ---------------------------------------------------------------------------

  /** `sceneDurations[i]`. */
  function Dur(ds: seq<real>, i: nat): Num
  {
    if i < |ds| then Val(ds[i]) else NaN
  }

  function Plus(x: Num, y: Num): Num
  {
    if x.Val? && y.Val? then Val(x.v + y.v) else NaN
  }

  function Minus(x: Num, y: real): Num
  {
    if x.Val? then Val(x.v - y) else NaN
  }

  /** `totalOffset` at the start of pass `i` of the cross-fade loop. */
  function Total(ds: seq<real>, i: nat): Num
    requires i >= 1
  {
    if i == 1 then Dur(ds, 0) else Plus(Total(ds, i - 1), Minus(Dur(ds, i - 1), TransitionSeconds))
  }

  /** `currentV` at the start of pass `i`. */
  function Current(i: nat): VLabel
  {
    if i <= 1 then SceneV(Letter(0)) else Faded(i - 1)
  }

  /** The cross-fade pushed by pass `i`. */
  function XFadeAt(ds: seq<real>, i: nat): Filter
    requires i >= 1
  {
    XFade(Current(i), Letter(i), Minus(Total(ds, i), TransitionSeconds), i)
  }

  /** The cross-fades pushed by passes `1 .. k-1`. */
  function Chain(ds: seq<real>, k: nat): seq<Filter>
  {
    if k <= 1 then [] else Chain(ds, k - 1) + [XFadeAt(ds, k - 1)]
  }

  function Sum(ds: seq<real>): real
  {
    if |ds| == 0 then 0.0 else Sum(ds[..|ds| - 1]) + ds[|ds| - 1]
  }

  /** While the durations line up with the scenes, the running total at
      pass `i` is the sum of the first `i` durations less one transition per
      earlier fade, so the `i`-th fade starts at that sum less `i`
      transitions. */
  lemma {:induction false} TotalClosedForm(ds: seq<real>, i: nat)
    requires 1 <= i <= |ds|
    ensures Total(ds, i) == Val(Sum(ds[..i]) - (i - 1) as real * TransitionSeconds)
    ensures XFadeAt(ds, i).offset == Val(Sum(ds[..i]) - i as real * TransitionSeconds)
  {
    if i == 1 {
      assert ds[..1][..0] == [];
    } else {
      TotalClosedForm(ds, i - 1);
      assert ds[..i][..i - 1] == ds[..i - 1];
    }
  }

  /** When every duration exceeds the transition, fade offsets strictly
      increase. */
  lemma OffsetsIncrease(ds: seq<real>, i: nat)
    requires 1 <= i < |ds|
    requires forall j :: 0 <= j < |ds| ==> ds[j] > TransitionSeconds
    ensures XFadeAt(ds, i).offset.Val? && XFadeAt(ds, i + 1).offset.Val?
    ensures XFadeAt(ds, i).offset.v < XFadeAt(ds, i + 1).offset.v
  {
    TotalClosedForm(ds, i);
    TotalClosedForm(ds, i + 1);
    assert ds[..i + 1][..i] == ds[..i];
  }

  /** Once the pass index runs past the durations, the offsets are `NaN`. */
  lemma {:induction false} TotalPastEndIsNaN(ds: seq<real>, i: nat)
    requires i > |ds| && i >= 1
    ensures Total(ds, i) == NaN && XFadeAt(ds, i).offset == NaN
  {
    if i > 1 && i - 1 > |ds| {
      TotalPastEndIsNaN(ds, i - 1);
    }
  }

  /** Every pass reads the previous pass's output and the next scene's
      label, and the chain's last output is `[v_xf<n-1>]`. */
  lemma {:induction false} ChainLinks(ds: seq<real>, k: nat)
    requires k >= 1
    ensures |Chain(ds, k)| == k - 1
    ensures forall j :: 0 <= j < k - 1 ==>
      Chain(ds, k)[j].XFade? && Chain(ds, k)[j].from == Current(j + 1)
      && Chain(ds, k)[j].next == Letter(j + 1) && Chain(ds, k)[j].out == j + 1
  {
    if k > 1 {
      ChainLinks(ds, k - 1);
    }
  }

  // ---------------------------------------------------------------------------
  // The whole plan
  // ---------------------------------------------------------------------------

  /** The voice concat over every scene's audio label, skipped or not. */
  function VoiceConcat(n: nat): Filter
  {
    Concat(seq(n, j requires 0 <= j => Letter(j)), n)
  }

  function MusicInputs(): seq<string>
  {
    ["-i", MusicFile]
  }

  /** The plan `renderVideo` hands to the engine, or the asset error. */
  function PlanOf(scenes: seq<Clip>, aspect: Option<string>, assetOk: nat -> bool, audioOk: nat -> bool,
                  musicOk: bool): Outcome
  {
    var st := Collect(scenes, aspect == Some("9:16"), assetOk, audioOk, |scenes|);
    if st.failed.Some? then AssetMissing(st.failed.value)
    else
      var n := |scenes|;
      var graph := st.b.filters + [VoiceConcat(n)] + Chain(st.b.durations, n);
      if musicOk then
        var inputs := st.b.inputs + MusicInputs();
        Rendered(Plan(inputs, graph + [MixMusic(CountI(inputs) - 1)], st.b.durations, Current(n)))
      else Rendered(Plan(st.b.inputs, graph + [VoiceOnly], st.b.durations, Current(n)))
  }

  /** The files written into the workspace before the plan is complete. */
  function WrittenBy(scenes: seq<Clip>, aspect: Option<string>, assetOk: nat -> bool, audioOk: nat -> bool,
                     musicOk: bool): seq<string>
  {
    var st := Collect(scenes, aspect == Some("9:16"), assetOk, audioOk, |scenes|);
    st.b.written + (if st.failed.None? && musicOk then [MusicFile] else [])
  }

  /** The scene loop never emits anything after a failure. */
  lemma {:induction false} FailureSticks(scenes: seq<Clip>, portrait: bool, assetOk: nat -> bool,
                                         audioOk: nat -> bool, i: nat, k: nat)
    requires i <= k <= |scenes|
    requires Collect(scenes, portrait, assetOk, audioOk, i).failed.Some?
    ensures Collect(scenes, portrait, assetOk, audioOk, k) == Collect(scenes, portrait, assetOk, audioOk, i)
    decreases k
  {
    if k > i {
      FailureSticks(scenes, portrait, assetOk, audioOk, i, k - 1);
    }
  }

  lemma {:induction false} CountINone(s: seq<string>)
    requires forall k :: 0 <= k < |s| ==> s[k] != "-i"
    ensures CountI(s) == 0
  {
    if |s| > 0 {
      CountINone(s[..|s| - 1]);
    }
  }

  /** One `-i` between entries that are not `-i`. */
  lemma CountIOne(a: seq<string>, b: seq<string>)
    requires forall k :: 0 <= k < |a| ==> a[k] != "-i"
    requires forall k :: 0 <= k < |b| ==> b[k] != "-i"
    ensures CountI(a + ["-i"] + b) == 1
  {
    CountINone(a);
    CountINone(b);
    CountIAppend(a, ["-i"]);
    CountIAppend(a + ["-i"], b);
    assert ["-i"][..0] == [];
  }

  lemma CountIScene(c: Clip, i: nat, hasAudio: bool)
    ensures CountI(AssetInputs(c, i)) == 1 && CountI(AudioInputs(i, hasAudio)) == 1
  {
    assert AssetFile(c, i)[0] == 'i';
    assert AudioFile(i)[0] == 'a';
    if Truthy(c.videoUrl) {
      CountIOne(["-stream_loop", "-1"], [AssetFile(c, i)]);
      assert AssetInputs(c, i) == ["-stream_loop", "-1"] + ["-i"] + [AssetFile(c, i)];
    } else {
      CountIOne([], [AssetFile(c, i)]);
      assert AssetInputs(c, i) == [] + ["-i"] + [AssetFile(c, i)];
    }
    if hasAudio {
      CountIOne([], [AudioFile(i)]);
      assert AudioInputs(i, hasAudio) == [] + ["-i"] + [AudioFile(i)];
    } else {
      CountIOne(["-f", "lavfi", "-t", "5"], ["anullsrc=r=44100:cl=stereo"]);
      assert Silence == ["-f", "lavfi", "-t", "5"] + ["-i"] + ["anullsrc=r=44100:cl=stereo"];
    }
  }

  /** One pass of the scene loop pushes two `-i` inputs, two filters and
      one duration for a kept scene, and nothing otherwise. */
  lemma AddSceneCounts(b: Built, c: Clip, i: nat, portrait: bool, assetOk: nat -> bool, audioOk: nat -> bool)
    ensures var st := AddScene(b, c, i, portrait, assetOk, audioOk);
      var kept := if HasAsset(c) && assetOk(i) then 1 else 0;
      && CountI(st.b.inputs) == CountI(b.inputs) + 2 * kept
      && |st.b.filters| == |b.filters| + 2 * kept
      && |st.b.durations| == |b.durations| + kept
      && (st.failed.None? <==> !HasAsset(c) || assetOk(i))
  {
    if HasAsset(c) && assetOk(i) {
      var audio := HasAudio(c, i, audioOk);
      CountIScene(c, i, audio);
      CountIAppend(b.inputs, AssetInputs(c, i));
      CountIAppend(b.inputs + AssetInputs(c, i), AudioInputs(i, audio));
    }
  }

  /** Every kept scene pushes exactly two `-i` inputs and two filters, and
      a skipped scene pushes nothing; the failing scene pushes nothing
      either. */
  lemma {:induction false} TwoInputsPerScene(scenes: seq<Clip>, portrait: bool, assetOk: nat -> bool,
                                             audioOk: nat -> bool, k: nat)
    requires k <= |scenes|
    ensures var b := Collect(scenes, portrait, assetOk, audioOk, k).b;
      CountI(b.inputs) == 2 * |b.durations| && |b.filters| == 2 * |b.durations|
    ensures Collect(scenes, portrait, assetOk, audioOk, k).failed.None? ==>
      |Collect(scenes, portrait, assetOk, audioOk, k).b.durations| == KeptCount(scenes[..k])
  {
    if k > 0 {
      TwoInputsPerScene(scenes, portrait, assetOk, audioOk, k - 1);
      var prev := Collect(scenes, portrait, assetOk, audioOk, k - 1);
      assert scenes[..k][..k - 1] == scenes[..k - 1];
      if prev.failed.None? {
        AddSceneCounts(prev.b, scenes[k - 1], k - 1, portrait, assetOk, audioOk);
      }
    }
  }

  /** The number of scenes with an asset. */
  function KeptCount(scenes: seq<Clip>): nat
  {
    if |scenes| == 0 then 0 else KeptCount(scenes[..|scenes| - 1]) + (if HasAsset(scenes[|scenes| - 1]) then 1 else 0)
  }

  lemma {:induction false} KeptCountBound(scenes: seq<Clip>)
    ensures KeptCount(scenes) <= |scenes|
    ensures KeptCount(scenes) == |scenes| <==> forall j :: 0 <= j < |scenes| ==> HasAsset(scenes[j])
  {
    if |scenes| > 0 {
      var init := scenes[..|scenes| - 1];
      KeptCountBound(init);
      assert forall j :: 0 <= j < |init| ==> init[j] == scenes[j];
    }
  }

  /** Scene `i`'s filters read inputs `2i` and `2i+1`, which are its own
      streams exactly when no earlier scene was skipped. */
  lemma InputIndexMatchesIffNoSkip(scenes: seq<Clip>, portrait: bool, assetOk: nat -> bool,
                                   audioOk: nat -> bool, i: nat)
    requires i < |scenes| && HasAsset(scenes[i])
    requires Collect(scenes, portrait, assetOk, audioOk, i + 1).failed.None?
    ensures var before := Collect(scenes, portrait, assetOk, audioOk, i).b;
      var after := Collect(scenes, portrait, assetOk, audioOk, i + 1).b;
      && after.filters[|before.filters|] == VisualFilter(scenes[i], i, portrait, after.durations[|before.durations|])
      && after.filters[|before.filters|].input == 2 * i
      && (CountI(before.inputs) == 2 * i <==> forall j :: 0 <= j < i ==> HasAsset(scenes[j]))
  {
    var prev := Collect(scenes, portrait, assetOk, audioOk, i);
    TwoInputsPerScene(scenes, portrait, assetOk, audioOk, i);
    KeptCountBound(scenes[..i]);
    assert forall j :: 0 <= j < i ==> scenes[..i][j] == scenes[j];
  }

  /** Which kind of asset file is fetched follows `videoUrl`, which filter
      is used follows `imageUrl`; they agree (a clip is cropped, a still is
      zoomed) exactly when one of the two URLs is set. */
  lemma KindsAgreeIffOneSet(c: Clip, i: nat, portrait: bool, d: real)
    requires HasAsset(c)
    ensures (AssetInputs(c, i)[0] == "-stream_loop") == Truthy(c.videoUrl)
    ensures VisualFilter(c, i, portrait, d).Zoompan? == Truthy(c.imageUrl)
    ensures (Truthy(c.videoUrl) == VisualFilter(c, i, portrait, d).Cropped?) <==> (Truthy(c.videoUrl) != Truthy(c.imageUrl))
  {
    if !Truthy(c.videoUrl) {
      assert AssetInputs(c, i)[0] == "-i";
    }
  }

  /** A still is zoomed for `ceil(25 d)` frames, which covers the scene;
      the frame is portrait for "9:16" and landscape otherwise. */
  lemma StillCoversScene(c: Clip, i: nat, portrait: bool, d: real)
    requires Truthy(c.imageUrl)
    ensures var f := VisualFilter(c, i, portrait, d);
      && f.Zoompan? && (f.frames - 1) as real < d * 25.0 <= f.frames as real
      && (f.width, f.height) == (if portrait then (720, 1280) else (1280, 720))
  {
    CeilBounds(d * 25.0);
  }

  /** The outcome: the first scene with an asset whose fetch fails aborts
      with its 1-based number; an audio failure only substitutes silence. */
  lemma {:induction false} FirstAssetFailureAborts(scenes: seq<Clip>, portrait: bool, assetOk: nat -> bool,
                                                   audioOk: nat -> bool, k: nat)
    requires k <= |scenes|
    ensures var st := Collect(scenes, portrait, assetOk, audioOk, k);
      st.failed.Some? <==> exists j :: 0 <= j < k && HasAsset(scenes[j]) && !assetOk(j)
    ensures var st := Collect(scenes, portrait, assetOk, audioOk, k);
      st.failed.Some? ==>
        var m := st.failed.value;
        1 <= m <= k && HasAsset(scenes[m - 1]) && !assetOk(m - 1)
        && forall j :: 0 <= j < m - 1 && HasAsset(scenes[j]) ==> assetOk(j)
  {
    if k > 0 {
      FirstAssetFailureAborts(scenes, portrait, assetOk, audioOk, k - 1);
    }
  }

  /** Music is added as an input and mixed in, or neither; its input index
      is the number of `-i` entries before it, two per kept scene. Without
      it the voice track alone is used. */
  lemma MusicBothOrNeither(scenes: seq<Clip>, aspect: Option<string>, assetOk: nat -> bool, audioOk: nat -> bool,
                           musicOk: bool)
    requires PlanOf(scenes, aspect, assetOk, audioOk, musicOk).Rendered?
    ensures var p := PlanOf(scenes, aspect, assetOk, audioOk, musicOk).plan;
      var st := Collect(scenes, aspect == Some("9:16"), assetOk, audioOk, |scenes|);
      && (musicOk ==>
            && p.inputs == st.b.inputs + ["-i", MusicFile]
            && p.filters[|p.filters| - 1] == MixMusic(2 * |p.durations|)
            && p.filters[|p.filters| - 1].music == CountI(st.b.inputs))
      && (!musicOk ==> p.inputs == st.b.inputs && p.filters[|p.filters| - 1] == VoiceOnly)
      && (forall f :: f in p.filters[..|p.filters| - 1] ==> !f.MixMusic? && !f.VoiceOnly?)
  {
    var portrait := aspect == Some("9:16");
    var st := Collect(scenes, portrait, assetOk, audioOk, |scenes|);
    TwoInputsPerScene(scenes, portrait, assetOk, audioOk, |scenes|);
    CountIAppend(st.b.inputs, MusicInputs());
    var p := PlanOf(scenes, aspect, assetOk, audioOk, musicOk).plan;
    var graph := st.b.filters + [VoiceConcat(|scenes|)] + Chain(st.b.durations, |scenes|);
    assert p.filters == graph + [p.filters[|p.filters| - 1]];
    assert p.filters[..|p.filters| - 1] == graph;
    GraphHasNoMix(scenes, portrait, assetOk, audioOk);
  }

  /** Before the music step the graph holds no music or voice-only filter. */
  lemma GraphHasNoMix(scenes: seq<Clip>, portrait: bool, assetOk: nat -> bool, audioOk: nat -> bool)
    ensures var st := Collect(scenes, portrait, assetOk, audioOk, |scenes|);
      forall f :: f in st.b.filters + [VoiceConcat(|scenes|)] + Chain(st.b.durations, |scenes|) ==>
        !f.MixMusic? && !f.VoiceOnly?
  {
    var st := Collect(scenes, portrait, assetOk, audioOk, |scenes|);
    forall f | f in st.b.filters
      ensures f.Zoompan? || f.Cropped? || f.Resample?
    {
      SceneFiltersKind(scenes, portrait, assetOk, audioOk, |scenes|, f);
    }
    if |scenes| >= 1 {
      ChainLinks(st.b.durations, |scenes|);
    }
  }

  /** The scene loop only pushes visual and resample filters. */
  lemma {:induction false} SceneFiltersKind(scenes: seq<Clip>, portrait: bool, assetOk: nat -> bool,
                                            audioOk: nat -> bool, k: nat, f: Filter)
    requires k <= |scenes|
    requires f in Collect(scenes, portrait, assetOk, audioOk, k).b.filters
    ensures f.Zoompan? || f.Cropped? || f.Resample?
  {
    if k > 0 {
      var prev := Collect(scenes, portrait, assetOk, audioOk, k - 1);
      if f in prev.b.filters {
        SceneFiltersKind(scenes, portrait, assetOk, audioOk, k - 1, f);
      }
    }
  }

  /** The mapped video is `[va]` for at most one scene and otherwise the
      output of the last cross-fade, `[v_xf<n-1>]`; the concat covers every
      scene. */
  lemma MappedVideoIsLastFade(scenes: seq<Clip>, aspect: Option<string>, assetOk: nat -> bool,
                              audioOk: nat -> bool, musicOk: bool)
    requires PlanOf(scenes, aspect, assetOk, audioOk, musicOk).Rendered?
    ensures var p := PlanOf(scenes, aspect, assetOk, audioOk, musicOk).plan;
      && (|scenes| <= 1 ==> p.mapVideo == SceneV(Letter(0)))
      && (|scenes| >= 2 ==>
            && p.mapVideo == Faded(|scenes| - 1)
            && p.filters[|p.filters| - 2] == XFadeAt(p.durations, |scenes| - 1)
            && p.filters[|p.filters| - 2].out == p.mapVideo.k)
      && VoiceConcat(|scenes|) in p.filters
  {
    var portrait := aspect == Some("9:16");
    var st := Collect(scenes, portrait, assetOk, audioOk, |scenes|);
    var p := PlanOf(scenes, aspect, assetOk, audioOk, musicOk).plan;
    var n := |scenes|;
    var graph := st.b.filters + [VoiceConcat(n)] + Chain(st.b.durations, n);
    assert graph[|st.b.filters|] == VoiceConcat(n);
    assert p.filters[|st.b.filters|] == VoiceConcat(n);
  }

  // ---------------------------------------------------------------------------
  // Building the plan
  // ---------------------------------------------------------------------------

  /** The scene loop of `renderVideo`: it pushes each kept scene's inputs
      and filters and records its duration, and throws at the first asset
      that cannot be fetched. */
  method ScanScenes(scenes: seq<Clip>, portrait: bool, assetOk: nat -> bool, audioOk: nat -> bool)
    returns (b: Built, failed: Option<nat>)
    ensures Stage(b, failed) == Collect(scenes, portrait, assetOk, audioOk, |scenes|)
  {
    var inputs: seq<string> := [];
    var filters: seq<Filter> := [];
    var durations: seq<real> := [];
    var written: seq<string> := [];
    failed := None;
    var i := 0;
    while i < |scenes| && failed.None?
      invariant 0 <= i <= |scenes|
      invariant Stage(Built(inputs, filters, durations, written), failed) == Collect(scenes, portrait, assetOk, audioOk, i)
    {
      var c := scenes[i];
      if HasAsset(c) {
        if !assetOk(i) {
          failed := Some(i + 1);
        } else {
          inputs := inputs + AssetInputs(c, i);
          written := written + [AssetFile(c, i)];
          var audio := HasAudio(c, i, audioOk);
          if audio {
            inputs := inputs + ["-i", AudioFile(i)];
            written := written + [AudioFile(i)];
          } else {
            inputs := inputs + Silence;
          }
          var d := Duration(c, audio);
          durations := durations + [d];
          filters := filters + [VisualFilter(c, i, portrait, d), Resample(2 * i + 1, Letter(i))];
        }
      }
      i := i + 1;
    }
    if failed.Some? {
      FailureSticks(scenes, portrait, assetOk, audioOk, i, |scenes|);
    }
    b := Built(inputs, filters, durations, written);
  }

  /** The cross-fade loop over `n` scenes: the fades, the last output
      label and the final running total. */
  method FadeChain(durations: seq<real>, n: nat) returns (fades: seq<Filter>, currentV: VLabel, total: Num)
    ensures fades == Chain(durations, n) && currentV == Current(n)
    ensures n >= 1 ==> total == Total(durations, n)
  {
    currentV := SceneV(Letter(0));
    total := Dur(durations, 0);
    fades := [];
    var k := 1;
    while k < n
      invariant 1 <= k <= if n == 0 then 1 else n
      invariant currentV == Current(k) && total == Total(durations, k) && fades == Chain(durations, k)
    {
      fades := fades + [XFade(currentV, Letter(k), Minus(total, TransitionSeconds), k)];
      currentV := Faded(k);
      total := Plus(total, Minus(Dur(durations, k), TransitionSeconds));
      k := k + 1;
    }
  }

  /** The body of `renderVideo` between the two clean-ups: the scene loop,
      the concat, the cross-fade loop and the music. */
  method BuildPlan(scenes: seq<Clip>, aspect: Option<string>, assetOk: nat -> bool, audioOk: nat -> bool,
                   musicOk: bool) returns (r: Outcome, written: seq<string>)
    ensures r == PlanOf(scenes, aspect, assetOk, audioOk, musicOk)
    ensures written == WrittenBy(scenes, aspect, assetOk, audioOk, musicOk)
  {
    var b, failed := ScanScenes(scenes, aspect == Some("9:16"), assetOk, audioOk);
    written := b.written;
    if failed.Some? {
      return AssetMissing(failed.value), written;
    }
    var n := |scenes|;
    var fades, currentV, _ := FadeChain(b.durations, n);
    var inputs := b.inputs;
    var filters := b.filters + [VoiceConcat(n)] + fades;
    if musicOk {
      written := written + [MusicFile];
      inputs := inputs + ["-i", MusicFile];
      var bgIdx := CountI(inputs) - 1;
      filters := filters + [MixMusic(bgIdx)];
    } else {
      filters := filters + [VoiceOnly];
    }
    r := Rendered(Plan(inputs, filters, b.durations, currentV));
  }

  // ---------------------------------------------------------------------------
  // The working directory
  // ---------------------------------------------------------------------------

  /** A listing entry survives a clean-up if it is `.` or `..`, or if its
      deletion failed (the failure is swallowed). */
  predicate Survives(f: string, deleteOk: string -> bool)
  {
    f == "." || f == ".." || !deleteOk(f)
  }

  function Survivors(fs: seq<string>, deleteOk: string -> bool): seq<string>
  {
    if |fs| == 0 then []
    else Survivors(fs[..|fs| - 1], deleteOk) + (if Survives(fs[|fs| - 1], deleteOk) then [fs[|fs| - 1]] else [])
  }

  /** The clean-up: nothing happens when the listing fails. */
  function Purged(fs: seq<string>, listOk: bool, deleteOk: string -> bool): seq<string>
  {
    if listOk then Survivors(fs, deleteOk) else fs
  }

  /** `writeFile`: a new name joins the listing, an existing one is
      overwritten. */
  function Written1(fs: seq<string>, name: string): seq<string>
  {
    if name in fs then fs else fs + [name]
  }

  function WriteAll(fs: seq<string>, names: seq<string>): seq<string>
  {
    if |names| == 0 then fs else Written1(WriteAll(fs, names[..|names| - 1]), names[|names| - 1])
  }

  /** After a clean-up whose listing succeeded only `.`, `..` and entries
      whose deletion failed remain, each of them from before; nothing that
      could be deleted is left. A second clean-up changes nothing. */
  lemma {:induction false} PurgeLeavesOnlyDots(fs: seq<string>, deleteOk: string -> bool)
    ensures forall f :: f in Survivors(fs, deleteOk) ==> f in fs && Survives(f, deleteOk)
    ensures forall f :: f in fs && Survives(f, deleteOk) ==> f in Survivors(fs, deleteOk)
    ensures Survivors(Survivors(fs, deleteOk), deleteOk) == Survivors(fs, deleteOk)
  {
    if |fs| > 0 {
      var init := fs[..|fs| - 1];
      PurgeLeavesOnlyDots(init, deleteOk);
      assert fs == init + [fs[|fs| - 1]];
      SurvivorsAppend(Survivors(init, deleteOk), if Survives(fs[|fs| - 1], deleteOk) then [fs[|fs| - 1]] else [], deleteOk);
    }
  }

  lemma SurvivorsSnoc(s: seq<string>, x: string, deleteOk: string -> bool)
    ensures Survivors(s + [x], deleteOk) == Survivors(s, deleteOk) + (if Survives(x, deleteOk) then [x] else [])
  {
    assert (s + [x])[..|s|] == s;
  }

  lemma {:induction false} SurvivorsAppend(a: seq<string>, b: seq<string>, deleteOk: string -> bool)
    requires forall f :: f in b ==> Survives(f, deleteOk)
    requires Survivors(a, deleteOk) == a
    ensures Survivors(a + b, deleteOk) == a + b
    decreases |b|
  {
    if |b| > 0 {
      var init, x := b[..|b| - 1], b[|b| - 1];
      assert forall f :: f in init ==> f in b;
      SurvivorsAppend(a, init, deleteOk);
      assert a + b == (a + init) + [x];
      SurvivorsSnoc(a + init, x, deleteOk);
    } else {
      assert a + b == a;
    }
  }

  class Workspace {
    /** The engine's directory listing. */
    var files: seq<string>

    constructor (files: seq<string>)
      ensures this.files == files
    {
      this.files := files;
    }

    /** The clean-up loop at the start and in `finally`. */
    method Purge(listOk: bool, deleteOk: string -> bool)
      modifies this
      ensures files == Purged(old(files), listOk, deleteOk)
    {
      if !listOk {
        return;
      }
      var listing := files;
      var kept: seq<string> := [];
      var i := 0;
      while i < |listing|
        invariant 0 <= i <= |listing|
        invariant kept == Survivors(listing[..i], deleteOk)
      {
        assert listing[..i + 1][..i] == listing[..i];
        if Survives(listing[i], deleteOk) {
          kept := kept + [listing[i]];
        }
        i := i + 1;
      }
      assert listing[..i] == listing;
      files := kept;
    }

    method WriteFiles(names: seq<string>)
      modifies this
      ensures files == WriteAll(old(files), names)
    {
      var fs := files;
      var i := 0;
      while i < |names|
        invariant 0 <= i <= |names|
        invariant fs == WriteAll(old(files), names[..i])
      {
        assert names[..i + 1][..i] == names[..i];
        if names[i] !in fs {
          fs := fs + [names[i]];
        }
        i := i + 1;
      }
      assert names[..i] == names;
      files := fs;
    }

    /** `renderVideo`: clean up, build (writing the fetched files), clean up
      again in `finally` on both exits. The two clean-ups list and delete
      separately, so each has its own listing and deletion outcomes. */
    method Render(scenes: seq<Clip>, aspect: Option<string>, assetOk: nat -> bool, audioOk: nat -> bool,
                  musicOk: bool, listOk: bool, deleteOk: string -> bool,
                  finalListOk: bool, finalDeleteOk: string -> bool) returns (r: Outcome)
      modifies this
      ensures r == PlanOf(scenes, aspect, assetOk, audioOk, musicOk)
      ensures files == Purged(WriteAll(Purged(old(files), listOk, deleteOk),
                                       WrittenBy(scenes, aspect, assetOk, audioOk, musicOk)),
                              finalListOk, finalDeleteOk)
    {
      Purge(listOk, deleteOk);
      var written;
      r, written := BuildPlan(scenes, aspect, assetOk, audioOk, musicOk);
      WriteFiles(written);
      Purge(finalListOk, finalDeleteOk);
    }
  }
}
