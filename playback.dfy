/** The preview player: `handleSpeak`, `playScene`, `startFullPlayback` and
    `stopPlayback` over the narration audio, the background music and the
    playback flags. The state setters and refs become fields. A callback
    reads `isPlaying` as it was at the last render (`rendered`), because
    every callback is a closure created during some render. Audio playback
    is modelled by its events: a narration ends, any narration fails to
    load or to start (the replaced one included), a 100 ms timer fires, and
    an animation frame runs at some playback time. */
module Playback {
  import opened Common
  import opened Scenes
  import opened ProductionStore
  import Captions

  /** The music volume while a narration plays, and after it. */
  const DuckedVolume: real := 0.1
  const MusicVolume: real := 0.3

  /** What a narration runs when it ends. `NoCallback` is the single-scene
      preview. `Advance` is the callback `playScene(index)` passes; it holds
      the `isPlaying` value its closure captured. */
  datatype Callback = NoCallback | Advance(index: nat, captured: bool)

  /** A narration `handleSpeak` created: its source, whether it is playing,
      its cues sorted by onset, and its end callback. */
  datatype Narration = Narration(url: Url, playing: bool, cues: seq<Cue>, onEnd: Callback)

  /** The looping background track. */
  datatype Music = Music(volume: real, paused: bool)

  /** A pending `setTimeout(() => playScene(index), 100)`, with the
      `isPlaying` value of the closure it will run. */
  datatype Timer = Timer(index: nat, captured: bool)

  datatype PlayerState = PlayerState(
    isPlaying: bool,
    rendered: bool,
    cinema: bool,
    activeScene: nat,
    isSpeaking: bool,
    wordIndex: int,
    narrations: seq<Narration>,
    current: Option<nat>,
    music: Option<Music>,
    timers: seq<Timer>)

  /** `musicRef.current.volume = v`, when there is music. */
  function SetVolume(m: Option<Music>, v: real): Option<Music>
  {
    if m.Some? then Some(m.value.(volume := v)) else None
  }

  /** `musicRef.current.pause()`, when there is music. */
  function PauseMusic(m: Option<Music>): Option<Music>
  {
    if m.Some? then Some(m.value.(paused := true)) else None
  }

  /** `audioRef.current.pause()`, when there is a current narration. */
  function PauseCurrent(st: PlayerState): seq<Narration>
  {
    if st.current.Some? && st.current.value < |st.narrations| then
      st.narrations[st.current.value := st.narrations[st.current.value].(playing := false)]
    else st.narrations
  }

  /** The cues a narration follows: the subtitles sorted by onset when
      there are any, else none (no sync). */
  function CuesOf(subtitles: Option<Subs>): seq<Cue>
  {
    if subtitles.Some? && subtitles.value.Cues? && |subtitles.value.cues| > 0 then
      Captions.SortByOffset(subtitles.value.cues)
    else []
  }

  /** Whether the current narration is playing. */
  predicate Playing(st: PlayerState)
  {
    st.current.Some? && st.current.value < |st.narrations| && st.narrations[st.current.value].playing
  }

  /** At most the current narration plays, and every narration's cues are
      sorted. */
  predicate Valid(st: PlayerState)
  {
    && (st.current.Some? ==> st.current.value < |st.narrations|)
    && (forall j :: 0 <= j < |st.narrations| && st.current != Some(j) ==> !st.narrations[j].playing)
    && (forall j :: 0 <= j < |st.narrations| ==> Captions.Sorted(st.narrations[j].cues))
  }

  // ---------------------------------------------------------------------------
  // The operations
  // ---------------------------------------------------------------------------

  /** `handleSpeak(text, onEnd, prefetchedUrl, subtitles)`: the previous
      narration is paused, then a new one is started from the prefetched
      URL or the TTS proxy. */
  function Speak(st: PlayerState, text: string, onEnd: Callback, prefetched: Option<Url>,
                 subtitles: Option<Subs>, voice: string): PlayerState
  {
    var url := if prefetched.Some? then prefetched.value else TtsProxy(text, voice);
    var ns := PauseCurrent(st);
    st.(wordIndex := -1, isSpeaking := true,
        narrations := ns + [Narration(url, true, CuesOf(subtitles), onEnd)], current := Some(|ns|))
  }

  /** `playScene(index)` from a closure that captured `captured`. Past the
      end it stops. Otherwise it marks the scene active, ducks the music and
      speaks the scene. A hole in the scene array makes `scene.script` throw
      after the music was ducked. */
  function PlaySceneStep(st: PlayerState, prod: Option<Production>, index: nat, captured: bool, voice: string): PlayerState
  {
    if prod.None? || index >= |prod.value.scenes| then
      st.(isPlaying := false, music := PauseMusic(st.music))
    else
      var ducked := st.(activeScene := index, music := SetVolume(st.music, DuckedVolume));
      var slot := prod.value.scenes[index];
      if slot.None? then ducked
      else Speak(ducked, JsText(slot.value.script), Advance(index, captured), slot.value.audioUrl,
                 slot.value.subtitles, voice)
  }

  /** `retrySceneAudio()`: the active scene's narration is spoken again,
      with no end callback. Without a production or a scene in the active
      slot nothing happens. */
  function RetryStep(st: PlayerState, prod: Option<Production>, voice: string): PlayerState
  {
    if prod.None? || st.activeScene >= |prod.value.scenes| || prod.value.scenes[st.activeScene].None? then st
    else
      var slot := prod.value.scenes[st.activeScene].value;
      Speak(st, JsText(slot.script), NoCallback, slot.audioUrl, slot.subtitles, voice)
  }

  /** A narration's callback. `advance` is the flag the callback tests
      before scheduling the next scene. */
  function RunCallback(st: PlayerState, cb: Callback, advance: bool): PlayerState
  {
    match cb
    case NoCallback => st
    case Advance(i, captured) =>
      var restored := st.(music := SetVolume(st.music, MusicVolume));
      if advance then restored.(timers := restored.timers + [Timer(i + 1, captured)]) else restored
  }

  /** Narration `j` stops playing and the captions are cleared. */
  function SilencedAt(st: PlayerState, j: nat): PlayerState
    requires j < |st.narrations|
  {
    st.(wordIndex := -1, isSpeaking := false, narrations := st.narrations[j := st.narrations[j].(playing := false)])
  }

  /** `onended` or `onerror` of narration `j`, as written; the two handlers
      have the same body. `ended` fires only on the narration that plays to
      its end. `error` fires on any narration whose load fails, and on the
      narration `handleSpeak` replaced, because setting its source to the
      empty string runs the media load algorithm, which fails. The advance
      callback tests the `isPlaying` its closure captured. */
  function EndedAt(st: PlayerState, j: nat): PlayerState
    requires j < |st.narrations|
  {
    var cb := st.narrations[j].onEnd;
    RunCallback(SilencedAt(st, j), cb, cb.Advance? && cb.captured)
  }

  /** The end of the current narration. */
  function Ended(st: PlayerState): PlayerState
    requires Playing(st)
  {
    EndedAt(st, st.current.value)
  }

  /** The rejected `play()` of narration `j`, as written: its load failed,
      or a `pause()` (in `handleSpeak` or `stopPlayback`) aborted a start
      still pending. Only the callback runs. */
  function RejectedAt(st: PlayerState, j: nat): PlayerState
    requires j < |st.narrations|
  {
    var n := st.narrations[j];
    var cb := n.onEnd;
    RunCallback(st.(narrations := st.narrations[j := n.(playing := false)]), cb, cb.Advance? && cb.captured)
  }

  /** The handler as evidently intended, run by `onended`, `onerror` and
      the rejection alike: it acts only for the narration that is still
      current, releases it so that a second event of the same narration is
      ignored, and tests the live `isPlaying`. */
  function Settle(st: PlayerState, j: nat): PlayerState
  {
    if st.current == Some(j) && j < |st.narrations| then
      var released := SilencedAt(st, j).(current := None);
      RunCallback(released, st.narrations[j].onEnd, st.isPlaying)
    else st
  }

  /** The first pending timer runs its `playScene`. */
  function TimerFires(st: PlayerState, prod: Option<Production>, voice: string): PlayerState
    requires |st.timers| > 0
  {
    var t := st.timers[0];
    PlaySceneStep(st.(timers := st.timers[1..]), prod, t.index, t.captured, voice)
  }

  /** One animation frame of narration `k` at `t` ms. The frame acts
      whenever `k` is still the current narration, whether or not it is
      still playing; then the highlighted word follows the cue lookup. A
      narration without cues requests no frames. */
  function Frame(st: PlayerState, k: nat, t: real): PlayerState
  {
    if st.current == Some(k) && k < |st.narrations| && |st.narrations[k].cues| > 0 then
      st.(wordIndex := Captions.NextWordIndex(st.wordIndex, st.narrations[k].cues, t))
    else st
  }

  /** `startFullPlayback`, run by a handler of the last render. */
  function Start(st: PlayerState, prod: Option<Production>, voice: string): PlayerState
  {
    if prod.None? then st
    else
      var m := if st.music.Some? then st.music.value else Music(MusicVolume, true);
      var started := st.(cinema := true, isPlaying := true, music := Some(m.(paused := false)));
      PlaySceneStep(started, prod, 0, st.rendered, voice)
  }

  /** `stopPlayback`. It does not cancel a pending timer. */
  function Stop(st: PlayerState): PlayerState
  {
    st.(isPlaying := false, cinema := false, isSpeaking := false, wordIndex := -1,
        narrations := PauseCurrent(st), current := None, music := PauseMusic(st.music))
  }

  /** A re-render: closures created from now on see the current
      `isPlaying`. */
  function Render(st: PlayerState): PlayerState
  {
    st.(rendered := st.isPlaying)
  }

  // ---------------------------------------------------------------------------
  // Properties
  // ---------------------------------------------------------------------------

  /** `handleSpeak` pauses any earlier narration before it starts the new
      one, which plays the prefetched URL or the proxy and follows the
      sorted subtitles. */
  lemma SpeakSilencesPrevious(st: PlayerState, text: string, onEnd: Callback, prefetched: Option<Url>,
                              subtitles: Option<Subs>, voice: string)
    requires Valid(st)
    ensures var r := Speak(st, text, onEnd, prefetched, subtitles, voice);
      && Valid(r) && Playing(r) && r.current == Some(|st.narrations|)
      && |r.narrations| == |st.narrations| + 1
      && (forall j :: 0 <= j < |st.narrations| ==> !r.narrations[j].playing)
      && r.narrations[|st.narrations|].url == (if prefetched.Some? then prefetched.value else TtsProxy(text, voice))
      && r.narrations[|st.narrations|].onEnd == onEnd
      && r.wordIndex == -1 && r.isSpeaking
  {
    var ns := PauseCurrent(st);
    PauseCurrentSilences(st);
    CuesOfSorted(subtitles);
    var url := if prefetched.Some? then prefetched.value else TtsProxy(text, voice);
    var started := Narration(url, true, CuesOf(subtitles), onEnd);
    var r := Speak(st, text, onEnd, prefetched, subtitles, voice);
    assert r.narrations == ns + [started] && r.current == Some(|ns|);
    forall j | 0 <= j < |r.narrations|
      ensures (r.current != Some(j) ==> !r.narrations[j].playing) && Captions.Sorted(r.narrations[j].cues)
    {
      if j < |ns| {
        assert r.narrations[j] == ns[j];
      }
    }
  }

  /** `handleSpeak` keeps at most the new narration playing. */
  lemma SpeakKeepsValid(st: PlayerState, text: string, onEnd: Callback, prefetched: Option<Url>,
                        subtitles: Option<Subs>, voice: string)
    requires Valid(st)
    ensures Valid(Speak(st, text, onEnd, prefetched, subtitles, voice))
  {
    SpeakSilencesPrevious(st, text, onEnd, prefetched, subtitles, voice);
  }

  /** `stopPlayback` keeps the invariant. */
  lemma StopKeepsValid(st: PlayerState)
    requires Valid(st)
    ensures Valid(Stop(st))
  {
    StopIdempotent(st);
  }

  /** Pausing the current narration leaves none playing and every cue list
      as it was. */
  lemma PauseCurrentSilences(st: PlayerState)
    requires Valid(st)
    ensures |PauseCurrent(st)| == |st.narrations|
    ensures forall j :: 0 <= j < |st.narrations| ==>
      !PauseCurrent(st)[j].playing && PauseCurrent(st)[j].cues == st.narrations[j].cues
  {
  }

  /** The cues a narration follows are sorted. */
  lemma CuesOfSorted(subtitles: Option<Subs>)
    ensures Captions.Sorted(CuesOf(subtitles))
  {
    if subtitles.Some? && subtitles.value.Cues? && |subtitles.value.cues| > 0 {
      Captions.SortByOffsetSorts(subtitles.value.cues);
    }
  }

  /** Past the last scene (or without a production) `playScene` sets
      `isPlaying` false, pauses the music and changes nothing else. */
  lemma PlayPastEndStops(st: PlayerState, prod: Option<Production>, index: nat, captured: bool, voice: string)
    requires prod.None? || index >= |prod.value.scenes|
    ensures var r := PlaySceneStep(st, prod, index, captured, voice);
      && r == st.(isPlaying := false, music := PauseMusic(st.music))
      && (r.music.Some? ==> r.music.value.paused)
  {
  }

  /** Inside the array `playScene` ducks the music to 0.1 while the scene
      is spoken; when the narration ends the callback restores 0.3. */
  lemma DuckThenRestore(st: PlayerState, prod: Option<Production>, index: nat, captured: bool, voice: string)
    requires Valid(st)
    requires prod.Some? && index < |prod.value.scenes| && prod.value.scenes[index].Some?
    ensures var r := PlaySceneStep(st, prod, index, captured, voice);
      && Valid(r) && Playing(r) && r.activeScene == index && r.isPlaying == st.isPlaying
      && r.timers == st.timers
      && r.narrations[r.current.value].onEnd == Advance(index, captured)
      && r.music == SetVolume(st.music, DuckedVolume)
      && Ended(r).music == SetVolume(st.music, MusicVolume)
      && !Ended(r).isSpeaking && Ended(r).wordIndex == -1
  {
    var ducked := st.(activeScene := index, music := SetVolume(st.music, DuckedVolume));
    var slot := prod.value.scenes[index].value;
    SpeakSilencesPrevious(ducked, JsText(slot.script), Advance(index, captured), slot.audioUrl, slot.subtitles, voice);
    var r := PlaySceneStep(st, prod, index, captured, voice);
    assert r == Speak(ducked, JsText(slot.script), Advance(index, captured), slot.audioUrl, slot.subtitles, voice);
    AdvanceEndRestores(r, index, captured);
  }

  /** The end of a narration started by `playScene` restores the music
      volume and clears the captions. */
  lemma AdvanceEndRestores(r: PlayerState, index: nat, captured: bool)
    requires Playing(r) && r.narrations[r.current.value].onEnd == Advance(index, captured)
    ensures Ended(r).music == SetVolume(r.music, MusicVolume)
    ensures !Ended(r).isSpeaking && Ended(r).wordIndex == -1
  {
    CallbackEffect(SilencedAt(r, r.current.value), Advance(index, captured), captured);
  }

  /** Stopping twice is stopping once, and afterwards nothing plays. */
  lemma StopIdempotent(st: PlayerState)
    requires Valid(st)
    ensures Stop(Stop(st)) == Stop(st)
    ensures Valid(Stop(st)) && !Playing(Stop(st))
    ensures forall j :: 0 <= j < |Stop(st).narrations| ==> !Stop(st).narrations[j].playing
    ensures Stop(st).music.Some? ==> Stop(st).music.value.paused
  {
    var r := Stop(st);
    forall j | 0 <= j < |r.narrations|
      ensures !r.narrations[j].playing
    {
      if st.current != Some(j) {
        assert r.narrations[j] == st.narrations[j];
      }
    }
  }

  /** `playScene` keeps at most one narration playing, with sorted cues. */
  lemma PlaySceneKeepsValid(st: PlayerState, prod: Option<Production>, index: nat, captured: bool, voice: string)
    requires Valid(st)
    ensures Valid(PlaySceneStep(st, prod, index, captured, voice))
  {
    if prod.Some? && index < |prod.value.scenes| && prod.value.scenes[index].Some? {
      DuckThenRestore(st, prod, index, captured, voice);
    }
  }

  lemma StartKeepsValid(st: PlayerState, prod: Option<Production>, voice: string)
    requires Valid(st)
    ensures Valid(Start(st, prod, voice))
  {
    if prod.Some? {
      var m := if st.music.Some? then st.music.value else Music(MusicVolume, true);
      PlaySceneKeepsValid(st.(cinema := true, isPlaying := true, music := Some(m.(paused := false))), prod, 0, st.rendered, voice);
    }
  }

  lemma TimerKeepsValid(st: PlayerState, prod: Option<Production>, voice: string)
    requires Valid(st) && |st.timers| > 0
    ensures Valid(TimerFires(st, prod, voice))
  {
    PlaySceneKeepsValid(st.(timers := st.timers[1..]), prod, st.timers[0].index, st.timers[0].captured, voice);
  }

  /** Silencing a narration keeps the invariant and the current narration;
      silencing the current one leaves none playing. */
  lemma SilencedAtKeepsValid(st: PlayerState, j: nat)
    requires Valid(st) && j < |st.narrations|
    ensures Valid(SilencedAt(st, j)) && !SilencedAt(st, j).narrations[j].playing
    ensures SilencedAt(st, j).current == st.current
    ensures st.current == Some(j) ==>
      forall k :: 0 <= k < |st.narrations| ==> !SilencedAt(st, j).narrations[k].playing
  {
  }

  /** A callback touches only the music volume and the timers: it restores
      the volume and, when it advances, schedules the next scene. */
  lemma CallbackEffect(st: PlayerState, cb: Callback, advance: bool)
    ensures var r := RunCallback(st, cb, advance);
      && r.narrations == st.narrations && r.current == st.current
      && r.isPlaying == st.isPlaying && r.activeScene == st.activeScene
      && r.isSpeaking == st.isSpeaking && r.wordIndex == st.wordIndex
      && r.music == (if cb.Advance? then SetVolume(st.music, MusicVolume) else st.music)
      && r.timers == (if cb.Advance? && advance then st.timers + [Timer(cb.index + 1, cb.captured)] else st.timers)
  {
  }

  /** The handlers of any narration keep the invariant and leave that
      narration silent; the corrected handler of the current narration
      leaves none playing. */
  lemma EndKeepsValid(st: PlayerState, j: nat)
    requires Valid(st) && j < |st.narrations|
    ensures Valid(EndedAt(st, j)) && !EndedAt(st, j).narrations[j].playing
    ensures Valid(RejectedAt(st, j)) && !RejectedAt(st, j).narrations[j].playing
    ensures Valid(Settle(st, j))
    ensures st.current == Some(j) ==> !Playing(Settle(st, j))
  {
    SilencedAtKeepsValid(st, j);
    var n := st.narrations[j];
    CallbackEffect(SilencedAt(st, j), n.onEnd, n.onEnd.Advance? && n.onEnd.captured);
    var quiet := st.(narrations := st.narrations[j := n.(playing := false)]);
    assert quiet.narrations == SilencedAt(st, j).narrations;
    CallbackEffect(quiet, n.onEnd, n.onEnd.Advance? && n.onEnd.captured);
    if st.current == Some(j) {
      CallbackEffect(SilencedAt(st, j).(current := None), n.onEnd, st.isPlaying);
    }
  }

  lemma FrameKeepsValid(st: PlayerState, k: nat, t: real)
    requires Valid(st)
    ensures Valid(Frame(st, k, t)) && Valid(Render(st))
    ensures Frame(st, k, t).narrations == st.narrations && Frame(st, k, t).current == st.current
    ensures st.current != Some(k) ==> Frame(st, k, t) == st
  {
  }

  /** The frame lookup over the current narration's sorted cues, playing
      or not: before the first onset the highlighted word is kept, after it
      the word is the cue whose bucket holds the playback time. */
  lemma FrameFollowsCues(st: PlayerState, k: nat, t: real)
    requires Valid(st) && st.current == Some(k) && |st.narrations[k].cues| > 0
    ensures var cs := st.narrations[k].cues;
      && (t < Captions.Onset(cs[0]) ==> Frame(st, k, t).wordIndex == st.wordIndex)
      && (Captions.Onset(cs[0]) <= t ==>
            0 <= Frame(st, k, t).wordIndex < |cs| && Captions.InBucket(cs, Frame(st, k, t).wordIndex, t))
  {
    Captions.WordIndexFollowsTime(st.wordIndex, st.narrations[k].cues, t);
  }

  /** As written, the end of a narration clears the highlighted word, but
      a frame of the same narration that runs after the end (requested
      while it was still playing, at the playback time of its last cue or
      later) highlights the last word again, and nothing clears it until
      the next narration starts. */
  lemma EndedFrameRestoresLastWord(st: PlayerState, t: real)
    requires Valid(st) && Playing(st)
    requires var cs := st.narrations[st.current.value].cues;
      |cs| > 0 && Captions.Onset(cs[|cs| - 1]) <= t
    ensures var k := st.current.value;
      var e := EndedAt(st, k);
      && e.wordIndex == -1 && !e.isSpeaking && e.current == Some(k) && !Playing(e)
      && Frame(e, k, t).wordIndex == |st.narrations[k].cues| - 1
      && !Frame(e, k, t).isSpeaking
  {
    var k := st.current.value;
    var cb := st.narrations[k].onEnd;
    CallbackEffect(SilencedAt(st, k), cb, cb.Advance? && cb.captured);
    Captions.LastCueAfterLastOnset(-1, st.narrations[k].cues, t);
  }

  /** As written, a full playback started from a render in which
      `isPlaying` was false plays the first scene and stops there: when it
      ends no timer is scheduled, yet `isPlaying` stays true. */
  lemma StoppedStartNeverAdvances(st: PlayerState, prod: Option<Production>, voice: string)
    requires Valid(st) && !st.rendered
    requires prod.Some? && |prod.value.scenes| >= 2 && prod.value.scenes[0].Some?
    ensures var s := Start(st, prod, voice);
      && Playing(s) && s.activeScene == 0
      && Ended(s).timers == st.timers
      && Ended(s).isPlaying && !Ended(s).isSpeaking && !Playing(Ended(s))
  {
    var m := if st.music.Some? then st.music.value else Music(MusicVolume, true);
    var started := st.(cinema := true, isPlaying := true, music := Some(m.(paused := false)));
    DuckThenRestore(started, prod, 0, false, voice);
  }

  /** `playScene` keeps every earlier narration and its callback. */
  lemma PlaySceneKeepsEarlier(st: PlayerState, prod: Option<Production>, index: nat, captured: bool, voice: string, k: nat)
    requires k < |st.narrations|
    ensures var r := PlaySceneStep(st, prod, index, captured, voice);
      k < |r.narrations| && r.narrations[k].onEnd == st.narrations[k].onEnd
  {
  }

  /** A handler of a narration other than the current one keeps the
      current narration playing. */
  lemma StaleHandlerKeepsCurrent(st: PlayerState, k: nat)
    requires Valid(st) && Playing(st) && k < |st.narrations| && st.current != Some(k)
    ensures Playing(EndedAt(st, k)) && EndedAt(st, k).current == st.current
  {
    var n := st.narrations[k];
    CallbackEffect(SilencedAt(st, k), n.onEnd, n.onEnd.Advance? && n.onEnd.captured);
    assert SilencedAt(st, k).narrations[st.current.value] == st.narrations[st.current.value];
  }

  /** A pending timer for scene `i + 1` speaks it and keeps an earlier
      narration `k` with its callback, silent. */
  lemma TimerSpeaksNext(e: PlayerState, prod: Option<Production>, i: nat, k: nat, voice: string)
    requires Valid(e) && e.timers == [Timer(i + 1, true)]
    requires prod.Some? && i + 1 < |prod.value.scenes| && prod.value.scenes[i + 1].Some?
    requires k < |e.narrations| && e.narrations[k].onEnd == Advance(i, true)
    ensures var next := TimerFires(e, prod, voice);
      && Valid(next) && Playing(next) && next.activeScene == i + 1 && next.timers == []
      && next.current == Some(|e.narrations|) && |next.narrations| == |e.narrations| + 1
      && next.narrations[k].onEnd == Advance(i, true)
  {
    var e0 := e.(timers := []);
    assert e.timers[1..] == [];
    DuckThenRestore(e0, prod, i + 1, true, voice);
    PlaySceneKeepsValid(e0, prod, i + 1, true, voice);
    assert TimerFires(e, prod, voice) == PlaySceneStep(e0, prod, i + 1, true, voice);
    PlaySceneKeepsEarlier(e0, prod, i + 1, true, voice, k);
  }

  /** As written, the narration `handleSpeak` replaces still runs its
      callback. Scene `i` ends and its timer plays scene `i + 1`; the
      replaced narration of scene `i` then fails (its source was set to the
      empty string), which restores the music to 0.3 and clears
      `isSpeaking` while scene `i + 1` is spoken, and schedules scene
      `i + 1` a second time: that timer restarts it. */
  lemma ReplacedNarrationReplaysScene(st: PlayerState, prod: Option<Production>, i: nat, voice: string)
    requires Valid(st) && Playing(st) && st.timers == []
    requires st.narrations[st.current.value].onEnd == Advance(i, true)
    requires prod.Some? && i + 1 < |prod.value.scenes| && prod.value.scenes[i + 1].Some?
    ensures var k := st.current.value;
      var next := TimerFires(Ended(st), prod, voice);
      && Playing(next) && next.activeScene == i + 1 && next.timers == []
      && k < |next.narrations| && next.current != Some(k)
      && var err := EndedAt(next, k);
      && Playing(err) && err.current == next.current
      && err.music == SetVolume(next.music, MusicVolume) && !err.isSpeaking
      && err.timers == [Timer(i + 1, true)]
      && var again := TimerFires(err, prod, voice);
      && Playing(again) && again.activeScene == i + 1 && again.current != next.current
  {
    var k := st.current.value;
    var e := Ended(st);
    EndKeepsValid(st, k);
    CallbackEffect(SilencedAt(st, k), Advance(i, true), true);
    TimerSpeaksNext(e, prod, i, k, voice);
    var next := TimerFires(e, prod, voice);
    StaleHandlerKeepsCurrent(next, k);
    var err := EndedAt(next, k);
    EndKeepsValid(next, k);
    CallbackEffect(SilencedAt(next, k), Advance(i, true), true);
    TimerSpeaksNext(err, prod, i, k, voice);
  }

  /** As written, a retry during a scene replaces the scene's narration,
      and the replaced narration's `onerror` (its source was set to the
      empty string) runs the scene callback: the music returns to full
      volume and `isSpeaking` is cleared while the retried narration plays.
      This needs no captured `isPlaying`; with it, the next scene is also
      scheduled. The corrected handler ignores the replaced narration. */
  lemma RetryReplacedNarrationRestoresMusic(st: PlayerState, prod: Option<Production>, i: nat, captured: bool, voice: string)
    requires Valid(st) && Playing(st) && st.narrations[st.current.value].onEnd == Advance(i, captured)
    requires prod.Some? && st.activeScene < |prod.value.scenes| && prod.value.scenes[st.activeScene].Some?
    ensures var k := st.current.value;
      var r := RetryStep(st, prod, voice);
      && Valid(r) && Playing(r) && r.current != Some(k) && k < |r.narrations|
      && r.narrations[r.current.value].onEnd == NoCallback
      && r.music == st.music && r.isSpeaking
      && var err := EndedAt(r, k);
      && Playing(err) && err.current == r.current
      && err.music == SetVolume(st.music, MusicVolume) && !err.isSpeaking
      && err.timers == st.timers + (if captured then [Timer(i + 1, true)] else [])
      && Settle(r, k) == r
  {
    var k := st.current.value;
    var slot := prod.value.scenes[st.activeScene].value;
    SpeakSilencesPrevious(st, JsText(slot.script), NoCallback, slot.audioUrl, slot.subtitles, voice);
    var r := RetryStep(st, prod, voice);
    assert r.narrations[k].onEnd == Advance(i, captured);
    StaleHandlerKeepsCurrent(r, k);
    CallbackEffect(SilencedAt(r, k), Advance(i, captured), captured);
    SettleOnce(r, k);
  }

  /** As written, a narration whose load fails runs its callback twice:
      once from `onerror` and once from the rejected `play()`. With the
      advance flag captured true, the next scene is scheduled twice. */
  lemma FailedLoadSchedulesTwice(st: PlayerState, j: nat, i: nat)
    requires Valid(st) && j < |st.narrations| && st.narrations[j].onEnd == Advance(i, true)
    ensures var e := RejectedAt(EndedAt(st, j), j);
      && Valid(e) && !e.isSpeaking
      && e.music == SetVolume(st.music, MusicVolume)
      && e.timers == st.timers + [Timer(i + 1, true), Timer(i + 1, true)]
  {
    var e1 := EndedAt(st, j);
    EndKeepsValid(st, j);
    CallbackEffect(SilencedAt(st, j), Advance(i, true), true);
    assert e1.narrations[j].onEnd == Advance(i, true);
    EndKeepsValid(e1, j);
    var n := e1.narrations[j];
    CallbackEffect(e1.(narrations := e1.narrations[j := n.(playing := false)]), Advance(i, true), true);
  }

  /** As written, stopping during a pending start does not stop the
      playback: `pause()` rejects the pending `play()`, its callback
      schedules the next scene, and the timer speaks it although
      `isPlaying` is false. */
  lemma AbortAfterStopPlaysNext(st: PlayerState, prod: Option<Production>, i: nat, voice: string)
    requires Valid(st) && Playing(st) && st.timers == []
    requires st.narrations[st.current.value].onEnd == Advance(i, true)
    requires prod.Some? && i + 1 < |prod.value.scenes| && prod.value.scenes[i + 1].Some?
    ensures var k := st.current.value;
      var stopped := Stop(st);
      && k < |stopped.narrations| && !stopped.isPlaying
      && var aborted := RejectedAt(stopped, k);
      && aborted.timers == [Timer(i + 1, true)]
      && var resumed := TimerFires(aborted, prod, voice);
      && Playing(resumed) && resumed.activeScene == i + 1 && !resumed.isPlaying
  {
    var k := st.current.value;
    var stopped := Stop(st);
    StopIdempotent(st);
    assert stopped.narrations[k].onEnd == Advance(i, true);
    var n := stopped.narrations[k];
    var aborted := RejectedAt(stopped, k);
    CallbackEffect(stopped.(narrations := stopped.narrations[k := n.(playing := false)]), Advance(i, true), true);
    EndKeepsValid(stopped, k);
    assert aborted.timers[1..] == [];
    var a0 := aborted.(timers := []);
    DuckThenRestore(a0, prod, i + 1, true, voice);
    assert TimerFires(aborted, prod, voice) == PlaySceneStep(a0, prod, i + 1, true, voice);
  }

  /** The corrected handler ignores every narration but the current one,
      and after it has run once no event of any narration has an effect. */
  lemma SettleOnce(st: PlayerState, j: nat)
    ensures st.current != Some(j) ==> Settle(st, j) == st
    ensures st.current == Some(j) && j < |st.narrations| ==>
      Settle(st, j).current.None? && forall k: nat :: Settle(Settle(st, j), k) == Settle(st, j)
  {
    if st.current == Some(j) && j < |st.narrations| {
      CallbackEffect(SilencedAt(st, j).(current := None), st.narrations[j].onEnd, st.isPlaying);
    }
  }

  /** With the corrected handler, nothing runs after a stop. */
  lemma StopSilencesCallbacks(st: PlayerState, j: nat)
    ensures Settle(Stop(st), j) == Stop(st)
  {
  }

  /** With the corrected handler, `playScene` ducks the music while the
      scene is spoken whatever the earlier narrations do; the scene's own
      end, failure or rejection restores 0.3 and schedules the next scene
      once, exactly when playback is on, and nothing fires after it. */
  lemma SettledDuckThenRestore(st: PlayerState, prod: Option<Production>, index: nat, captured: bool, voice: string)
    requires Valid(st)
    requires prod.Some? && index < |prod.value.scenes| && prod.value.scenes[index].Some?
    ensures var r := PlaySceneStep(st, prod, index, captured, voice);
      && Playing(r) && r.music == SetVolume(st.music, DuckedVolume)
      && (forall j: nat :: r.current != Some(j) ==> Settle(r, j) == r)
      && var e := Settle(r, r.current.value);
      && Valid(e) && !Playing(e) && !e.isSpeaking
      && e.music == SetVolume(st.music, MusicVolume)
      && e.timers == st.timers + (if st.isPlaying then [Timer(index + 1, captured)] else [])
      && (forall j: nat :: Settle(e, j) == e)
  {
    DuckThenRestore(st, prod, index, captured, voice);
    var r := PlaySceneStep(st, prod, index, captured, voice);
    SettleCurrent(r, index, captured);
  }

  /** The corrected handler of a scene's narration restores the music and
      schedules the next scene exactly when playback is on. */
  lemma SettleCurrent(r: PlayerState, index: nat, captured: bool)
    requires Valid(r) && Playing(r) && r.narrations[r.current.value].onEnd == Advance(index, captured)
    ensures forall j: nat :: r.current != Some(j) ==> Settle(r, j) == r
    ensures var e := Settle(r, r.current.value);
      && Valid(e) && !Playing(e) && !e.isSpeaking
      && e.music == SetVolume(r.music, MusicVolume)
      && e.timers == r.timers + (if r.isPlaying then [Timer(index + 1, captured)] else [])
      && (forall j: nat :: Settle(e, j) == e)
  {
    var k := r.current.value;
    SettleOnce(r, k);
    EndKeepsValid(r, k);
    CallbackEffect(SilencedAt(r, k).(current := None), Advance(index, captured), r.isPlaying);
  }

  /** With the corrected handler, the end of the first scene of a start
      restores the music and schedules the second scene. */
  lemma LiveEndSchedules(st: PlayerState, prod: Option<Production>, voice: string)
    requires Valid(st)
    requires prod.Some? && |prod.value.scenes| >= 1 && prod.value.scenes[0].Some?
    ensures var s := Start(st, prod, voice);
      && Playing(s) && s.activeScene == 0
      && var e := Settle(s, s.current.value);
      && e.timers == st.timers + [Timer(1, st.rendered)]
      && Valid(e) && e.isPlaying
  {
    var m := if st.music.Some? then st.music.value else Music(MusicVolume, true);
    var started := st.(cinema := true, isPlaying := true, music := Some(m.(paused := false)));
    SettledDuckThenRestore(started, prod, 0, st.rendered, voice);
    var s := Start(st, prod, voice);
    assert s == PlaySceneStep(started, prod, 0, st.rendered, voice);
    CallbackEffect(SilencedAt(s, s.current.value).(current := None), Advance(0, st.rendered), true);
  }

  /** With the corrected handler, the same start schedules the second
      scene when the first ends, and the timer plays it. */
  lemma LiveFlagAdvances(st: PlayerState, prod: Option<Production>, voice: string)
    requires Valid(st)
    requires prod.Some? && |prod.value.scenes| >= 2 && prod.value.scenes[0].Some? && prod.value.scenes[1].Some?
    ensures var s := Start(st, prod, voice);
      && Playing(s) && s.activeScene == 0
      && var e := Settle(s, s.current.value);
      && e.timers == st.timers + [Timer(1, st.rendered)]
      && (st.timers == [] ==>
            var n := TimerFires(e, prod, voice);
            Playing(n) && n.activeScene == 1 && n.isPlaying)
  {
    LiveEndSchedules(st, prod, voice);
    var s := Start(st, prod, voice);
    var e := Settle(s, s.current.value);
    if st.timers == [] {
      assert e.timers[1..] == [];
      DuckThenRestore(e.(timers := []), prod, 1, st.rendered, voice);
    }
  }

  // ---------------------------------------------------------------------------
  // The player
  // ---------------------------------------------------------------------------

  class Player {
    var isPlaying: bool
    var rendered: bool
    var cinema: bool
    var activeScene: nat
    var isSpeaking: bool
    var wordIndex: int
    var narrations: seq<Narration>
    var current: Option<nat>
    var music: Option<Music>
    var timers: seq<Timer>
    /** `selectedVoice`. */
    var voice: string

    function State(): PlayerState
      reads this
    {
      PlayerState(isPlaying, rendered, cinema, activeScene, isSpeaking, wordIndex, narrations, current, music, timers)
    }

    constructor (voice: string)
      ensures State() == PlayerState(false, false, false, 0, false, -1, [], None, None, [])
      ensures this.voice == voice && Valid(State())
    {
      isPlaying, rendered, cinema, activeScene := false, false, false, 0;
      isSpeaking, wordIndex := false, -1;
      narrations, current, music, timers := [], None, None, [];
      this.voice := voice;
    }

    method HandleSpeak(text: string, onEnd: Callback, prefetched: Option<Url>, subtitles: Option<Subs>)
      requires Valid(State())
      modifies this
      ensures State() == Speak(old(State()), text, onEnd, prefetched, subtitles, voice)
      ensures voice == old(voice) && Valid(State())
    {
      ghost var before := State();
      Release();
      var url := if prefetched.Some? then prefetched.value else TtsProxy(text, voice);
      var cues := CuesOf(subtitles);
      wordIndex, isSpeaking := -1, true;
      narrations, current := narrations + [Narration(url, true, cues, onEnd)], Some(|narrations|);
      SpeakKeepsValid(before, text, onEnd, prefetched, subtitles, voice);
    }

    method PlayScene(prod: Option<Production>, index: nat, captured: bool)
      requires Valid(State())
      modifies this
      ensures State() == PlaySceneStep(old(State()), prod, index, captured, voice)
      ensures voice == old(voice) && Valid(State())
    {
      ghost var before := State();
      if prod.None? || index >= |prod.value.scenes| {
        Halt();
      } else {
        Duck(index);
        var slot := prod.value.scenes[index];
        if slot.Some? {
          HandleSpeak(JsText(slot.value.script), Advance(index, captured), slot.value.audioUrl, slot.value.subtitles);
        }
      }
      PlaySceneKeepsValid(before, prod, index, captured, voice);
    }

    method RetrySceneAudio(prod: Option<Production>)
      requires Valid(State())
      modifies this
      ensures State() == RetryStep(old(State()), prod, voice)
      ensures voice == old(voice) && Valid(State())
    {
      if prod.Some? && activeScene < |prod.value.scenes| && prod.value.scenes[activeScene].Some? {
        var slot := prod.value.scenes[activeScene].value;
        HandleSpeak(JsText(slot.script), NoCallback, slot.audioUrl, slot.subtitles);
      }
    }

    /** `handleSpeak` pauses the current narration and drops it. */
    method Release()
      modifies this
      ensures State() == old(State()).(narrations := PauseCurrent(old(State())), current := None)
      ensures voice == old(voice)
    {
      if current.Some? && current.value < |narrations| {
        narrations := narrations[current.value := narrations[current.value].(playing := false)];
      }
      current := None;
    }

    /** Playback stops and the music pauses: `playScene` past the end, and
        part of `stopPlayback`. */
    method Halt()
      modifies this
      ensures State() == old(State()).(isPlaying := false, music := PauseMusic(old(music)))
      ensures voice == old(voice)
    {
      var m := music;
      if m.Some? {
        m := Some(m.value.(paused := true));
      }
      isPlaying, music := false, m;
    }

    /** `playScene` marks the scene active and ducks the music. */
    method Duck(index: nat)
      modifies this
      ensures State() == old(State()).(activeScene := index, music := SetVolume(old(music), DuckedVolume))
      ensures voice == old(voice)
    {
      var m := music;
      if m.Some? {
        m := Some(m.value.(volume := DuckedVolume));
      }
      activeScene, music := index, m;
    }

    /** The music's `play()` promise only sets the `audioBlocked` display
        flag, so the music counts as playing whether it resolves or
        rejects. */
    method StartFullPlayback(prod: Option<Production>)
      requires Valid(State())
      modifies this
      ensures State() == Start(old(State()), prod, voice)
      ensures voice == old(voice) && Valid(State())
    {
      if prod.None? {
        return;
      }
      var captured := rendered;
      cinema := true;
      isPlaying := true;
      if music.None? {
        music := Some(Music(MusicVolume, true));
      }
      music := Some(music.value.(paused := false));
      PlayScene(prod, 0, captured);
    }

    method StopPlayback()
      requires Valid(State())
      modifies this
      ensures State() == Stop(old(State()))
      ensures voice == old(voice) && Valid(State())
    {
      ghost var before := State();
      Release();
      Halt();
      cinema, isSpeaking, wordIndex := false, false, -1;
      assert State() == Stop(before);
      StopKeepsValid(before);
    }

    /** The callback part of `onended`, `onerror` and the rejected `play()`. */
    method RunOnEnd(cb: Callback, advance: bool)
      requires Valid(State())
      modifies this
      ensures State() == RunCallback(old(State()), cb, advance)
      ensures voice == old(voice) && Valid(State())
    {
      if cb.Advance? {
        var m := music;
        if m.Some? {
          m := Some(m.value.(volume := MusicVolume));
        }
        music, timers := m, if advance then timers + [Timer(cb.index + 1, cb.captured)] else timers;
      }
    }

    /** `onended` or `onerror` of narration `j`: the current narration at its
        end, or any narration whose load fails, the replaced one included. */
    method NarrationEnded(j: nat)
      requires Valid(State()) && j < |narrations|
      modifies this
      ensures State() == EndedAt(old(State()), j)
      ensures voice == old(voice) && Valid(State())
    {
      ghost var before := State();
      SilencedAtKeepsValid(before, j);
      var cb := narrations[j].onEnd;
      wordIndex := -1;
      isSpeaking := false;
      narrations := narrations[j := narrations[j].(playing := false)];
      RunOnEnd(cb, cb.Advance? && cb.captured);
    }

    /** The rejected `play()` of narration `j`. */
    method PlayRejected(j: nat)
      requires Valid(State()) && j < |narrations|
      modifies this
      ensures State() == RejectedAt(old(State()), j)
      ensures voice == old(voice) && Valid(State())
    {
      ghost var before := State();
      SilencedAtKeepsValid(before, j);
      var cb := narrations[j].onEnd;
      narrations := narrations[j := narrations[j].(playing := false)];
      RunOnEnd(cb, cb.Advance? && cb.captured);
    }

    method TimerElapsed(prod: Option<Production>)
      requires Valid(State()) && |timers| > 0
      modifies this
      ensures State() == TimerFires(old(State()), prod, voice)
      ensures voice == old(voice) && Valid(State())
    {
      var t := timers[0];
      timers := timers[1..];
      PlayScene(prod, t.index, t.captured);
    }

    /** `updateWords` of narration `k` at playback time `t` ms: it returns
        unless `k` is the current narration. */
    method UpdateWords(k: nat, t: real)
      requires Valid(State())
      modifies this
      ensures State() == Frame(old(State()), k, t)
      ensures voice == old(voice) && Valid(State())
    {
      ghost var before := State();
      if current == Some(k) && k < |narrations| {
        var cues := narrations[k].cues;
        if |cues| > 0 {
          var idx := Captions.FindWord(cues, t);
          if idx != -1 {
            wordIndex := idx;
          }
        }
      }
      FrameKeepsValid(before, k, t);
    }

    /** A re-render: closures created from now on capture the current
        `isPlaying`. */
    method Rerender()
      requires Valid(State())
      modifies this
      ensures State() == Render(old(State()))
      ensures voice == old(voice) && Valid(State())
    {
      ghost var before := State();
      rendered := isPlaying;
      FrameKeepsValid(before, 0, 0.0);
    }
  }
}
