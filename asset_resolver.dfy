/** The per-scene job started for every received scene (`processScene`):
    one visual lookup (a video and a photo search settled together), the
    optimistic narration URL, then the metadata request for the narration.
    Each step lands as an index-scoped patch of the production. The answers
    of the network are inputs: a `VisualOutcome` for the two searches and a
    `TtsOutcome` for the metadata request. */
module AssetResolver {
  import opened Common
  import opened Scenes
  import opened ProductionStore
  import PexelsRoute
  import TtsRoute

  /** One `Promise.allSettled` entry: the `url` of a fulfilled search (the
      parsed body's `url`, `None` when it has none) or a rejection. */
  datatype Settled = Fulfilled(url: Option<string>) | Rejected

  /** The visual step: both searches settled, or an exception before they
      were issued. */
  datatype VisualOutcome = Both(video: Settled, photo: Settled) | VisualThrew

  /** The metadata request: an ok response whose body parses (with its
      `subtitles`), a non-ok response, or an exception (a network failure or
      an ok body that is not JSON). */
  datatype TtsOutcome = TtsJson(subtitles: Subs) | TtsNotOk | TtsThrew

  // ---------------------------------------------------------------------------
  // The requests a scene job sends
  // ---------------------------------------------------------------------------

  /** The search orientation follows the production's aspect ratio. */
  function Orientation(aspectRatio: string): (o: string)
    ensures o == "landscape" <==> aspectRatio == "16:9"
    ensures o == "landscape" || o == "portrait"
  {
    if aspectRatio == "16:9" then "landscape" else "portrait"
  }

  /** The query string of one `/api/pexels` search for the scene. */
  function MediaSearch(scene: Fields, aspectRatio: string, mediaType: string): (r: PexelsRoute.MediaRequest)
    ensures r.query == Some(JsText(scene.pexelsQuery)) && r.mediaType == Some(mediaType)
    ensures r.orientation == Some(Orientation(aspectRatio))
  {
    PexelsRoute.MediaRequest(Some(JsText(scene.pexelsQuery)), Some(mediaType), Some(Orientation(aspectRatio)))
  }

  /** How the client reads a route answer it received: the `url` of an
      asset answer; an error body has none. */
  function SettledOf(resp: PexelsRoute.MediaResponse): Settled
  {
    if resp.Asset? then Fulfilled(resp.url) else Fulfilled(None)
  }

  /** How the client reads the narration route's answer: an audio answer is
      ok but `json()` on it throws; an error answer is not ok. */
  function TtsOutcomeOf(resp: TtsRoute.TtsResponse): TtsOutcome
  {
    if resp.AudioMpeg? then TtsThrew else TtsNotOk
  }

  /** The two searches of a scene job reach the stock-media route as one
      video and one photo search for the scene's query, both oriented by
      the production's aspect ratio: landscape exactly for `'16:9'`. */
  lemma JobSearchesReachRoute(scene: Fields, aspectRatio: string)
    requires JsText(scene.pexelsQuery) != ""
    ensures var v := PexelsRoute.SearchOf(MediaSearch(scene, aspectRatio, "video"));
      var ph := PexelsRoute.SearchOf(MediaSearch(scene, aspectRatio, "photo"));
      && v.endpoint == PexelsRoute.VideoSearch && ph.endpoint == PexelsRoute.PhotoSearch
      && v.query == JsText(scene.pexelsQuery) && ph.query == JsText(scene.pexelsQuery)
      && v.orientation == ph.orientation
      && (v.orientation == "landscape" <==> aspectRatio == "16:9")
      && (v.orientation == "landscape" || v.orientation == "portrait")
  {
  }

  // ---------------------------------------------------------------------------
  // The patches
  // ---------------------------------------------------------------------------

  /** The keys the visual step may write. */
  predicate VisualKey(k: Key)
  {
    k == KeyVideoUrl || k == KeyImageUrl || k == KeyVisualReady
  }

  /** The visual patch: the video's URL if its search gave one, else the
      photo's, else the image-generation endpoint for the scene's
      `imagePrompt`; only `visualReady` when the step threw. */
  function VisualPatch(scene: Fields, outcome: VisualOutcome): Fields
  {
    match outcome
    case VisualThrew => Empty.(visualReady := Some(true))
    case Both(video, photo) =>
      if video.Fulfilled? && Truthy(video.url) then
        Empty.(videoUrl := Some(Link(Remote(video.url.value))), visualReady := Some(true))
      else if photo.Fulfilled? && Truthy(photo.url) then
        Empty.(imageUrl := Some(Link(Remote(photo.url.value))), visualReady := Some(true))
      else
        Empty.(imageUrl := Some(Link(ImageEndpoint(JsText(scene.imagePrompt)))), visualReady := Some(true))
  }

  /** Every visual path marks the visual ready, writes at most one of the
      two URLs, writes only visual keys, and follows the order video, photo,
      endpoint. */
  lemma VisualPatchShape(scene: Fields, outcome: VisualOutcome)
    ensures var p := VisualPatch(scene, outcome);
      && p.visualReady == Some(true)
      && !(p.videoUrl.Some? && p.imageUrl.Some?)
      && (forall k :: Has(p, k) ==> VisualKey(k))
      && (outcome.VisualThrew? ==> p.videoUrl.None? && p.imageUrl.None?)
      && (outcome.Both? ==>
            var v, ph := outcome.video, outcome.photo;
            && (p.videoUrl.Some? <==> v.Fulfilled? && Truthy(v.url))
            && (p.videoUrl.Some? ==> p.videoUrl == Some(Link(Remote(v.url.value))))
            && (p.videoUrl.None? && ph.Fulfilled? && Truthy(ph.url) ==> p.imageUrl == Some(Link(Remote(ph.url.value))))
            && (p.videoUrl.None? && !(ph.Fulfilled? && Truthy(ph.url)) ==>
                  p.imageUrl == Some(Link(ImageEndpoint(JsText(scene.imagePrompt))))))
  {
  }

  /** The optimistic narration URL, assigned before the metadata request. */
  function ProxyPatch(scene: Fields, voice: string): Fields
  {
    Empty.(audioUrl := Some(TtsProxy(JsText(scene.script), voice)))
  }

  /** The patch after the metadata request; `None` where the exception path
      itself throws (reading the length of an absent `script`) and the
      outer handler swallows it. */
  function TtsPatch(scene: Fields, outcome: TtsOutcome): Option<Fields>
  {
    match outcome
    case TtsJson(subs) => Some(Empty.(subtitles := Some(subs), audioReady := Some(true)))
    case TtsNotOk => Some(Empty.(audioReady := Some(true)))
    case TtsThrew =>
      if scene.script.Some? then
        Some(Empty.(audioUrl := Some(GoogleTts(scene.script.value, |scene.script.value|)), audioReady := Some(true)))
      else None
  }

  /** The patches of one scene job, in the order they land. */
  function Patches(scene: Fields, voice: string, visual: VisualOutcome, tts: TtsOutcome): seq<Fields>
  {
    var t := TtsPatch(scene, tts);
    [VisualPatch(scene, visual), ProxyPatch(scene, voice)] + (if t.Some? then [t.value] else [])
  }

  /** The visual patch lands first and the optimistic URL second, before the
      metadata request is made; the metadata patch, when there is one,
      lands last. */
  lemma ProxyBeforeMetadata(scene: Fields, voice: string, visual: VisualOutcome, tts: TtsOutcome)
    ensures var ps := Patches(scene, voice, visual, tts);
      && 2 <= |ps| <= 3
      && ps[0] == VisualPatch(scene, visual)
      && ps[1] == ProxyPatch(scene, voice)
      && (|ps| == 3 <==> TtsPatch(scene, tts).Some?)
      && (|ps| == 3 ==> ps[2] == TtsPatch(scene, tts).value)
  {
  }

  // ---------------------------------------------------------------------------
  // Landing the patches
  // ---------------------------------------------------------------------------

  /** The patches in order, as one spread. */
  function MergeAll(ps: seq<Fields>): Fields
  {
    if |ps| == 0 then Empty else Merge(MergeAll(ps[..|ps| - 1]), ps[|ps| - 1])
  }

  /** `updateScene(i, p)` for each patch in order. */
  function ApplyPatches(prev: Option<Production>, i: nat, ps: seq<Fields>): Option<Production>
  {
    if |ps| == 0 then prev else UpdateScene(ApplyPatches(prev, i, ps[..|ps| - 1]), i, ps[|ps| - 1])
  }

  /** A scene job's patches land as one merge into slot `i` of whatever
      production is current when they land (there is no check that it is
      the production the job was started for), and as nothing when there is
      no production. */
  lemma {:induction false} PatchesLandAsOneMerge(prev: Option<Production>, i: nat, ps: seq<Fields>)
    requires |ps| > 0
    ensures ApplyPatches(prev, i, ps) == UpdateScene(prev, i, MergeAll(ps))
  {
    var init, last := ps[..|ps| - 1], ps[|ps| - 1];
    if |init| == 0 {
      MergeIdentity(last);
    } else {
      PatchesLandAsOneMerge(prev, i, init);
      PatchesToOneSceneCompose(prev, i, MergeAll(init), last);
    }
  }

  /** A scene job writes slot `i` and nothing else: no production stays
      none, the array keeps its length and every other scene. */
  lemma SceneJobTouchesOnlyItsSlot(prev: Option<Production>, i: nat, scene: Fields, voice: string,
                                   visual: VisualOutcome, tts: TtsOutcome)
    ensures var ps := Patches(scene, voice, visual, tts);
      var r := ApplyPatches(prev, i, ps);
      && (prev.None? ==> r.None?)
      && (prev.Some? && i < |prev.value.scenes| ==>
            && r.Some? && |r.value.scenes| == |prev.value.scenes|
            && r.value.scenes[i] == Some(Merge(SlotAt(prev.value.scenes, i), MergeAll(ps)))
            && forall j :: 0 <= j < |prev.value.scenes| && j != i ==> r.value.scenes[j] == prev.value.scenes[j])
  {
    var ps := Patches(scene, voice, visual, tts);
    PatchesLandAsOneMerge(prev, i, ps);
    UpdateOnlyTouchesIndex(prev, i, MergeAll(ps));
  }

  /** What a scene job writes, taken together: the visual is ready on every
      path; the narration is ready except where the exception path throws
      again; the optimistic URL stays unless the exception path replaces it
      with the public synthesis URL; captions arrive only through a parsed
      metadata answer; the visual and audio steps touch disjoint keys; and
      the scene's text is never written. */
  lemma JobOutcome(scene: Fields, voice: string, visual: VisualOutcome, tts: TtsOutcome)
    ensures var m := MergeAll(Patches(scene, voice, visual, tts));
      && m.visualReady == Some(true)
      && (m.audioReady == Some(true) <==> !(tts.TtsThrew? && scene.script.None?))
      && (m.audioReady.Some? ==> m.audioReady == Some(true))
      && (tts.TtsThrew? && scene.script.Some? ==>
            m.audioUrl == Some(GoogleTts(scene.script.value, |scene.script.value|)))
      && (!(tts.TtsThrew? && scene.script.Some?) ==> m.audioUrl == Some(TtsProxy(JsText(scene.script), voice)))
      && (m.subtitles.Some? <==> tts.TtsJson?)
      && (tts.TtsJson? ==> m.subtitles == Some(tts.subtitles))
      && m.videoUrl == VisualPatch(scene, visual).videoUrl
      && m.imageUrl == VisualPatch(scene, visual).imageUrl
      && m.script.None? && m.imagePrompt.None? && m.pexelsQuery.None? && m.cameraAngle.None? && m.mood.None?
  {
    var ps := Patches(scene, voice, visual, tts);
    var v, a := VisualPatch(scene, visual), ProxyPatch(scene, voice);
    assert ps[..1] == [v];
    MergeIdentity(v);
    assert MergeAll(ps[..1]) == v;
    assert ps[..2] == [v, a];
    assert MergeAll(ps[..2]) == Merge(v, a);
    if |ps| == 3 {
      assert MergeAll(ps) == Merge(Merge(v, a), ps[2]);
    }
  }

  /** A scene received from the stream starts with both URLs `null`; after
      its job the production shows exactly one visual unless the visual
      step threw, and the scene's text is untouched. */
  lemma ResolvedSceneShowsOneVisual(scene: Fields, voice: string, visual: VisualOutcome, tts: TtsOutcome)
    requires scene.videoUrl == Some(NullLink) && scene.imageUrl == Some(NullLink)
    ensures var r := Merge(scene, MergeAll(Patches(scene, voice, visual, tts)));
      && r.script == scene.script && r.imagePrompt == scene.imagePrompt
      && r.pexelsQuery == scene.pexelsQuery
      && (visual.Both? <==> (r.videoUrl != Some(NullLink) || r.imageUrl != Some(NullLink)))
      && !(r.videoUrl != Some(NullLink) && r.imageUrl != Some(NullLink))
  {
    JobOutcome(scene, voice, visual, tts);
    VisualPatchShape(scene, visual);
  }

  // ---------------------------------------------------------------------------
  // The job against the routes' answers
  // ---------------------------------------------------------------------------

  /** The visual patch read from the stock-media route's two answers: an
      error answer counts as no URL, so the video is taken if its answer
      has a URL, else the photo, else the image endpoint. */
  lemma RouteAnswersPickVisual(scene: Fields, video: PexelsRoute.MediaResponse, photo: PexelsRoute.MediaResponse)
    ensures var p := VisualPatch(scene, Both(SettledOf(video), SettledOf(photo)));
      && p.visualReady == Some(true)
      && (video.Asset? && Truthy(video.url) ==>
            p.videoUrl == Some(Link(Remote(video.url.value))) && p.imageUrl.None?)
      && (!(video.Asset? && Truthy(video.url)) && photo.Asset? && Truthy(photo.url) ==>
            p.videoUrl.None? && p.imageUrl == Some(Link(Remote(photo.url.value))))
      && (!(video.Asset? && Truthy(video.url)) && !(photo.Asset? && Truthy(photo.url)) ==>
            p.videoUrl.None? && p.imageUrl == Some(Link(ImageEndpoint(JsText(scene.imagePrompt)))))
  {
  }

  /** Without the stock-media key the route answers both searches with an
      error, so every scene falls back to the image endpoint. */
  lemma NoKeyFallsBackToEndpoint(scene: Fields, aspectRatio: string, key: Option<string>,
                                 search: PexelsRoute.SearchRequest -> PexelsRoute.Reply)
    requires !Truthy(key)
    ensures var v := PexelsRoute.Get(MediaSearch(scene, aspectRatio, "video"), key, search);
      var ph := PexelsRoute.Get(MediaSearch(scene, aspectRatio, "photo"), key, search);
      var p := VisualPatch(scene, Both(SettledOf(v), SettledOf(ph)));
      && v.JsonError? && ph.JsonError?
      && p.videoUrl.None? && p.imageUrl == Some(Link(ImageEndpoint(JsText(scene.imagePrompt))))
  {
  }

  /** A scene with an empty search query (the `|| ''` default of a match
      without one) gets a 400 from both searches, whatever the key, and
      falls back to the image endpoint. */
  lemma EmptyQueryFallsBackToEndpoint(scene: Fields, aspectRatio: string, key: Option<string>,
                                      search: PexelsRoute.SearchRequest -> PexelsRoute.Reply)
    requires JsText(scene.pexelsQuery) == ""
    ensures var v := PexelsRoute.Get(MediaSearch(scene, aspectRatio, "video"), key, search);
      var ph := PexelsRoute.Get(MediaSearch(scene, aspectRatio, "photo"), key, search);
      var p := VisualPatch(scene, Both(SettledOf(v), SettledOf(ph)));
      && v == PexelsRoute.JsonError(400, PexelsRoute.QueryRequired) && ph == v
      && p.videoUrl.None? && p.imageUrl == Some(Link(ImageEndpoint(JsText(scene.imagePrompt))))
  {
  }

  /** What the narration route's answer makes of a scene's audio, through
      the whole job. The route answers audio, never JSON, so captions are
      never set; an audio answer takes the exception path and replaces the
      proxy URL with the public synthesis URL; an error answer keeps the
      proxy URL; the narration is marked ready except where the exception
      path itself throws on a scene without a script. */
  lemma RouteAnswerShapesAudio(scene: Fields, voice: string, visual: VisualOutcome, resp: TtsRoute.TtsResponse)
    ensures var m := MergeAll(Patches(scene, voice, visual, TtsOutcomeOf(resp)));
      && m.subtitles.None?
      && (resp.JsonError? ==>
            m.audioReady == Some(true) && m.audioUrl == Some(TtsProxy(JsText(scene.script), voice)))
      && (resp.AudioMpeg? && scene.script.Some? ==>
            m.audioReady == Some(true) && m.audioUrl == Some(GoogleTts(scene.script.value, |scene.script.value|)))
      && (resp.AudioMpeg? && scene.script.None? ==>
            m.audioReady.None? && m.audioUrl == Some(TtsProxy(JsText(scene.script), voice)))
  {
    JobOutcome(scene, voice, visual, TtsOutcomeOf(resp));
  }
}
