/** The scene record of the production and the object spread that patches
    it. Every field is optional because a patch (`Partial<Scene>`) is a
    scene record with only some keys present, and because scenes recovered
    from a whole-document parse carry whatever keys the document had. */
module Scenes {
  import opened Common

  /** The URLs the client builds or receives; those it builds with
      `encodeURIComponent` are kept as their parameters. */
  datatype Url =
    | Remote(address: string)                  // a stock-media URL as received
    | ImageEndpoint(prompt: string)            // `/api/image?prompt=…`
    | TtsProxy(text: string, voice: string)    // `/api/tts?text=…&voice=…`
    | GoogleTts(text: string, textLength: nat) // the public synthesis URL with `q` and `textlen`

  /** `videoUrl` / `imageUrl` hold a URL or `null`. */
  datatype Link = NullLink | Link(url: Url)

  /** One word cue of a narration: the word and its onset in 100-ns ticks. */
  datatype Cue = Cue(text: string, audioOffset: int)

  /** A `subtitles` value: `Undefined` is a key present with value
      `undefined`, which a spread still copies. */
  datatype Subs = Undefined | Cues(cues: seq<Cue>)

  /** A scene or a patch of one; `None` is an absent key. */
  datatype Fields = Fields(
    script: Option<string>,
    imagePrompt: Option<string>,
    pexelsQuery: Option<string>,
    cameraAngle: Option<string>,
    mood: Option<string>,
    videoUrl: Option<Link>,
    imageUrl: Option<Link>,
    audioUrl: Option<Url>,
    subtitles: Option<Subs>,
    visualReady: Option<bool>,
    audioReady: Option<bool>)

  /** `{}`. */
  const Empty: Fields := Fields(None, None, None, None, None, None, None, None, None, None, None)

  /** One key of a spread: the patch's value if it has the key. */
  function Pick<T>(base: Option<T>, patch: Option<T>): Option<T>
  {
    if patch.Some? then patch else base
  }

  /** `{ ...base, ...patch }`: every key the patch has overrides, every
      other key of the base is kept. */
  function Merge(base: Fields, patch: Fields): Fields
  {
    Fields(
      Pick(base.script, patch.script),
      Pick(base.imagePrompt, patch.imagePrompt),
      Pick(base.pexelsQuery, patch.pexelsQuery),
      Pick(base.cameraAngle, patch.cameraAngle),
      Pick(base.mood, patch.mood),
      Pick(base.videoUrl, patch.videoUrl),
      Pick(base.imageUrl, patch.imageUrl),
      Pick(base.audioUrl, patch.audioUrl),
      Pick(base.subtitles, patch.subtitles),
      Pick(base.visualReady, patch.visualReady),
      Pick(base.audioReady, patch.audioReady))
  }

  lemma PickCommute<T>(b: Option<T>, x: Option<T>, y: Option<T>)
    requires x.None? || y.None?
    ensures Pick(Pick(b, x), y) == Pick(Pick(b, y), x)
  {
  }

  lemma PickOverride<T>(b: Option<T>, x: Option<T>, y: Option<T>)
    requires x.Some? ==> y.Some?
    ensures Pick(Pick(b, x), y) == Pick(b, y)
  {
  }

  /** The keys of a scene record. */
  datatype Key = KeyScript | KeyImagePrompt | KeyPexelsQuery | KeyCameraAngle | KeyMood | KeyVideoUrl | KeyImageUrl | KeyAudioUrl | KeySubtitles | KeyVisualReady | KeyAudioReady

  /** Whether `f` has key `k`. */
  predicate Has(f: Fields, k: Key)
  {
    match k
    case KeyScript => f.script.Some?
    case KeyImagePrompt => f.imagePrompt.Some?
    case KeyPexelsQuery => f.pexelsQuery.Some?
    case KeyCameraAngle => f.cameraAngle.Some?
    case KeyMood => f.mood.Some?
    case KeyVideoUrl => f.videoUrl.Some?
    case KeyImageUrl => f.imageUrl.Some?
    case KeyAudioUrl => f.audioUrl.Some?
    case KeySubtitles => f.subtitles.Some?
    case KeyVisualReady => f.visualReady.Some?
    case KeyAudioReady => f.audioReady.Some?
  }

  /** Spreading into `{}` copies the patch, and an empty patch changes
      nothing. */
  lemma MergeIdentity(f: Fields)
    ensures Merge(Empty, f) == f && Merge(f, Empty) == f
  {
  }

  /** Two spreads in a row are one spread of the merged patches. */
  lemma MergeAssociative(a: Fields, b: Fields, c: Fields)
    ensures Merge(Merge(a, b), c) == Merge(a, Merge(b, c))
  {
  }

  /** A merge has exactly the keys of its two sides. */
  lemma MergeKeys(base: Fields, patch: Fields, k: Key)
    ensures Has(Merge(base, patch), k) <==> Has(base, k) || Has(patch, k)
  {
  }

  lemma HasApart(u: Fields, v: Fields, k: Key)
    requires forall k :: !(Has(u, k) && Has(v, k))
    ensures !(Has(u, k) && Has(v, k))
  {
  }

  /** No key is in both `u` and `v`, field by field. */
  lemma KeysApart(u: Fields, v: Fields)
    requires forall k :: !(Has(u, k) && Has(v, k))
    ensures u.script.None? || v.script.None?
    ensures u.imagePrompt.None? || v.imagePrompt.None?
    ensures u.pexelsQuery.None? || v.pexelsQuery.None?
    ensures u.cameraAngle.None? || v.cameraAngle.None?
    ensures u.mood.None? || v.mood.None?
    ensures u.videoUrl.None? || v.videoUrl.None?
    ensures u.imageUrl.None? || v.imageUrl.None?
    ensures u.audioUrl.None? || v.audioUrl.None?
    ensures u.subtitles.None? || v.subtitles.None?
    ensures u.visualReady.None? || v.visualReady.None?
    ensures u.audioReady.None? || v.audioReady.None?
  {
    HasApart(u, v, KeyScript);
    HasApart(u, v, KeyImagePrompt);
    HasApart(u, v, KeyPexelsQuery);
    HasApart(u, v, KeyCameraAngle);
    HasApart(u, v, KeyMood);
    HasApart(u, v, KeyVideoUrl);
    HasApart(u, v, KeyImageUrl);
    HasApart(u, v, KeyAudioUrl);
    HasApart(u, v, KeySubtitles);
    HasApart(u, v, KeyVisualReady);
    HasApart(u, v, KeyAudioReady);
  }

  /** Patches with no key in common may land in either order. */
  lemma DisjointPatchesCommute(base: Fields, u: Fields, v: Fields)
    requires forall k :: !(Has(u, k) && Has(v, k))
    ensures Merge(Merge(base, u), v) == Merge(Merge(base, v), u)
  {
    KeysApart(u, v);
    var l, r := Merge(Merge(base, u), v), Merge(Merge(base, v), u);
    PickCommute(base.script, u.script, v.script);
    assert l.script == r.script;
    PickCommute(base.imagePrompt, u.imagePrompt, v.imagePrompt);
    assert l.imagePrompt == r.imagePrompt;
    PickCommute(base.pexelsQuery, u.pexelsQuery, v.pexelsQuery);
    assert l.pexelsQuery == r.pexelsQuery;
    PickCommute(base.cameraAngle, u.cameraAngle, v.cameraAngle);
    assert l.cameraAngle == r.cameraAngle;
    PickCommute(base.mood, u.mood, v.mood);
    assert l.mood == r.mood;
    PickCommute(base.videoUrl, u.videoUrl, v.videoUrl);
    assert l.videoUrl == r.videoUrl;
    PickCommute(base.imageUrl, u.imageUrl, v.imageUrl);
    assert l.imageUrl == r.imageUrl;
    PickCommute(base.audioUrl, u.audioUrl, v.audioUrl);
    assert l.audioUrl == r.audioUrl;
    PickCommute(base.subtitles, u.subtitles, v.subtitles);
    assert l.subtitles == r.subtitles;
    PickCommute(base.visualReady, u.visualReady, v.visualReady);
    assert l.visualReady == r.visualReady;
    PickCommute(base.audioReady, u.audioReady, v.audioReady);
    assert l.audioReady == r.audioReady;
  }

  lemma HasWithin(u: Fields, v: Fields, k: Key)
    requires forall k :: Has(u, k) ==> Has(v, k)
    ensures Has(u, k) ==> Has(v, k)
  {
  }

  /** Every key of `u` is a key of `v`, field by field. */
  lemma KeysWithin(u: Fields, v: Fields)
    requires forall k :: Has(u, k) ==> Has(v, k)
    ensures u.script.Some? ==> v.script.Some?
    ensures u.imagePrompt.Some? ==> v.imagePrompt.Some?
    ensures u.pexelsQuery.Some? ==> v.pexelsQuery.Some?
    ensures u.cameraAngle.Some? ==> v.cameraAngle.Some?
    ensures u.mood.Some? ==> v.mood.Some?
    ensures u.videoUrl.Some? ==> v.videoUrl.Some?
    ensures u.imageUrl.Some? ==> v.imageUrl.Some?
    ensures u.audioUrl.Some? ==> v.audioUrl.Some?
    ensures u.subtitles.Some? ==> v.subtitles.Some?
    ensures u.visualReady.Some? ==> v.visualReady.Some?
    ensures u.audioReady.Some? ==> v.audioReady.Some?
  {
    HasWithin(u, v, KeyScript);
    HasWithin(u, v, KeyImagePrompt);
    HasWithin(u, v, KeyPexelsQuery);
    HasWithin(u, v, KeyCameraAngle);
    HasWithin(u, v, KeyMood);
    HasWithin(u, v, KeyVideoUrl);
    HasWithin(u, v, KeyImageUrl);
    HasWithin(u, v, KeyAudioUrl);
    HasWithin(u, v, KeySubtitles);
    HasWithin(u, v, KeyVisualReady);
    HasWithin(u, v, KeyAudioReady);
  }

  /** A later patch wins on every key it has, whatever came before. */
  lemma LaterPatchWins(base: Fields, u: Fields, v: Fields)
    requires forall k :: Has(u, k) ==> Has(v, k)
    ensures Merge(Merge(base, u), v) == Merge(base, v)
  {
    KeysWithin(u, v);
    PickOverride(base.script, u.script, v.script);
    PickOverride(base.imagePrompt, u.imagePrompt, v.imagePrompt);
    PickOverride(base.pexelsQuery, u.pexelsQuery, v.pexelsQuery);
    PickOverride(base.cameraAngle, u.cameraAngle, v.cameraAngle);
    PickOverride(base.mood, u.mood, v.mood);
    PickOverride(base.videoUrl, u.videoUrl, v.videoUrl);
    PickOverride(base.imageUrl, u.imageUrl, v.imageUrl);
    PickOverride(base.audioUrl, u.audioUrl, v.audioUrl);
    PickOverride(base.subtitles, u.subtitles, v.subtitles);
    PickOverride(base.visualReady, u.visualReady, v.visualReady);
    PickOverride(base.audioReady, u.audioReady, v.audioReady);
  }

  /** A template literal's rendering of an optional string: `undefined`
      when the key is absent. */
  function JsText(s: Option<string>): string
  {
    if s.Some? then s.value else "undefined"
  }
}
