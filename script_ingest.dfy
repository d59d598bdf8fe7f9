/** The ingestion of the script stream in `handleGenerate`: decoded chunks
    are split into lines, each complete line adds to the accumulated text,
    the scene objects found in that text are emitted from a cursor on, and
    at the end a whole-document parse is tried when nothing was emitted.

    The pattern matcher and `JSON.parse` are oracles: `matcher` gives the
    matches of the scene pattern in the accumulated text, in order;
    `parseEvent`, `parseScene` and `parseDoc` give what the three parses
    yield. Each emitted scene is recorded as a `Dispatch`: the index handed
    to its scene job together with the scene. */
module ScriptIngest {
  import opened Common
  import opened Scenes

  // ---------------------------------------------------------------------------
  // `split('\n')`
  // ---------------------------------------------------------------------------

  /** The lines closed so far and the open line. */
  datatype LineScan = LineScan(done: seq<string>, tail: string)

  const Start := LineScan([], "")

  function StepChar(p: LineScan, c: char): LineScan
  {
    if c == '\n' then LineScan(p.done + [p.tail], "") else LineScan(p.done, p.tail + [c])
  }

  /** Scans `y` on from `p`: every newline closes the open line. */
  function ScanFrom(p: LineScan, y: string): LineScan
  {
    if |y| == 0 then p else StepChar(ScanFrom(p, y[..|y| - 1]), y[|y| - 1])
  }

  /** `s.split('\n')`: the closed lines and then the open one. */
  function SplitLines(s: string): seq<string>
  {
    var p := ScanFrom(Start, s);
    p.done + [p.tail]
  }

  /** `ls.join('\n')`. */
  function JoinLines(ls: seq<string>): string
    requires |ls| > 0
  {
    if |ls| == 1 then ls[0] else JoinLines(ls[..|ls| - 1]) + "\n" + ls[|ls| - 1]
  }

  predicate NoNewline(s: string)
  {
    forall k :: 0 <= k < |s| ==> s[k] != '\n'
  }

  lemma JoinLinesExtendLast(ls: seq<string>, a: string, c: char)
    requires |ls| > 0 && ls[|ls| - 1] == a
    ensures JoinLines(ls[..|ls| - 1] + [a + [c]]) == JoinLines(ls) + [c]
  {
    var init := ls[..|ls| - 1];
    assert (init + [a + [c]])[..|init|] == init;
  }

  /** Splitting loses nothing and yields pieces without a newline: joining
      them back with newlines gives the text. */
  lemma {:induction false} SplitLinesRoundTrip(s: string)
    ensures |SplitLines(s)| == |ScanFrom(Start, s).done| + 1
    ensures JoinLines(SplitLines(s)) == s
    ensures forall k :: 0 <= k < |SplitLines(s)| ==> NoNewline(SplitLines(s)[k])
  {
    if |s| > 0 {
      var s', c := s[..|s| - 1], s[|s| - 1];
      assert s == s' + [c];
      SplitLinesRoundTrip(s');
      var p := ScanFrom(Start, s');
      var ls := SplitLines(s');
      assert ls == p.done + [p.tail];
      if c == '\n' {
        assert SplitLines(s) == ls + [""];
        assert (ls + [""])[..|ls|] == ls;
      } else {
        assert SplitLines(s) == p.done + [p.tail + [c]];
        assert ls[..|ls| - 1] == p.done;
        JoinLinesExtendLast(ls, p.tail, c);
      }
    }
  }

  lemma {:induction false} ScanFromAppend(p: LineScan, x: string, y: string)
    ensures ScanFrom(p, x + y) == ScanFrom(ScanFrom(p, x), y)
  {
    if |y| > 0 {
      assert (x + y)[..|x + y| - 1] == x + y[..|y| - 1];
      ScanFromAppend(p, x, y[..|y| - 1]);
    } else {
      assert x + y == x;
    }
  }

  /** Lines closed earlier do not affect how the rest is scanned. */
  lemma {:induction false} ScanFromShift(d: seq<string>, t: string, y: string)
    ensures var q := ScanFrom(LineScan([], t), y);
      ScanFrom(LineScan(d, t), y) == LineScan(d + q.done, q.tail)
  {
    if |y| > 0 {
      ScanFromShift(d, t, y[..|y| - 1]);
    }
  }

  lemma {:induction false} ScanNoNewline(t: string)
    requires NoNewline(t)
    ensures ScanFrom(Start, t) == LineScan([], t)
  {
    if |t| > 0 {
      var init, c := t[..|t| - 1], t[|t| - 1];
      assert NoNewline(init) by {
        forall k | 0 <= k < |init|
          ensures init[k] != '\n'
        {
          assert init[k] == t[k];
        }
      }
      ScanNoNewline(init);
      assert c != '\n';
      assert ScanFrom(Start, t) == StepChar(ScanFrom(Start, init), c);
      assert init + [c] == t;
    }
  }

  lemma {:induction false} ScanTailHasNoNewline(s: string)
    ensures NoNewline(ScanFrom(Start, s).tail)
  {
    if |s| > 0 {
      ScanTailHasNoNewline(s[..|s| - 1]);
    }
  }

  // ---------------------------------------------------------------------------
  // What a line adds to the accumulated text
  // ---------------------------------------------------------------------------

  /** What parsing the payload of a `data:` line yields: no JSON, or the
      value of `choices[0].delta.content` when the path exists. */
  datatype EventParse = Unparseable | Event(content: Option<string>)

  /** A scene object as parsed from one match. */
  datatype SceneData = SceneData(script: Option<string>, imagePrompt: Option<string>, pexelsQuery: Option<string>,
                                 cameraAngle: Option<string>, mood: Option<string>)

  /** What the whole-document parse yields: no JSON, or the document's
      `scenes` (`None` when it has none). */
  datatype DocParse = DocUnparseable | Doc(scenes: Option<seq<Fields>>)

  datatype Oracles = Oracles(
    parseEvent: string -> EventParse,
    matcher: string -> seq<string>,
    parseScene: string -> Option<SceneData>,
    parseDoc: string -> DocParse)

  const DataPrefix := "data: "
  const ChoicesKey := "\"choices\":"

  /** The text one line adds: a `data:` line adds the event's content (or
      nothing for `[DONE]` and for a payload that does not parse); any other
      non-empty line adds its trimmed text unless it holds `"choices":`. */
  function LineContribution(line: string, parseEvent: string -> EventParse): (r: string)
    ensures StartsWith(Trim(line), DataPrefix) ==>
      var data := Trim(Trim(line)[|DataPrefix|..]);
      && (data == "[DONE]" ==> r == "")
      && (data != "[DONE]" && parseEvent(data) == Unparseable ==> r == "")
      && (data != "[DONE]" && parseEvent(data).Event? ==>
            r == (if Truthy(parseEvent(data).content) then parseEvent(data).content.value else ""))
    ensures !StartsWith(Trim(line), DataPrefix) ==>
      r == (if |Trim(line)| > 0 && !Contains(Trim(line), ChoicesKey) then Trim(line) else "")
  {
    var trimmed := Trim(line);
    if StartsWith(trimmed, DataPrefix) then
      var data := Trim(trimmed[|DataPrefix|..]);
      if data == "[DONE]" then ""
      else match parseEvent(data)
        case Unparseable => ""
        case Event(content) => if Truthy(content) then content.value else ""
    else if |trimmed| > 0 && !Contains(trimmed, ChoicesKey) then trimmed
    else ""
  }

  /** The text a sequence of lines adds, in order. */
  function Accumulate(ls: seq<string>, parseEvent: string -> EventParse): string
  {
    if |ls| == 0 then "" else Accumulate(ls[..|ls| - 1], parseEvent) + LineContribution(ls[|ls| - 1], parseEvent)
  }

  lemma AppendAssociative<T>(a: seq<T>, b: seq<T>, c: seq<T>)
    ensures (a + b) + c == a + (b + c)
  {
  }

  /** One more line of a prefix. */
  lemma AccumulateStep(ls: seq<string>, k: nat, parseEvent: string -> EventParse)
    requires k < |ls|
    ensures Accumulate(ls[..k + 1], parseEvent) == Accumulate(ls[..k], parseEvent) + LineContribution(ls[k], parseEvent)
  {
    assert ls[..k + 1][..k] == ls[..k];
  }

  lemma {:induction false} AccumulateAppend(a: seq<string>, b: seq<string>, parseEvent: string -> EventParse)
    ensures Accumulate(a + b, parseEvent) == Accumulate(a, parseEvent) + Accumulate(b, parseEvent)
  {
    if |b| > 0 {
      assert (a + b)[..|a + b| - 1] == a + b[..|b| - 1];
      AccumulateAppend(a, b[..|b| - 1], parseEvent);
    } else {
      assert a + b == a;
    }
  }

  // ---------------------------------------------------------------------------
  // The ingest state and its steps
  // ---------------------------------------------------------------------------

  /** A scene job started: `processScene(index, scene)`. */
  datatype Dispatch = Dispatch(index: nat, scene: Fields)

  function ScenesOf(ds: seq<Dispatch>): (r: seq<Fields>)
    ensures |r| == |ds| && forall j :: 0 <= j < |ds| ==> r[j] == ds[j].scene
  {
    if |ds| == 0 then [] else ScenesOf(ds[..|ds| - 1]) + [ds[|ds| - 1].scene]
  }

  lemma ScenesOfAppend(a: seq<Dispatch>, b: seq<Dispatch>)
    ensures ScenesOf(a + b) == ScenesOf(a) + ScenesOf(b)
  {
  }

  /** `lineBuffer`, `accumulatedContent`, `sceneCount`, `currentScenes` and
      the scene jobs started. */
  datatype IngestState = IngestState(lineBuffer: string, accumulated: string, sceneCount: nat,
                                     scenes: seq<Fields>, dispatched: seq<Dispatch>)

  const Initial := IngestState("", "", 0, [], [])

  /** Every scene pushed was dispatched, and counted. */
  predicate Coherent(st: IngestState)
  {
    st.sceneCount == |st.dispatched| && st.scenes == ScenesOf(st.dispatched)
  }

  /** Only the line buffer and the accumulated text bear on `LinesOf`. */
  lemma LinesOfKept(st: IngestState, st': IngestState, received: string, parseEvent: string -> EventParse)
    requires LinesOf(st, received, parseEvent)
    requires st'.lineBuffer == st.lineBuffer && st'.accumulated == st.accumulated
    ensures LinesOf(st', received, parseEvent)
  {
  }

  /** The line step of one chunk: all lines of `lineBuffer + chunk` but the
      last are consumed; the last is kept. */
  function ConsumeChunk(st: IngestState, chunk: string, parseEvent: string -> EventParse): IngestState
  {
    var ls := SplitLines(st.lineBuffer + chunk);
    st.(lineBuffer := ls[|ls| - 1], accumulated := st.accumulated + Accumulate(ls[..|ls| - 1], parseEvent))
  }

  /** The state a stream of text `received` leaves behind in the line step:
      its closed lines consumed, its open line buffered. */
  predicate LinesOf(st: IngestState, received: string, parseEvent: string -> EventParse)
  {
    var p := ScanFrom(Start, received);
    st.lineBuffer == p.tail && st.accumulated == Accumulate(p.done, parseEvent)
  }

  /** Only newline-terminated lines are consumed and the partial tail waits
      for the next chunk, so the line step of a chunk continues exactly the
      line step of the text received before it. */
  lemma ConsumeOnlyCompleteLines(st: IngestState, received: string, chunk: string, parseEvent: string -> EventParse)
    requires LinesOf(st, received, parseEvent)
    ensures LinesOf(ConsumeChunk(st, chunk, parseEvent), received + chunk, parseEvent)
  {
    var p := ScanFrom(Start, received);
    ScanTailHasNoNewline(received);
    ScanNoNewline(p.tail);
    ScanFromAppend(Start, p.tail, chunk);
    ScanFromAppend(Start, received, chunk);
    var q := ScanFrom(LineScan([], p.tail), chunk);
    ScanFromShift(p.done, p.tail, chunk);
    var ls := SplitLines(p.tail + chunk);
    assert ls == q.done + [q.tail];
    assert ls[..|ls| - 1] == q.done;
    AccumulateAppend(p.done, q.done, parseEvent);
  }

  /** `jsonStr`: the match trimmed and closed with a brace if needed. The
      result is the trimmed match, with one `}` appended exactly when it
      did not already end with one. */
  function Clean(m: string): (r: string)
    ensures EndsWithBrace(r) && Trimmed(r)
    ensures r == Trim(m) || r == Trim(m) + "}"
    ensures r == Trim(m) <==> EndsWithBrace(Trim(m))
  {
    var t := Trim(m);
    if EndsWithBrace(t) then t else t + "}"
  }

  /** The scene built from a parsed match with a script. */
  function NewScene(d: SceneData): (s: Fields)
    requires Truthy(d.script)
    ensures s.script == d.script && s.videoUrl == Some(NullLink) && s.imageUrl == Some(NullLink)
    ensures s.audioUrl.None? && s.subtitles.None? && s.visualReady.None? && s.audioReady.None?
    ensures s.imagePrompt == Some(OrEmpty(d.imagePrompt)) && s.pexelsQuery == Some(OrEmpty(d.pexelsQuery))
    ensures s.cameraAngle == Some(OrEmpty(d.cameraAngle)) && s.mood == Some(OrEmpty(d.mood))
  {
    Fields(d.script, Some(OrEmpty(d.imagePrompt)), Some(OrEmpty(d.pexelsQuery)), Some(OrEmpty(d.cameraAngle)),
           Some(OrEmpty(d.mood)), Some(NullLink), Some(NullLink), None, None, None, None)
  }

  /** `value || ''`. */
  function OrEmpty(s: Option<string>): (r: string)
    ensures r == "" <==> !Truthy(s)
    ensures r != "" ==> s == Some(r)
  {
    if Truthy(s) then s.value else ""
  }

  /** Every match cleaned, in order. */
  function Cleaned(ms: seq<string>): (js: seq<string>)
    ensures |js| == |ms|
  {
    if |ms| == 0 then [] else Cleaned(ms[..|ms| - 1]) + [Clean(ms[|ms| - 1])]
  }

  lemma {:induction false} CleanedAt(ms: seq<string>, k: nat)
    requires k < |ms|
    ensures Cleaned(ms)[k] == Clean(ms[k])
  {
    if k < |ms| - 1 {
      CleanedAt(ms[..|ms| - 1], k);
    }
  }

  /** The scene a cleaned match yields: it parses and has a script. */
  function SceneOf(json: string, o: Oracles): Option<Fields>
  {
    var d := o.parseScene(json);
    if d.Some? && Truthy(d.value.script) then Some(NewScene(d.value)) else None
  }

  /** Whether a cleaned match yields a scene. */
  predicate Good(json: string, o: Oracles)
  {
    SceneOf(json, o).Some?
  }

  /** Every cleaned match from `i` on yields a scene. */
  predicate AllGoodFrom(js: seq<string>, i: nat, o: Oracles)
  {
    forall k :: i <= k < |js| ==> Good(js[k], o)
  }

  /** The scenes emitted for matches `i`, `i + 1`, … as written: a match is
      dispatched with its match position as index. */
  function EmitFrom(ms: seq<string>, i: nat, o: Oracles): seq<Dispatch>
    decreases |ms| - i
  {
    if i >= |ms| then []
    else if SceneOf(ms[i], o).Some? then [Dispatch(i, SceneOf(ms[i], o).value)] + EmitFrom(ms, i + 1, o)
    else EmitFrom(ms, i + 1, o)
  }

  /** Only matches at or after the cursor are examined; each emitted match
      was good; indexes strictly increase, so one pass emits no match
      twice; and when every examined match is good, each is emitted once,
      in order. */
  lemma {:induction false} EmitFromFacts(ms: seq<string>, i: nat, o: Oracles)
    ensures var es := EmitFrom(ms, i, o);
      && (|ms| <= i ==> es == [])
      && (i <= |ms| ==> |es| <= |ms| - i)
      && (forall j :: 0 <= j < |es| ==> i <= es[j].index < |ms| && Good(ms[es[j].index], o))
      && (forall j, k :: 0 <= j < k < |es| ==> es[j].index < es[k].index)
      && (AllGoodFrom(ms, i, o) ==>
            && (i <= |ms| ==> |es| == |ms| - i)
            && forall j :: 0 <= j < |es| ==> es[j].index == i + j)
    decreases |ms| - i
  {
    if i < |ms| {
      EmitFromFacts(ms, i + 1, o);
      var rest := EmitFrom(ms, i + 1, o);
      if SceneOf(ms[i], o).Some? {
        assert EmitFrom(ms, i, o) == [Dispatch(i, SceneOf(ms[i], o).value)] + rest;
      } else {
        assert EmitFrom(ms, i, o) == rest;
      }
    }
  }

  /** One step of the match loop. */
  lemma EmitFromStep(ms: seq<string>, i: nat, o: Oracles)
    requires i < |ms|
    ensures EmitFrom(ms, i, o) == (if Good(ms[i], o) then [Dispatch(i, SceneOf(ms[i], o).value)] else []) + EmitFrom(ms, i + 1, o)
  {
    if !Good(ms[i], o) {
      assert [] + EmitFrom(ms, i + 1, o) == EmitFrom(ms, i + 1, o);
    }
  }

  /** The match step after a chunk: matches from `sceneCount` on. */
  function EmitStep(st: IngestState, o: Oracles): IngestState
  {
    var es := EmitFrom(Cleaned(o.matcher(st.accumulated)), st.sceneCount, o);
    st.(sceneCount := st.sceneCount + |es|, scenes := st.scenes + ScenesOf(es), dispatched := st.dispatched + es)
  }

  /** One chunk: the line step, then the match step. */
  function FeedChunk(st: IngestState, chunk: string, o: Oracles): IngestState
  {
    EmitStep(ConsumeChunk(st, chunk, o.parseEvent), o)
  }

  function FeedAll(st: IngestState, chunks: seq<string>, o: Oracles): IngestState
  {
    if |chunks| == 0 then st else FeedChunk(FeedAll(st, chunks[..|chunks| - 1], o), chunks[|chunks| - 1], o)
  }

  function ConcatChunks(chunks: seq<string>): string
  {
    if |chunks| == 0 then "" else ConcatChunks(chunks[..|chunks| - 1]) + chunks[|chunks| - 1]
  }

  /** How the text arrives in chunks does not matter to the line step: after
      any chunking of a stream, the buffer holds the stream's open line and
      the accumulated text is the contribution of its closed lines. */
  lemma {:induction false} ChunkingDoesNotMatter(chunks: seq<string>, o: Oracles)
    ensures LinesOf(FeedAll(Initial, chunks, o), ConcatChunks(chunks), o.parseEvent)
  {
    if |chunks| > 0 {
      var init := chunks[..|chunks| - 1];
      ChunkingDoesNotMatter(init, o);
      var st := FeedAll(Initial, init, o);
      ConsumeOnlyCompleteLines(st, ConcatChunks(init), chunks[|chunks| - 1], o.parseEvent);
    }
  }

  /** When the match loop has passed the last match, the scenes it pushed
      and dispatched are those of the match step. */
  lemma EmitLoopEnds(st: IngestState, o: Oracles, sent: seq<Dispatch>, found: seq<Fields>)
    requires Coherent(st)
    requires sent == st.dispatched + EmitFrom(Cleaned(o.matcher(st.accumulated)), st.sceneCount, o)
    requires found == ScenesOf(sent)
    ensures EmitStep(st, o) == st.(sceneCount := |sent|, scenes := found, dispatched := sent)
  {
    var es := EmitFrom(Cleaned(o.matcher(st.accumulated)), st.sceneCount, o);
    ScenesOfAppend(st.dispatched, es);
  }

  /** The match loop: every match from the cursor on is cleaned and parsed,
      and each good one is dispatched with its match position as index. */
  method EmitLoop(matches: seq<string>, cursor: nat, o: Oracles, start: seq<Dispatch>, startScenes: seq<Fields>)
    returns (sent: seq<Dispatch>, found: seq<Fields>)
    requires startScenes == ScenesOf(start)
    ensures sent == start + EmitFrom(Cleaned(matches), cursor, o) && found == ScenesOf(sent)
  {
    ghost var js := Cleaned(matches);
    sent, found := start, startScenes;
    var i := cursor;
    while i < |matches|
      invariant cursor <= i
      invariant sent + EmitFrom(js, i, o) == start + EmitFrom(js, cursor, o)
      invariant found == ScenesOf(sent)
      decreases |matches| - i
    {
      var jsonStr := Trim(matches[i]);
      if !EndsWithBrace(jsonStr) {
        jsonStr := jsonStr + "}";
      }
      CleanedAt(matches, i);
      assert jsonStr == js[i];
      EmitFromStep(js, i, o);
      var d := o.parseScene(jsonStr);
      if d.Some? && Truthy(d.value.script) {
        var scene := NewScene(d.value);
        assert SceneOf(js[i], o) == Some(scene);
        ScenesOfAppend(sent, [Dispatch(i, scene)]);
        AppendAssociative(sent, [Dispatch(i, scene)], EmitFrom(js, i + 1, o));
        found := found + [scene];
        sent := sent + [Dispatch(i, scene)];
      }
      i := i + 1;
    }
    assert EmitFrom(js, i, o) == [];
    assert sent + [] == sent;
  }

  /** The match step keeps the state coherent and never moves the cursor
      back. */
  lemma EmitStepCoherent(st: IngestState, o: Oracles)
    requires Coherent(st)
    ensures Coherent(EmitStep(st, o)) && EmitStep(st, o).sceneCount >= st.sceneCount
    ensures EmitStep(st, o).lineBuffer == st.lineBuffer && EmitStep(st, o).accumulated == st.accumulated
    ensures |st.dispatched| <= |EmitStep(st, o).dispatched|
    ensures EmitStep(st, o).dispatched[..|st.dispatched|] == st.dispatched
  {
    var es := EmitFrom(Cleaned(o.matcher(st.accumulated)), st.sceneCount, o);
    ScenesOfAppend(st.dispatched, es);
  }

  /** Every run of the read loop keeps the state coherent. */
  lemma {:induction false} FeedAllCoherent(chunks: seq<string>, o: Oracles)
    ensures Coherent(FeedAll(Initial, chunks, o))
  {
    if |chunks| > 0 {
      var init := chunks[..|chunks| - 1];
      FeedAllCoherent(init, o);
      EmitStepCoherent(ConsumeChunk(FeedAll(Initial, init, o), chunks[|chunks| - 1], o.parseEvent), o);
    }
  }

  /** Dispatch indexes equal scene positions. */
  predicate Aligned(st: IngestState)
  {
    forall j :: 0 <= j < |st.dispatched| ==> st.dispatched[j].index == j
  }

  /** While every match examined is good, the match step appends each
      match once and dispatches it with the index of its own position. */
  lemma AllGoodStaysAligned(st: IngestState, o: Oracles)
    requires Coherent(st) && Aligned(st)
    requires AllGoodFrom(Cleaned(o.matcher(st.accumulated)), st.sceneCount, o)
    ensures Coherent(EmitStep(st, o)) && Aligned(EmitStep(st, o))
    ensures var n := |o.matcher(st.accumulated)|;
      EmitStep(st, o).sceneCount == if n > st.sceneCount then n else st.sceneCount
  {
    var js := Cleaned(o.matcher(st.accumulated));
    EmitFromAllGood(js, st.sceneCount, o);
    EmitStepCoherent(st, o);
    AlignedAppend(st.dispatched, EmitFrom(js, st.sceneCount, o));
  }

  /** When every match from `i` on is good, each is emitted once, in order,
      with its own position as index. */
  lemma {:induction false} EmitFromAllGood(ms: seq<string>, i: nat, o: Oracles)
    requires AllGoodFrom(ms, i, o)
    ensures |EmitFrom(ms, i, o)| == if i <= |ms| then |ms| - i else 0
    ensures forall j :: 0 <= j < |EmitFrom(ms, i, o)| ==> EmitFrom(ms, i, o)[j].index == i + j
    decreases |ms| - i
  {
    if i < |ms| {
      EmitFromAllGood(ms, i + 1, o);
      EmitFromStep(ms, i, o);
    }
  }

  /** Dispatches numbered on from the end of aligned ones stay aligned. */
  lemma AlignedAppend(d: seq<Dispatch>, es: seq<Dispatch>)
    requires forall j :: 0 <= j < |d| ==> d[j].index == j
    requires forall j :: 0 <= j < |es| ==> es[j].index == |d| + j
    ensures forall j :: 0 <= j < |d + es| ==> (d + es)[j].index == j
  {
    forall j | 0 <= j < |d + es|
      ensures (d + es)[j].index == j
    {
      if j >= |d| {
        assert (d + es)[j] == es[j - |d|];
      }
    }
  }

  /** A match that is skipped (it does not parse, or has no script) leaves
      the cursor behind the match after it: that match is dispatched with
      an index one past its position and, at the next chunk, emitted again. */
  lemma SkippedMatchIsReemitted(bad: string, good: string, o: Oracles)
    requires !Good(bad, o) && Good(good, o)
    ensures var ms := [bad, good];
      var first := EmitFrom(ms, 0, o);
      && first == [Dispatch(1, SceneOf(good, o).value)]
      && EmitFrom(ms, |first|, o) == first
  {
    var ms := [bad, good];
    assert EmitFrom(ms, 2, o) == [];
    assert EmitFrom(ms, 1, o) == [Dispatch(1, SceneOf(good, o).value)];
  }

  // ---------------------------------------------------------------------------
  // The scene emission with its own cursor
  // ---------------------------------------------------------------------------

  /** The emission with a cursor of examined matches kept apart from the
      scene count: match `i` is examined once, and every scene emitted is
      dispatched with the position it takes. */
  function EmitFixed(ms: seq<string>, i: nat, count: nat, o: Oracles): (es: seq<Dispatch>)
    ensures i <= |ms| ==> |es| <= |ms| - i
    ensures forall j :: 0 <= j < |es| ==> es[j].index == count + j
    decreases |ms| - i
  {
    if i >= |ms| then []
    else if SceneOf(ms[i], o).Some? then [Dispatch(count, SceneOf(ms[i], o).value)] + EmitFixed(ms, i + 1, count + 1, o)
    else EmitFixed(ms, i + 1, count, o)
  }

  /** Two passes, the second resuming where the first stopped on a list of
      matches that extends the first one's, emit exactly what one pass over
      the longer list emits: every match is examined once. */
  lemma {:induction false} EmitFixedResumes(ms1: seq<string>, ms2: seq<string>, i: nat, count: nat, o: Oracles)
    requires |ms1| <= |ms2| && ms2[..|ms1|] == ms1 && i <= |ms1|
    ensures var first := EmitFixed(ms1, i, count, o);
      first + EmitFixed(ms2, |ms1|, count + |first|, o) == EmitFixed(ms2, i, count, o)
    decreases |ms1| - i
  {
    if i < |ms1| {
      assert ms2[i] == ms1[i];
      if Good(ms1[i], o) {
        EmitFixedResumes(ms1, ms2, i + 1, count + 1, o);
      } else {
        EmitFixedResumes(ms1, ms2, i + 1, count, o);
      }
    }
  }

  // ---------------------------------------------------------------------------
  // The end of the stream
  // ---------------------------------------------------------------------------

  /** The outcome of a production run: the number of scenes, or the error
      thrown when there is none. */
  datatype Outcome = Produced(count: nat) | NoScenes

  /** A recovered scene: `{ ...sceneData, videoUrl: null, imageUrl: null }`,
      the document's scene with both URLs `null` and every other field as
      the document gave it. */
  function Recover(d: Fields): (s: Fields)
    ensures s.videoUrl == Some(NullLink) && s.imageUrl == Some(NullLink)
    ensures s.script == d.script && s.imagePrompt == d.imagePrompt && s.pexelsQuery == d.pexelsQuery
    ensures s.cameraAngle == d.cameraAngle && s.mood == d.mood && s.audioUrl == d.audioUrl
    ensures s.subtitles == d.subtitles && s.visualReady == d.visualReady && s.audioReady == d.audioReady
  {
    d.(videoUrl := Some(NullLink), imageUrl := Some(NullLink))
  }

  /** The scenes of the whole-document parse, dispatched by their position
      in the document. */
  function Recovered(ds: seq<Fields>): (r: seq<Dispatch>)
    ensures |r| == |ds| && forall j :: 0 <= j < |ds| ==> r[j] == Dispatch(j, Recover(ds[j]))
  {
    if |ds| == 0 then [] else Recovered(ds[..|ds| - 1]) + [Dispatch(|ds| - 1, Recover(ds[|ds| - 1]))]
  }

  /** The whole-document parse, run only when nothing was emitted and more
      than ten characters were accumulated; `scenes || []`. */
  function Fallback(st: IngestState, o: Oracles): IngestState
  {
    if st.sceneCount == 0 && |st.accumulated| > 10 then
      match o.parseDoc(st.accumulated)
      case DocUnparseable => st
      case Doc(_) =>
        var es := Recovered(DocScenes(o.parseDoc(st.accumulated)));
        st.(sceneCount := st.sceneCount + |es|, scenes := st.scenes + ScenesOf(es), dispatched := st.dispatched + es)
    else st
  }

  function OutcomeOf(st: IngestState): (r: Outcome)
    ensures r == NoScenes <==> st.sceneCount == 0
    ensures r.Produced? ==> r.count == st.sceneCount && r.count >= 1
  {
    if st.sceneCount == 0 then NoScenes else Produced(st.sceneCount)
  }

  /** The scenes the whole-document parse yields: `scenes || []`. */
  function DocScenes(d: DocParse): seq<Fields>
  {
    if d.Doc? && d.scenes.Some? then d.scenes.value else []
  }

  /** When the whole-document parse runs and answers, it appends the
      document's scenes in order, aligned with their positions. */
  lemma FallbackRecovers(st: IngestState, o: Oracles)
    requires Coherent(st)
    requires st.sceneCount == 0 && |st.accumulated| > 10 && o.parseDoc(st.accumulated).Doc?
    ensures var ds := DocScenes(o.parseDoc(st.accumulated));
      && Fallback(st, o).dispatched == Recovered(ds)
      && Coherent(Fallback(st, o)) && Aligned(Fallback(st, o))
      && OutcomeOf(Fallback(st, o)) == (if |ds| == 0 then NoScenes else Produced(|ds|))
  {
    var es := Recovered(DocScenes(o.parseDoc(st.accumulated)));
    assert st.dispatched == [];
    assert [] + es == es;
    ScenesOfAppend(st.dispatched, es);
  }

  /** The whole-document parse does not run once a scene was emitted or when
      at most ten characters were accumulated; when it runs it keeps the
      state coherent. */
  lemma FallbackRunsOnlyWhenEmpty(st: IngestState, o: Oracles)
    requires Coherent(st)
    ensures st.sceneCount > 0 || |st.accumulated| <= 10 || o.parseDoc(st.accumulated).DocUnparseable? ==>
      Fallback(st, o) == st
    ensures Coherent(Fallback(st, o))
  {
    if st.sceneCount == 0 && |st.accumulated| > 10 && o.parseDoc(st.accumulated).Doc? {
      FallbackRecovers(st, o);
    }
  }

  /** One more document scene recovered. */
  lemma RecoveredStep(ds: seq<Fields>, i: nat)
    requires i < |ds|
    ensures Recovered(ds[..i + 1]) == Recovered(ds[..i]) + [Dispatch(i, Recover(ds[i]))]
  {
    assert ds[..i + 1][..i] == ds[..i];
  }

  /** When the recovery loop has pushed every document scene, its scenes
      and dispatches are those of the whole-document parse. */
  lemma FallbackLoopEnds(st: IngestState, o: Oracles, sent: seq<Dispatch>, kept: seq<Fields>)
    requires Coherent(st)
    requires st.sceneCount == 0 && |st.accumulated| > 10 && o.parseDoc(st.accumulated).Doc?
    requires sent == st.dispatched + Recovered(DocScenes(o.parseDoc(st.accumulated)))
    requires kept == ScenesOf(sent)
    ensures Fallback(st, o) == st.(sceneCount := |sent|, scenes := kept, dispatched := sent)
  {
    ScenesOfAppend(st.dispatched, Recovered(DocScenes(o.parseDoc(st.accumulated))));
  }

  /** The end-of-stream step on the stream's values: the whole-document
      parse when nothing was emitted and more than ten characters were
      accumulated. */
  method RunFallback(st: IngestState, o: Oracles) returns (r: IngestState)
    requires Coherent(st)
    ensures r == Fallback(st, o) && Coherent(r)
    ensures r.lineBuffer == st.lineBuffer && r.accumulated == st.accumulated
  {
    FallbackRunsOnlyWhenEmpty(st, o);
    r := st;
    if st.sceneCount == 0 && |st.accumulated| > 10 {
      match o.parseDoc(st.accumulated)
      case DocUnparseable =>
      case Doc(found) =>
        var ds := if found.Some? then found.value else [];
        var sent, kept := RecoverScenes(ds, st.dispatched, st.scenes);
        FallbackLoopEnds(st, o, sent, kept);
        r := st.(sceneCount := |sent|, scenes := kept, dispatched := sent);
    }
  }

  /** The recovery loop: every scene of the document is emitted at its own
      index, with both visual URLs reset. */
  method RecoverScenes(ds: seq<Fields>, start: seq<Dispatch>, startScenes: seq<Fields>)
    returns (sent: seq<Dispatch>, kept: seq<Fields>)
    requires startScenes == ScenesOf(start)
    ensures sent == start + Recovered(ds) && kept == ScenesOf(sent)
  {
    sent, kept := start, startScenes;
    var i := 0;
    while i < |ds|
      invariant 0 <= i <= |ds|
      invariant sent == start + Recovered(ds[..i]) && kept == ScenesOf(sent)
    {
      var scene := Recover(ds[i]);
      RecoveredStep(ds, i);
      AppendAssociative(start, Recovered(ds[..i]), [Dispatch(i, scene)]);
      ScenesOfAppend(sent, [Dispatch(i, scene)]);
      kept := kept + [scene];
      sent := sent + [Dispatch(i, scene)];
      i := i + 1;
    }
    assert ds[..i] == ds;
  }

  /** A whole production run over a stream split into `chunks`. */
  function Ingest(chunks: seq<string>, o: Oracles): IngestState
  {
    Fallback(FeedAll(Initial, chunks, o), o)
  }

  /** A stream in which no chunk holds a newline — the compact JSON document
      the generation route answers with is one — closes no line, so nothing
      is accumulated, nothing matched, the whole-document parse is skipped
      and the run ends without scenes. */
  lemma {:induction false} NewlineFreeStreamYieldsNoScenes(chunks: seq<string>, o: Oracles)
    requires NoNewline(ConcatChunks(chunks))
    requires o.matcher("") == []
    ensures FeedAll(Initial, chunks, o).accumulated == ""
    ensures FeedAll(Initial, chunks, o).lineBuffer == ConcatChunks(chunks)
    ensures OutcomeOf(Ingest(chunks, o)) == NoScenes
  {
    if |chunks| > 0 {
      var init := chunks[..|chunks| - 1];
      var c := chunks[|chunks| - 1];
      var text := ConcatChunks(init);
      assert ConcatChunks(chunks) == text + c;
      assert NoNewline(text) by {
        forall k | 0 <= k < |text|
          ensures text[k] != '\n'
        {
          assert text[k] == ConcatChunks(chunks)[k];
        }
      }
      NewlineFreeStreamYieldsNoScenes(init, o);
      var st := FeedAll(Initial, init, o);
      ScanNoNewline(text + c);
      assert SplitLines(st.lineBuffer + c) == [text + c];
      assert ConsumeChunk(st, c, o.parseEvent).accumulated == "";
    }
  }

  /** The end of the stream with the open line flushed as a last line
      before a final match step, the whole-document parse and the count
      check. */
  function FinishFlushed(st: IngestState, o: Oracles): (r: IngestState)
    ensures r.lineBuffer == ""
    ensures Coherent(st) ==> Coherent(r) && st.sceneCount <= r.sceneCount
  {
    var flushed := st.(lineBuffer := "", accumulated := st.accumulated + LineContribution(st.lineBuffer, o.parseEvent));
    var emitted := EmitStep(flushed, o);
    if Coherent(st) then
      EmitStepCoherent(flushed, o);
      FallbackRunsOnlyWhenEmpty(emitted, o);
      Fallback(emitted, o)
    else Fallback(emitted, o)
  }

  /** With the flush, every line of the stream is consumed, whatever the
      chunking; a newline-free document that is neither an event line nor
      holds `"choices":` is accumulated as its trimmed text, so its scenes
      are matched or recovered. */
  lemma FlushConsumesEveryLine(chunks: seq<string>, o: Oracles)
    ensures var st := FeedAll(Initial, chunks, o);
      var flushedText := st.accumulated + LineContribution(st.lineBuffer, o.parseEvent);
      && flushedText == Accumulate(SplitLines(ConcatChunks(chunks)), o.parseEvent)
      && (var text := ConcatChunks(chunks);
          NoNewline(text) && !StartsWith(Trim(text), DataPrefix) && !Contains(Trim(text), ChoicesKey) ==>
            flushedText == Trim(text))
  {
    ChunkingDoesNotMatter(chunks, o);
    var text := ConcatChunks(chunks);
    var p := ScanFrom(Start, text);
    AccumulateAppend(p.done, [p.tail], o.parseEvent);
    assert [p.tail][..0] == [];
    if NoNewline(text) {
      ScanNoNewline(text);
    }
  }

  /** A compact document whose scenes all match and parse is produced in
      full by the flushed run. */
  lemma FlushedCompactDocumentProduces(chunks: seq<string>, o: Oracles)
    requires var text := ConcatChunks(chunks);
      NoNewline(text) && !StartsWith(Trim(text), DataPrefix) && !Contains(Trim(text), ChoicesKey)
    requires |o.matcher(Trim(ConcatChunks(chunks)))| > 0
    requires AllGoodFrom(Cleaned(o.matcher(Trim(ConcatChunks(chunks)))), 0, o)
    requires o.matcher("") == []
    ensures OutcomeOf(FinishFlushed(FeedAll(Initial, chunks, o), o)) == Produced(|o.matcher(Trim(ConcatChunks(chunks)))|)
  {
    var st := FeedAll(Initial, chunks, o);
    NewlineFreeStreamYieldsNoScenes(chunks, o);
    FlushConsumesEveryLine(chunks, o);
    FeedAllCoherent(chunks, o);
    assert st.sceneCount == 0;
    EmitFromFacts(Cleaned(o.matcher(Trim(ConcatChunks(chunks)))), 0, o);
  }

  // ---------------------------------------------------------------------------
  // The ingest loop
  // ---------------------------------------------------------------------------

  /** The state of `handleGenerate` while the stream is read. */
  class ScriptStream {
    const oracles: Oracles
    var lineBuffer: string
    var accumulated: string
    var sceneCount: nat
    var scenes: seq<Fields>
    var dispatched: seq<Dispatch>
    /** The text received so far. */
    ghost var received: string

    function State(): IngestState
      reads this
    {
      IngestState(lineBuffer, accumulated, sceneCount, scenes, dispatched)
    }

    ghost predicate Valid()
      reads this
    {
      LinesOf(State(), received, oracles.parseEvent) && Coherent(State())
    }

    constructor (o: Oracles)
      ensures oracles == o && State() == Initial && received == ""
      ensures Valid()
    {
      oracles := o;
      lineBuffer := "";
      accumulated := "";
      sceneCount := 0;
      scenes := [];
      dispatched := [];
      received := "";
    }

    /** The line step of one chunk. */
    method ConsumeLines(chunk: string)
      requires Valid()
      modifies this
      ensures State() == ConsumeChunk(old(State()), chunk, oracles.parseEvent)
      ensures received == old(received) + chunk && Valid()
    {
      ghost var after := ConsumeChunk(State(), chunk, oracles.parseEvent);
      ConsumeOnlyCompleteLines(State(), received, chunk, oracles.parseEvent);
      var lines := SplitLines(lineBuffer + chunk);
      var acc := accumulated;
      var k := 0;
      while k < |lines| - 1
        invariant 0 <= k <= |lines| - 1
        invariant acc == accumulated + Accumulate(lines[..k], oracles.parseEvent)
        modifies {}
      {
        var piece := LineContribution(lines[k], oracles.parseEvent);
        AccumulateStep(lines, k, oracles.parseEvent);
        AppendAssociative(accumulated, Accumulate(lines[..k], oracles.parseEvent), piece);
        acc := acc + piece;
        k := k + 1;
      }
      assert lines[..k] == lines[..|lines| - 1];
      assert acc == after.accumulated;
      lineBuffer := lines[|lines| - 1];
      accumulated := acc;
      received := received + chunk;
      assert State() == after;
    }

    /** The match step: examines the matches from `sceneCount` on. */
    method EmitMatches()
      requires Valid()
      modifies this
      ensures State() == EmitStep(old(State()), oracles)
      ensures received == old(received) && Valid()
    {
      ghost var before := State();
      var sent, found := EmitLoop(oracles.matcher(accumulated), sceneCount, oracles, dispatched, scenes);
      EmitLoopEnds(before, oracles, sent, found);
      sceneCount, scenes, dispatched := |sent|, found, sent;
      LinesOfKept(before, State(), received, oracles.parseEvent);
    }

    /** One chunk of the stream. */
    method Feed(chunk: string)
      requires Valid()
      modifies this
      ensures State() == FeedChunk(old(State()), chunk, oracles)
      ensures received == old(received) + chunk && Valid()
    {
      ConsumeLines(chunk);
      EmitMatches();
    }

    /** The end of the stream: the whole-document parse when it applies,
        then the count check. */
    method Finish() returns (outcome: Outcome)
      requires Valid()
      modifies this
      ensures State() == Fallback(old(State()), oracles)
      ensures outcome == OutcomeOf(State())
    {
      var after := RunFallback(State(), oracles);
      sceneCount, scenes, dispatched := after.sceneCount, after.scenes, after.dispatched;
      assert State() == after;
      outcome := if sceneCount == 0 then NoScenes else Produced(sceneCount);
    }
  }

  /** The whole read loop over a stream split into `chunks`. */
  method Run(chunks: seq<string>, o: Oracles) returns (outcome: Outcome, stream: ScriptStream)
    ensures stream.State() == Ingest(chunks, o)
    ensures outcome == OutcomeOf(Ingest(chunks, o))
  {
    stream := new ScriptStream(o);
    var k := 0;
    while k < |chunks|
      invariant 0 <= k <= |chunks|
      invariant stream.Valid() && stream.oracles == o
      invariant stream.State() == FeedAll(Initial, chunks[..k], o)
      modifies stream
    {
      assert chunks[..k + 1][..k] == chunks[..k];
      stream.Feed(chunks[k]);
      k := k + 1;
    }
    assert chunks[..k] == chunks;
    outcome := stream.Finish();
  }
}
