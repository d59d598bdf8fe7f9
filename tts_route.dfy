/** The narration route (`POST /api/tts`): the narration text is cut into
    chunks of at most 180 characters at word boundaries (`splitText`), one
    synthesis request is made per chunk, and the audio bodies are joined into
    one buffer at running offsets. */
module TtsRoute {
  import opened Common

  newtype Byte = b: int | 0 <= b < 256

  /** The chunk size the route passes to `splitText`. */
  const ChunkSize: nat := 180

  // ---------------------------------------------------------------------------
  // Words: `text.split(/\s+/)`
  // ---------------------------------------------------------------------------

  /** `text.split(/\s+/)`: the fields between maximal runs of white space.
      Leading (trailing) white space yields an empty first (last) field, and
      the empty text yields one empty field. */
  function Words(text: string): (ws: seq<string>)
    ensures |ws| >= 1
    ensures forall k :: 0 <= k < |ws| ==> NoSpace(ws[k])
    ensures forall k :: 0 < k < |ws| - 1 ==> ws[k] != ""
    ensures text != [] && !IsSpace(text[0]) ==> ws[0] != ""
    decreases |text|
  {
    if text == [] then [""]
    else if IsSpace(text[0]) then [""] + Words(TrimStart(text[1..]))
    else
      var rest := Words(text[1..]);
      [[text[0]] + rest[0]] + rest[1..]
  }

  /** The fields with the separators between them: `ws[0] + seps[0] +
      ws[1] + … + ws[|ws| - 1]`. */
  function Interleave(ws: seq<string>, seps: seq<string>): string
    requires |ws| == |seps| + 1
    decreases |seps|
  {
    if seps == [] then ws[0] else ws[0] + seps[0] + Interleave(ws[1..], seps[1..])
  }

  /** A separator of `split(/\s+/)`: a non-empty run of white space. */
  predicate Run(sep: string)
  {
    sep != [] && AllSpace(sep)
  }

  /** `text` is the fields `ws` joined by the runs `seps`. */
  predicate Splits(ws: seq<string>, seps: seq<string>, text: string)
  {
    && |ws| == |seps| + 1
    && (forall k :: 0 <= k < |seps| ==> Run(seps[k]))
    && Interleave(ws, seps) == text
  }

  /** A leading run before an empty first field. */
  lemma PrependRun(run: string, ws: seq<string>, seps: seq<string>, rest: string)
    requires Run(run) && Splits(ws, seps, rest)
    ensures Splits([""] + ws, [run] + seps, run + rest)
  {
    var ws', seps' := [""] + ws, [run] + seps;
    assert ws'[1..] == ws && seps'[1..] == seps;
    assert Interleave(ws', seps') == "" + run + rest;
    assert "" + run + rest == run + rest;
  }

  /** One more character at the front of the first field. */
  lemma ExtendFirstField(c: char, ws: seq<string>, seps: seq<string>, rest: string)
    requires Splits(ws, seps, rest)
    ensures Splits([[c] + ws[0]] + ws[1..], seps, [c] + rest)
  {
    var ws' := [[c] + ws[0]] + ws[1..];
    assert ws'[1..] == ws[1..];
  }

  /** A text that starts with white space is a run followed by the rest
      trimmed at the start. */
  lemma LeadingRun(text: string)
    requires text != [] && IsSpace(text[0])
    ensures var n := |text| - |TrimStart(text[1..])|;
      0 < n <= |text| && Run(text[..n]) && text == text[..n] + TrimStart(text[1..])
  {
    var rest := TrimStart(text[1..]);
    TrimStartIsSuffix(text[1..]);
    var a := |text[1..]| - |rest|;
    assert text[..a + 1] == [text[0]] + text[1..][..a];
    assert text == text[..a + 1] + text[a + 1..];
  }

  /** `split(/\s+/)` breaks the text exactly at its maximal runs of white
      space: the fields, joined again by non-empty runs of white space, give
      back the text, and since no field holds white space and no inner
      field is empty, each separator is a whole run. */
  lemma {:induction false} WordsSplitAtRuns(text: string)
    ensures forall k :: 0 <= k < |Words(text)| ==> NoSpace(Words(text)[k])
    ensures forall k :: 0 < k < |Words(text)| - 1 ==> Words(text)[k] != ""
    ensures exists seps: seq<string> :: Splits(Words(text), seps, text)
    decreases |text|
  {
    if text == [] {
      assert Splits(Words(text), [], text);
    } else if IsSpace(text[0]) {
      var rest := TrimStart(text[1..]);
      WordsSplitAtRuns(rest);
      var seps :| Splits(Words(rest), seps, rest);
      LeadingRun(text);
      var run := text[..|text| - |rest|];
      PrependRun(run, Words(rest), seps, rest);
      assert Splits(Words(text), [run] + seps, text);
    } else {
      var r := Words(text[1..]);
      WordsSplitAtRuns(text[1..]);
      var seps :| Splits(r, seps, text[1..]);
      ExtendFirstField(text[0], r, seps, text[1..]);
      assert text == [text[0]] + text[1..];
      assert Splits(Words(text), seps, text);
    }
  }

  /** The characters of `s` that are not white space, in order. */
  function Visible(s: string): string
  {
    if s == [] then [] else (if IsSpace(s[0]) then [] else [s[0]]) + Visible(s[1..])
  }

  /** Concatenation without separators. */
  function Concat(ws: seq<string>): string
  {
    if ws == [] then [] else ws[0] + Concat(ws[1..])
  }

  lemma {:induction false} VisibleOfTrimStart(s: string)
    ensures Visible(TrimStart(s)) == Visible(s)
    decreases |s|
  {
    if s != [] && IsSpace(s[0]) {
      VisibleOfTrimStart(s[1..]);
    }
  }

  /** Splitting loses no visible character and invents none. */
  lemma {:induction false} WordsKeepVisibleText(text: string)
    ensures Concat(Words(text)) == Visible(text)
    decreases |text|
  {
    if text == [] {
    } else if IsSpace(text[0]) {
      var rest := TrimStart(text[1..]);
      WordsKeepVisibleText(rest);
      VisibleOfTrimStart(text[1..]);
      assert Concat([""] + Words(rest)) == "" + Concat(Words(rest)) by {
        assert ([""] + Words(rest))[1..] == Words(rest);
      }
    } else {
      var r := Words(text[1..]);
      WordsKeepVisibleText(text[1..]);
      var ws := [[text[0]] + r[0]] + r[1..];
      assert ws[1..] == r[1..];
      assert Concat(r) == r[0] + Concat(r[1..]);
    }
  }

  // ---------------------------------------------------------------------------
  // Joining with single spaces, non-empty words, first word of a chunk
  // ---------------------------------------------------------------------------

  /** `ws.join(' ')`. */
  function JoinSpace(ws: seq<string>): string
  {
    if |ws| == 0 then ""
    else if |ws| == 1 then ws[0]
    else JoinSpace(ws[..|ws| - 1]) + " " + ws[|ws| - 1]
  }

  /** The non-empty entries of `ws`, in order. */
  function NonEmpty(ws: seq<string>): seq<string>
  {
    if ws == [] then []
    else NonEmpty(ws[..|ws| - 1]) + (if ws[|ws| - 1] == "" then [] else [ws[|ws| - 1]])
  }

  /** The characters of `s` before its first white space. */
  function FirstWord(s: string): string
  {
    if s == [] || IsSpace(s[0]) then [] else [s[0]] + FirstWord(s[1..])
  }

  lemma {:induction false} FirstWordBeforeSpace(a: string, t: string)
    requires t != [] && IsSpace(t[0])
    ensures FirstWord(a + t) == FirstWord(a)
    decreases |a|
  {
    if a != [] && !IsSpace(a[0]) {
      assert (a + t)[1..] == a[1..] + t;
      FirstWordBeforeSpace(a[1..], t);
    } else if a == [] {
      assert a + t == t;
    }
  }

  lemma {:induction false} FirstWordOfWord(w: string)
    requires NoSpace(w)
    ensures FirstWord(w) == w
    decreases |w|
  {
    if w != [] {
      FirstWordOfWord(w[1..]);
    }
  }

  lemma JoinExtendLast(xs: seq<string>, a: string, b: string)
    ensures JoinSpace(xs + [a + " " + b]) == JoinSpace(xs + [a]) + " " + b
  {
    var l := xs + [a + " " + b];
    var m := xs + [a];
    assert l[..|l| - 1] == xs && m[..|m| - 1] == xs;
  }

  lemma JoinAppend(xs: seq<string>, w: string)
    requires xs != []
    ensures JoinSpace(xs + [w]) == JoinSpace(xs) + " " + w
  {
    assert (xs + [w])[..|xs|] == xs;
  }

  lemma NonEmptyStep(ws: seq<string>, i: nat)
    requires i < |ws|
    ensures NonEmpty(ws[..i + 1]) == NonEmpty(ws[..i]) + (if ws[i] == "" then [] else [ws[i]])
  {
    assert ws[..i + 1][..i] == ws[..i];
  }

  // ---------------------------------------------------------------------------
  // splitText: the greedy packer
  // ---------------------------------------------------------------------------

  /** The loop state of `splitText`: the chunks closed so far and `current`. */
  datatype Packing = Packing(chunks: seq<string>, current: string)

  /** One iteration of the `splitText` loop for `word`. */
  function Advance(p: Packing, word: string, maxLength: nat): Packing
  {
    var joined := Trim(p.current + " " + word);
    if |joined| <= maxLength then Packing(p.chunks, joined)
    else Packing(p.chunks + (if p.current != "" then [p.current] else []), word)
  }

  /** The loop state after the words of `words`, in order. */
  function PackAll(words: seq<string>, maxLength: nat): Packing
  {
    if words == [] then Packing([], "")
    else Advance(PackAll(words[..|words| - 1], maxLength), words[|words| - 1], maxLength)
  }

  /** The chunks once the final `current` is pushed (if non-empty). */
  function Closed(p: Packing): seq<string>
  {
    p.chunks + (if p.current != "" then [p.current] else [])
  }

  /** What `splitText(text, maxLength)` returns. */
  function SplitChunks(text: string, maxLength: nat): seq<string>
  {
    Closed(PackAll(Words(text), maxLength))
  }

  /** The source loop: walks the words, keeps `current` and closes a chunk
      whenever the next word would not fit. */
  method SplitText(text: string, maxLength: nat) returns (chunks: seq<string>)
    ensures chunks == SplitChunks(text, maxLength)
  {
    var words := Words(text);
    chunks := [];
    var current := "";
    var i := 0;
    while i < |words|
      invariant 0 <= i <= |words|
      invariant Packing(chunks, current) == PackAll(words[..i], maxLength)
    {
      var word := words[i];
      assert words[..i + 1][..i] == words[..i] && words[..i + 1][i] == word;
      assert PackAll(words[..i + 1], maxLength) == Advance(Packing(chunks, current), word, maxLength);
      if |Trim(current + " " + word)| <= maxLength {
        current := Trim(current + " " + word);
      } else {
        if current != "" {
          chunks := chunks + [current];
        }
        current := word;
      }
      i := i + 1;
    }
    assert words[..|words|] == words;
    if current != "" {
      chunks := chunks + [current];
    }
  }

  /** The shape of `Words`: words without white space, empty only first or last. */
  ghost predicate WordShape(words: seq<string>)
  {
    && (forall k :: 0 <= k < |words| ==> NoSpace(words[k]))
    && (forall k :: 0 < k < |words| - 1 ==> words[k] != "")
  }

  /** Every closed chunk is non-empty and fits or is one word; `current` is
      trimmed and fits or is one word. */
  ghost predicate ChunksOk(words: seq<string>, maxLength: nat, p: Packing)
  {
    && (forall k :: 0 <= k < |p.chunks| ==>
          p.chunks[k] != "" && (|p.chunks[k]| <= maxLength || p.chunks[k] in words))
    && Trimmed(p.current)
    && (|p.current| <= maxLength || p.current in words)
  }

  /** The state holds exactly the non-empty words seen so far, in order. */
  ghost predicate JoinOk(words: seq<string>, i: nat, p: Packing)
    requires i <= |words|
  {
    && JoinSpace(Closed(p)) == JoinSpace(NonEmpty(words[..i]))
    && (NonEmpty(words[..i]) == [] <==> (p.chunks == [] && p.current == ""))
    && (p.current == "" && p.chunks != [] ==> i == |words|)
  }

  /** Each chunk but the last is followed by a word that did not fit after it. */
  ghost predicate Greedy(maxLength: nat, cs: seq<string>)
  {
    forall k :: 0 <= k < |cs| - 1 ==> |cs[k]| + 1 + |FirstWord(cs[k + 1])| > maxLength
  }

  /** Every chunk was closed because the next word did not fit. */
  ghost predicate GreedyOk(maxLength: nat, p: Packing)
  {
    Greedy(maxLength, Closed(p))
  }

  ghost predicate PackInv(words: seq<string>, maxLength: nat, i: nat, p: Packing)
    requires i <= |words|
  {
    ChunksOk(words, maxLength, p) && JoinOk(words, i, p) && GreedyOk(maxLength, p)
  }

  /** `trim` applied to `current + ' ' + word` in each case. */
  lemma TrimJoin(c: string, w: string)
    requires Trimmed(c) && NoSpace(w)
    ensures Trim(c + " " + w) == if c == "" then w else if w == "" then c else c + " " + w
  {
    NoSpaceIsTrimmed(w);
    if c == "" {
      assert c + " " + w == " " + w;
      TrimDropsLeadingSpace(w);
    } else if w == "" {
      assert c + " " + w == c + " ";
      TrimDropsTrailingSpace(c);
    } else {
      TrimOfTrimmed(c + " " + w);
    }
  }

  /** `Advance` without `trim`, valid when `current` is trimmed and the word
      has no white space. */
  function Step(p: Packing, word: string, maxLength: nat): Packing
  {
    var c := p.current;
    var joined := if c == "" then word else if word == "" then c else c + " " + word;
    if |joined| <= maxLength then Packing(p.chunks, joined)
    else Packing(p.chunks + (if c != "" then [c] else []), word)
  }

  lemma AdvanceIsStep(p: Packing, word: string, maxLength: nat)
    requires Trimmed(p.current) && NoSpace(word)
    ensures Advance(p, word, maxLength) == Step(p, word, maxLength)
  {
    TrimJoin(p.current, word);
    AdvanceWithJoined(p, word, maxLength, if p.current == "" then word else if word == "" then p.current else p.current + " " + word);
  }

  lemma AdvanceWithJoined(p: Packing, word: string, maxLength: nat, joined: string)
    requires Trim(p.current + " " + word) == joined
    ensures Advance(p, word, maxLength) ==
      if |joined| <= maxLength then Packing(p.chunks, joined)
      else Packing(p.chunks + (if p.current != "" then [p.current] else []), word)
  {
  }

  lemma AdvanceChunksOk(words: seq<string>, maxLength: nat, i: nat, p: Packing)
    requires WordShape(words) && i < |words|
    requires PackInv(words, maxLength, i, p)
    ensures ChunksOk(words, maxLength, Advance(p, words[i], maxLength))
  {
    var w := words[i];
    AdvanceIsStep(p, w, maxLength);
    NoSpaceIsTrimmed(w);
    assert w in words;
    StepChunksOk(words, maxLength, p, w);
  }

  /** A step with a word of `words` keeps the chunks non-empty and fitting
      unless they are one word. */
  lemma StepChunksOk(words: seq<string>, maxLength: nat, p: Packing, w: string)
    requires ChunksOk(words, maxLength, p) && w in words && NoSpace(w) && Trimmed(w)
    ensures ChunksOk(words, maxLength, Step(p, w, maxLength))
  {
    var c := p.current;
    var q := Step(p, w, maxLength);
    if c != "" && w != "" && |c| + 1 + |w| <= maxLength {
      var j := c + " " + w;
      assert j[0] == c[0] && j[|j| - 1] == w[|w| - 1];
      assert q == Packing(p.chunks, j);
    } else if c != "" && |c| > maxLength {
      assert q.chunks == p.chunks + [c];
    }
  }

  lemma AdvanceJoinOk(words: seq<string>, maxLength: nat, i: nat, p: Packing)
    requires WordShape(words) && i < |words|
    requires PackInv(words, maxLength, i, p)
    ensures JoinOk(words, i + 1, Advance(p, words[i], maxLength))
  {
    AdvanceIsStep(p, words[i], maxLength);
    NonEmptyStep(words, i);
    if p.current == "" {
      JoinFromNothing(words, maxLength, i, p);
    } else if words[i] == "" {
      JoinEmptyWord(words, maxLength, i, p);
    } else if |p.current| + 1 + |words[i]| <= maxLength {
      JoinExtend(words, maxLength, i, p);
    } else {
      JoinClose(words, maxLength, i, p);
    }
  }

  lemma JoinFromNothing(words: seq<string>, maxLength: nat, i: nat, p: Packing)
    requires i < |words| && JoinOk(words, i, p) && p.current == ""
    requires NonEmpty(words[..i + 1]) == NonEmpty(words[..i]) + (if words[i] == "" then [] else [words[i]])
    ensures JoinOk(words, i + 1, Step(p, words[i], maxLength))
  {
    assert p.chunks == [] && NonEmpty(words[..i]) == [];
    assert Step(p, words[i], maxLength) == Packing([], words[i]);
  }

  lemma JoinEmptyWord(words: seq<string>, maxLength: nat, i: nat, p: Packing)
    requires WordShape(words) && i < |words|
    requires JoinOk(words, i, p) && p.current != "" && words[i] == ""
    requires NonEmpty(words[..i + 1]) == NonEmpty(words[..i])
    ensures JoinOk(words, i + 1, Step(p, words[i], maxLength))
  {
    var c := p.current;
    if |c| > maxLength {
      assert Step(p, words[i], maxLength) == Packing(p.chunks + [c], "");
      assert words[..0] == [];
      assert i > 0;
      assert !(0 < i < |words| - 1);
      assert i + 1 == |words|;
      var q := Packing(p.chunks + [c], "");
      assert Closed(p) == p.chunks + [c] == Closed(q);
      assert JoinSpace(Closed(q)) == JoinSpace(NonEmpty(words[..i + 1]));
      assert NonEmpty(words[..i + 1]) != [];
      assert JoinOk(words, i + 1, q);
    } else {
      assert Step(p, words[i], maxLength) == p;
    }
  }

  lemma JoinExtend(words: seq<string>, maxLength: nat, i: nat, p: Packing)
    requires i < |words|
    requires JoinOk(words, i, p) && p.current != "" && words[i] != ""
    requires |p.current| + 1 + |words[i]| <= maxLength
    requires NonEmpty(words[..i + 1]) == NonEmpty(words[..i]) + [words[i]]
    ensures JoinOk(words, i + 1, Step(p, words[i], maxLength))
  {
    var c, w := p.current, words[i];
    assert Step(p, w, maxLength) == Packing(p.chunks, c + " " + w);
    JoinExtendLast(p.chunks, c, w);
    JoinAppend(NonEmpty(words[..i]), w);
  }

  lemma JoinClose(words: seq<string>, maxLength: nat, i: nat, p: Packing)
    requires i < |words|
    requires JoinOk(words, i, p) && p.current != "" && words[i] != ""
    requires |p.current| + 1 + |words[i]| > maxLength
    requires NonEmpty(words[..i + 1]) == NonEmpty(words[..i]) + [words[i]]
    ensures JoinOk(words, i + 1, Step(p, words[i], maxLength))
  {
    var c, w := p.current, words[i];
    var q := Step(p, w, maxLength);
    assert q == Packing(p.chunks + [c], w);
    assert Closed(q) == (p.chunks + [c]) + [w];
    JoinAppend(p.chunks + [c], w);
    JoinAppend(NonEmpty(words[..i]), w);
  }

  lemma GreedyAppend(maxLength: nat, cs: seq<string>, x: string)
    requires Greedy(maxLength, cs)
    requires cs != [] ==> |cs[|cs| - 1]| + 1 + |FirstWord(x)| > maxLength
    ensures Greedy(maxLength, cs + [x])
  {
    var ds := cs + [x];
    forall k | 0 <= k < |ds| - 1
      ensures |ds[k]| + 1 + |FirstWord(ds[k + 1])| > maxLength
    {
      assert ds[k] == cs[k];
      if k < |cs| - 1 {
        assert ds[k + 1] == cs[k + 1];
      } else {
        assert ds[k + 1] == x;
      }
    }
  }

  lemma GreedyReplaceLast(maxLength: nat, cs: seq<string>, x: string, y: string)
    requires Greedy(maxLength, cs + [x]) && FirstWord(x) == FirstWord(y)
    ensures Greedy(maxLength, cs + [y])
  {
    var xs, ys := cs + [x], cs + [y];
    forall k | 0 <= k < |ys| - 1
      ensures |ys[k]| + 1 + |FirstWord(ys[k + 1])| > maxLength
    {
      assert ys[k] == xs[k];
      assert |xs[k]| + 1 + |FirstWord(xs[k + 1])| > maxLength;
      if k + 1 < |cs| {
        assert ys[k + 1] == xs[k + 1];
      } else {
        assert ys[k + 1] == y && xs[k + 1] == x;
      }
    }
  }

  lemma AdvanceGreedyOk(words: seq<string>, maxLength: nat, i: nat, p: Packing)
    requires WordShape(words) && i < |words|
    requires PackInv(words, maxLength, i, p)
    ensures GreedyOk(maxLength, Advance(p, words[i], maxLength))
  {
    AdvanceIsStep(p, words[i], maxLength);
    StepGreedy(maxLength, p, words[i]);
  }

  lemma StepGreedy(maxLength: nat, p: Packing, w: string)
    requires NoSpace(w) && GreedyOk(maxLength, p)
    requires p.current == "" ==> p.chunks == []
    ensures GreedyOk(maxLength, Step(p, w, maxLength))
  {
    if p.current == "" {
      assert Step(p, w, maxLength) == Packing([], w);
    } else if w == "" {
      var q := Step(p, w, maxLength);
      assert Closed(q) == Closed(p);
    } else if |p.current| + 1 + |w| <= maxLength {
      StepGreedyJoin(maxLength, p, w);
    } else {
      StepGreedyClose(maxLength, p, w);
    }
  }

  /** A word that fits joins the open chunk, whose first word stays. */
  lemma StepGreedyJoin(maxLength: nat, p: Packing, w: string)
    requires GreedyOk(maxLength, p) && p.current != "" && w != ""
    requires |p.current| + 1 + |w| <= maxLength
    ensures GreedyOk(maxLength, Step(p, w, maxLength))
  {
    var c := p.current;
    assert Step(p, w, maxLength) == Packing(p.chunks, c + " " + w);
    FirstWordBeforeSpace(c, " " + w);
    assert c + " " + w == c + (" " + w);
    GreedyReplaceLast(maxLength, p.chunks, c, c + " " + w);
  }

  /** A word that does not fit closes the open chunk and opens its own. */
  lemma StepGreedyClose(maxLength: nat, p: Packing, w: string)
    requires NoSpace(w) && GreedyOk(maxLength, p) && p.current != "" && w != ""
    requires |p.current| + 1 + |w| > maxLength
    ensures GreedyOk(maxLength, Step(p, w, maxLength))
  {
    var q := Step(p, w, maxLength);
    FirstWordOfWord(w);
    assert q == Packing(p.chunks + [p.current], w);
    assert Closed(q) == Closed(p) + [w];
    GreedyAppend(maxLength, Closed(p), w);
  }

  lemma {:induction false} PackAllInv(words: seq<string>, maxLength: nat, i: nat)
    requires WordShape(words) && i <= |words|
    ensures PackInv(words, maxLength, i, PackAll(words[..i], maxLength))
  {
    if i > 0 {
      PackAllInv(words, maxLength, i - 1);
      var p := PackAll(words[..i - 1], maxLength);
      assert words[..i][..i - 1] == words[..i - 1] && words[..i][i - 1] == words[i - 1];
      assert PackAll(words[..i], maxLength) == Advance(p, words[i - 1], maxLength);
      AdvanceKeepsInv(words, maxLength, i - 1, p);
    }
  }

  lemma AdvanceKeepsInv(words: seq<string>, maxLength: nat, i: nat, p: Packing)
    requires WordShape(words) && i < |words|
    requires PackInv(words, maxLength, i, p)
    ensures PackInv(words, maxLength, i + 1, Advance(p, words[i], maxLength))
  {
    AdvanceChunksOk(words, maxLength, i, p);
    AdvanceJoinOk(words, maxLength, i, p);
    AdvanceGreedyOk(words, maxLength, i, p);
  }

  lemma SplitChunksFacts(text: string, maxLength: nat)
    ensures PackInv(Words(text), maxLength, |Words(text)|, PackAll(Words(text), maxLength))
  {
    var ws := Words(text);
    PackAllInv(ws, maxLength, |ws|);
    assert ws[..|ws|] == ws;
  }

  /** `splitText` never emits an empty chunk. */
  lemma NoEmptyChunk(text: string, maxLength: nat)
    ensures forall k :: 0 <= k < |SplitChunks(text, maxLength)| ==> SplitChunks(text, maxLength)[k] != ""
  {
    SplitChunksFacts(text, maxLength);
    var p := PackAll(Words(text), maxLength);
    assert ChunksOk(Words(text), maxLength, p);
  }

  /** Every chunk fits, unless it is one word that is itself too long. */
  lemma ChunkWithinLimit(text: string, maxLength: nat)
    ensures forall k :: 0 <= k < |SplitChunks(text, maxLength)| ==>
      var c := SplitChunks(text, maxLength)[k];
      |c| <= maxLength || (c in Words(text) && NoSpace(c))
  {
    SplitChunksFacts(text, maxLength);
    var p := PackAll(Words(text), maxLength);
    assert ChunksOk(Words(text), maxLength, p);
  }

  /** The chunks, joined with single spaces, are the non-empty words joined
      with single spaces: no word is dropped, split or reordered. */
  lemma ChunksPreserveWords(text: string, maxLength: nat)
    ensures JoinSpace(SplitChunks(text, maxLength)) == JoinSpace(NonEmpty(Words(text)))
  {
    var ws := Words(text);
    SplitChunksFacts(text, maxLength);
    assert JoinOk(ws, |ws|, PackAll(ws, maxLength));
    assert ws[..|ws|] == ws;
  }

  /** Greedy packing: a chunk is closed only when the first word of the next
      chunk would not have fitted after it. */
  lemma ChunksAreGreedy(text: string, maxLength: nat)
    ensures forall k :: 0 <= k < |SplitChunks(text, maxLength)| - 1 ==>
      |SplitChunks(text, maxLength)[k]| + 1 + |FirstWord(SplitChunks(text, maxLength)[k + 1])| > maxLength
  {
    SplitChunksFacts(text, maxLength);
    var p := PackAll(Words(text), maxLength);
    assert GreedyOk(maxLength, p);
  }

  /** A text of white space only gives no chunk at all. */
  lemma {:induction false} BlankTextHasNoChunk(text: string, maxLength: nat)
    requires forall k :: 0 <= k < |text| ==> IsSpace(text[k])
    ensures SplitChunks(text, maxLength) == []
  {
    var ws := Words(text);
    WordsKeepVisibleText(text);
    BlankIsInvisible(text);
    SplitChunksFacts(text, maxLength);
    assert NonEmpty(ws) == [] by {
      ConcatEmptyWords(ws);
      AllEmptyNonEmpty(ws);
    }
    assert ws[..|ws|] == ws;
  }

  lemma {:induction false} BlankIsInvisible(s: string)
    requires forall k :: 0 <= k < |s| ==> IsSpace(s[k])
    ensures Visible(s) == []
    decreases |s|
  {
    if s != [] {
      BlankIsInvisible(s[1..]);
    }
  }

  lemma {:induction false} ConcatEmptyWords(ws: seq<string>)
    requires Concat(ws) == []
    ensures forall k :: 0 <= k < |ws| ==> ws[k] == ""
  {
    if ws != [] {
      ConcatEmptyWords(ws[1..]);
      assert forall k :: 1 <= k < |ws| ==> ws[k] == ws[1..][k - 1];
    }
  }

  lemma {:induction false} AllEmptyNonEmpty(ws: seq<string>)
    requires forall k :: 0 <= k < |ws| ==> ws[k] == ""
    ensures NonEmpty(ws) == []
  {
    if ws != [] {
      AllEmptyNonEmpty(ws[..|ws| - 1]);
    }
  }

  // ---------------------------------------------------------------------------
  // Joining the audio buffers
  // ---------------------------------------------------------------------------

  /** `audioBuffers.reduce((sum, buf) => sum + buf.byteLength, 0)`. */
  function TotalLength(bufs: seq<seq<Byte>>): nat
  {
    if bufs == [] then 0 else TotalLength(bufs[..|bufs| - 1]) + |bufs[|bufs| - 1]|
  }

  /** The buffers one after the other. */
  function Flatten(bufs: seq<seq<Byte>>): seq<Byte>
  {
    if bufs == [] then [] else Flatten(bufs[..|bufs| - 1]) + bufs[|bufs| - 1]
  }

  lemma {:induction false} FlattenLength(bufs: seq<seq<Byte>>)
    ensures |Flatten(bufs)| == TotalLength(bufs)
  {
    if bufs != [] {
      FlattenLength(bufs[..|bufs| - 1]);
    }
  }

  lemma {:induction false} FlattenPrefix(bufs: seq<seq<Byte>>, k: nat)
    requires k <= |bufs|
    ensures |Flatten(bufs[..k])| <= |Flatten(bufs)|
    ensures Flatten(bufs[..k]) == Flatten(bufs)[..|Flatten(bufs[..k])|]
    decreases |bufs| - k
  {
    if k < |bufs| {
      FlattenPrefix(bufs, k + 1);
      assert bufs[..k + 1][..k] == bufs[..k];
    } else {
      assert bufs[..k] == bufs;
    }
  }

  /** Buffer `k` sits in the combined buffer at the sum of the lengths before it. */
  lemma ChunkAtOffset(bufs: seq<seq<Byte>>, k: nat, j: nat)
    requires k < |bufs| && j < |bufs[k]|
    ensures TotalLength(bufs[..k]) + j < |Flatten(bufs)|
    ensures Flatten(bufs)[TotalLength(bufs[..k]) + j] == bufs[k][j]
  {
    FlattenPrefix(bufs, k + 1);
    FlattenLength(bufs[..k]);
    assert bufs[..k + 1][..k] == bufs[..k];
  }

  /** `combined.set(buf, offset)`: the buffer lands at the offset and
      everything before it stays. */
  method CopyAt(out: array<Byte>, offset: nat, buf: seq<Byte>)
    requires offset + |buf| <= out.Length
    modifies out
    ensures out[..offset] == old(out[..offset])
    ensures out[offset..offset + |buf|] == buf
    ensures out[offset + |buf|..] == old(out[offset + |buf|..])
  {
    var j := 0;
    while j < |buf|
      invariant j <= |buf|
      invariant out[..offset] == old(out[..offset])
      invariant out[offset + j..] == old(out[offset + j..])
      invariant out[offset..offset + j] == buf[..j]
    {
      out[offset + j] := buf[j];
      j := j + 1;
      assert out[offset..offset + j] == out[offset..offset + j - 1] + [buf[j - 1]];
    }
  }

  /** The length loop: the sum of the buffer lengths. */
  method TotalOf(bufs: seq<seq<Byte>>) returns (total: nat)
    ensures total == |Flatten(bufs)|
  {
    total := 0;
    var n := 0;
    while n < |bufs|
      invariant n <= |bufs| && total == TotalLength(bufs[..n])
    {
      assert bufs[..n + 1][..n] == bufs[..n];
      total := total + |bufs[n]|;
      n := n + 1;
    }
    assert bufs[..|bufs|] == bufs;
    FlattenLength(bufs);
  }

  /** The combining loop: one array of the total length, each buffer copied
      at the running offset. */
  method CombineBuffers(bufs: seq<seq<Byte>>) returns (combined: seq<Byte>)
    ensures combined == Flatten(bufs)
  {
    var total := TotalOf(bufs);
    var out := new Byte[total];
    var offset := 0;
    var k := 0;
    while k < |bufs|
      invariant k <= |bufs| && out.Length == |Flatten(bufs)|
      invariant offset == |Flatten(bufs[..k])| <= out.Length
      invariant out[..offset] == Flatten(bufs[..k])
    {
      FlattenPrefix(bufs, k + 1);
      assert bufs[..k + 1][..k] == bufs[..k];
      var buf := bufs[k];
      assert Flatten(bufs[..k + 1]) == Flatten(bufs[..k]) + buf;
      CopyAt(out, offset, buf);
      assert out[..offset + |buf|] == out[..offset] + out[offset..offset + |buf|];
      offset := offset + |buf|;
      k := k + 1;
    }
    assert bufs[..k] == bufs;
    combined := out[..];
  }

  // ---------------------------------------------------------------------------
  // POST: validation, one request per chunk, error mapping
  // ---------------------------------------------------------------------------

  /** The request body after `req.json()`; `Unreadable` when that throws. */
  datatype TtsRequest = Unreadable | Body(text: Option<string>, voice: Option<string>)

  /** The synthesis endpoint's answer to one chunk. */
  datatype Upstream = Audio(bytes: seq<Byte>) | NotOk(status: int) | NetworkFailure

  datatype TtsError = TextRequired | RequestFailed(status: int) | Thrown

  datatype TtsResponse = AudioMpeg(body: seq<Byte>) | JsonError(status: int, error: TtsError)

  /** The error the route reports for a failed chunk request. */
  function FailureError(u: Upstream): TtsError
  {
    if u.NotOk? then RequestFailed(u.status) else Thrown
  }

  /** The audio bodies of replies that are all `Audio`. */
  function Bodies(replies: seq<Upstream>): (r: seq<seq<Byte>>)
    requires forall k :: 0 <= k < |replies| ==> replies[k].Audio?
    ensures |r| == |replies| && forall k :: 0 <= k < |r| ==> r[k] == replies[k].bytes
  {
    if replies == [] then [] else Bodies(replies[..|replies| - 1]) + [replies[|replies| - 1].bytes]
  }

  function Replies(chunks: seq<string>, fetch: string -> Upstream): (r: seq<Upstream>)
    ensures |r| == |chunks| && forall k :: 0 <= k < |r| ==> r[k] == fetch(chunks[k])
  {
    if chunks == [] then [] else Replies(chunks[..|chunks| - 1], fetch) + [fetch(chunks[|chunks| - 1])]
  }

  /** One more audio reply appends its body. */
  lemma BodiesStep(chunks: seq<string>, i: nat, fetch: string -> Upstream)
    requires i < |chunks| && forall k :: 0 <= k <= i ==> fetch(chunks[k]).Audio?
    ensures Bodies(Replies(chunks[..i + 1], fetch)) == Bodies(Replies(chunks[..i], fetch)) + [fetch(chunks[i]).bytes]
  {
    assert chunks[..i + 1][..i] == chunks[..i];
    assert Replies(chunks[..i + 1], fetch) == Replies(chunks[..i], fetch) + [fetch(chunks[i])];
  }

  /** A reply that is not audio after `i` audio replies ends the requests
      with `i + 1` chunks sent. */
  lemma FetchStopsAt(chunks: seq<string>, fetch: string -> Upstream, i: nat)
    requires i < |chunks| && !fetch(chunks[i]).Audio?
    requires forall k :: 0 <= k < i ==> fetch(chunks[k]).Audio?
    ensures var requested := chunks[..i + 1];
      && requested != [] && requested[|requested| - 1] == chunks[i]
      && (forall k :: 0 <= k < |requested| - 1 ==> fetch(requested[k]).Audio?)
      && !(forall k :: 0 <= k < |chunks| ==> fetch(chunks[k]).Audio?)
  {
  }

  /** The request loop: one synthesis request per chunk, in order, stopping
      at the first reply that is not audio (the route throws there). */
  method FetchChunks(chunks: seq<string>, fetch: string -> Upstream)
    returns (buffers: seq<seq<Byte>>, requested: seq<string>, failure: Option<Upstream>)
    ensures |requested| <= |chunks| && requested == chunks[..|requested|]
    ensures forall k :: 0 <= k < |requested| - 1 ==> fetch(requested[k]).Audio?
    ensures failure.None? <==> forall k :: 0 <= k < |chunks| ==> fetch(chunks[k]).Audio?
    ensures failure.None? ==> requested == chunks && buffers == Bodies(Replies(chunks, fetch))
    ensures failure.Some? ==>
      && requested != [] && failure.value == fetch(requested[|requested| - 1])
      && !failure.value.Audio?
  {
    buffers, requested := [], [];
    var i := 0;
    while i < |chunks|
      invariant i <= |chunks| && requested == chunks[..i]
      invariant forall k :: 0 <= k < i ==> fetch(chunks[k]).Audio?
      invariant buffers == Bodies(Replies(chunks[..i], fetch))
    {
      var reply := fetch(chunks[i]);
      requested := requested + [chunks[i]];
      assert requested == chunks[..i + 1];
      if !reply.Audio? {
        FetchStopsAt(chunks, fetch, i);
        return buffers, requested, Some(reply);
      }
      BodiesStep(chunks, i, fetch);
      buffers := buffers + [reply.bytes];
      i := i + 1;
    }
    assert chunks[..i] == chunks;
    failure := None;
  }

  /** `POST /api/tts`; `fetch` stands for the synthesis endpoint, and
      `requested` lists the chunks sent to it, in order. */
  method Post(req: TtsRequest, fetch: string -> Upstream)
    returns (resp: TtsResponse, requested: seq<string>)
    ensures req.Unreadable? ==> resp == JsonError(500, Thrown) && requested == []
    ensures req.Body? && !Truthy(req.text) ==> resp == JsonError(400, TextRequired) && requested == []
    ensures req.Body? && Truthy(req.text) ==>
      var chunks := SplitChunks(req.text.value, ChunkSize);
      && |requested| <= |chunks| && requested == chunks[..|requested|]
      && (forall k :: 0 <= k < |requested| - 1 ==> fetch(requested[k]).Audio?)
      && (resp.AudioMpeg? <==> forall k :: 0 <= k < |chunks| ==> fetch(chunks[k]).Audio?)
      && (resp.AudioMpeg? ==> requested == chunks && resp.body == Flatten(Bodies(Replies(chunks, fetch))))
      && (resp.JsonError? ==>
            && requested != [] && !fetch(requested[|requested| - 1]).Audio?
            && resp == JsonError(500, FailureError(fetch(requested[|requested| - 1]))))
  {
    if req.Unreadable? {
      return JsonError(500, Thrown), [];
    }
    if !Truthy(req.text) {
      return JsonError(400, TextRequired), [];
    }
    var chunks := SplitText(req.text.value, ChunkSize);
    var buffers, failure;
    buffers, requested, failure := FetchChunks(chunks, fetch);
    if failure.Some? {
      return JsonError(500, FailureError(failure.value)), requested;
    }
    var combined := CombineBuffers(buffers);
    resp := AudioMpeg(combined);
  }
}
