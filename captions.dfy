/** The word highlighted while a narration plays: the word cues sorted by
    onset, and the bucket lookup that maps the playback time to the cue
    being spoken (`handleSpeak`'s subtitle sync). */
module Captions {
  import opened Scenes

  /** A cue's onset in milliseconds: its offset in 100-ns ticks divided by
      10000. */
  function Onset(c: Cue): real
  {
    c.audioOffset as real / 10000.0
  }

  /** The cues are in non-decreasing onset order. */
  predicate Sorted(cs: seq<Cue>)
  {
    forall i, j :: 0 <= i < j < |cs| ==> cs[i].audioOffset <= cs[j].audioOffset
  }

  /** Cue `i` is the one spoken at `t` ms: `t` is at or after its onset and
      before the next cue's; the last cue's bucket has no end. */
  predicate InBucket(cs: seq<Cue>, i: nat, t: real)
    requires i < |cs|
  {
    Onset(cs[i]) <= t && (i + 1 < |cs| ==> t < Onset(cs[i + 1]))
  }

  // ---------------------------------------------------------------------------
  // `[...subtitles].sort((a, b) => a.audio_offset - b.audio_offset)`
  // ---------------------------------------------------------------------------

  /** Places `c` after every cue of `s` whose offset is at most its own, so
      cues with equal offsets keep their order. */
  function Insert(s: seq<Cue>, c: Cue): seq<Cue>
  {
    if |s| == 0 then [c]
    else if s[|s| - 1].audioOffset <= c.audioOffset then s + [c]
    else Insert(s[..|s| - 1], c) + [s[|s| - 1]]
  }

  /** The stable sort by offset. */
  function SortByOffset(cs: seq<Cue>): seq<Cue>
  {
    if |cs| == 0 then [] else Insert(SortByOffset(cs[..|cs| - 1]), cs[|cs| - 1])
  }

  lemma {:induction false} InsertPermutes(s: seq<Cue>, c: Cue)
    ensures multiset(Insert(s, c)) == multiset(s) + multiset{c}
  {
    if |s| > 0 && s[|s| - 1].audioOffset > c.audioOffset {
      var init, last := s[..|s| - 1], s[|s| - 1];
      InsertPermutes(init, c);
      assert s == init + [last];
    }
  }

  /** Every cue of `Insert(s, c)` comes from `s` or is `c`. */
  lemma InsertMembers(s: seq<Cue>, c: Cue, k: nat)
    requires k < |Insert(s, c)|
    ensures Insert(s, c)[k] in s || Insert(s, c)[k] == c
  {
    InsertPermutes(s, c);
    assert Insert(s, c)[k] in multiset(Insert(s, c));
  }

  lemma {:induction false} InsertKeepsSorted(s: seq<Cue>, c: Cue)
    requires Sorted(s)
    ensures Sorted(Insert(s, c))
  {
    if |s| > 0 && s[|s| - 1].audioOffset > c.audioOffset {
      var init, last := s[..|s| - 1], s[|s| - 1];
      assert Sorted(init);
      InsertKeepsSorted(init, c);
      var r := Insert(init, c);
      forall k | 0 <= k < |r|
        ensures r[k].audioOffset <= last.audioOffset
      {
        InsertMembers(init, c, k);
      }
      var q := r + [last];
      forall i, j | 0 <= i < j < |q|
        ensures q[i].audioOffset <= q[j].audioOffset
      {
        if j < |r| {
          assert q[i] == r[i] && q[j] == r[j];
        }
      }
    }
  }

  /** Sorting yields the same cues in non-decreasing onset order. */
  lemma {:induction false} SortByOffsetSorts(cs: seq<Cue>)
    ensures Sorted(SortByOffset(cs))
    ensures multiset(SortByOffset(cs)) == multiset(cs)
  {
    if |cs| > 0 {
      var init := cs[..|cs| - 1];
      SortByOffsetSorts(init);
      InsertKeepsSorted(SortByOffset(init), cs[|cs| - 1]);
      InsertPermutes(SortByOffset(init), cs[|cs| - 1]);
      assert cs == init + [cs[|cs| - 1]];
    }
  }

  // ---------------------------------------------------------------------------
  // The bucket lookup
  // ---------------------------------------------------------------------------

  /** `findIndex` over the cues from `i` on: the first cue whose bucket holds
      `t`, or -1. */
  function FindFrom(cs: seq<Cue>, t: real, i: nat): (r: int)
    requires i <= |cs|
    ensures r == -1 || (i <= r < |cs| && InBucket(cs, r, t))
    ensures r == -1 <==> forall k :: i <= k < |cs| ==> !InBucket(cs, k, t)
    ensures r != -1 ==> forall k :: i <= k < r ==> !InBucket(cs, k, t)
    decreases |cs| - i
  {
    if i == |cs| then -1 else if InBucket(cs, i, t) then i else FindFrom(cs, t, i + 1)
  }

  /** The cue spoken at `t` ms, or -1. */
  function FindWord(cs: seq<Cue>, t: real): (r: int)
    ensures r == -1 || (0 <= r < |cs| && InBucket(cs, r, t))
    ensures r == -1 <==> forall k :: 0 <= k < |cs| ==> !InBucket(cs, k, t)
  {
    FindFrom(cs, t, 0)
  }

  lemma OnsetMonotone(cs: seq<Cue>, i: nat, j: nat)
    requires Sorted(cs) && i <= j < |cs|
    ensures Onset(cs[i]) <= Onset(cs[j])
  {
  }

  /** Over sorted cues the bucket of `i` excludes every other cue: an
      earlier cue's bucket ends at or before cue `i`'s onset, a later cue's
      bucket starts at or after cue `i`'s bucket ends. */
  lemma BucketExclusive(cs: seq<Cue>, t: real, i: nat, j: nat)
    requires Sorted(cs) && i < |cs| && j < |cs| && InBucket(cs, i, t)
    ensures j != i ==> !InBucket(cs, j, t)
  {
    if j < i {
      OnsetMonotone(cs, j + 1, i);
    } else if i < j {
      OnsetMonotone(cs, i + 1, j);
    }
  }

  /** Over sorted cues at most one bucket holds a given time. */
  lemma BucketUnique(cs: seq<Cue>, t: real, i: nat, j: nat)
    requires Sorted(cs) && i < |cs| && j < |cs|
    requires InBucket(cs, i, t) && InBucket(cs, j, t)
    ensures i == j
  {
    BucketExclusive(cs, t, i, j);
  }

  /** From a cue whose onset has passed, some cue at or after it holds `t`. */
  lemma {:induction false} BucketAfter(cs: seq<Cue>, t: real, i: nat)
    requires i < |cs| && Onset(cs[i]) <= t
    ensures exists k :: i <= k < |cs| && InBucket(cs, k, t)
    decreases |cs| - i
  {
    if i + 1 < |cs| && Onset(cs[i + 1]) <= t {
      BucketAfter(cs, t, i + 1);
    } else {
      assert InBucket(cs, i, t);
    }
  }

  /** Once the time has reached cue `i`'s bucket, no earlier cue's bucket
      holds a later time. */
  lemma EarlierBucketPassed(cs: seq<Cue>, i: nat, j: nat, t1: real, t2: real)
    requires Sorted(cs) && i < |cs| && j < |cs| && InBucket(cs, i, t1) && t1 <= t2
    ensures j < i ==> !InBucket(cs, j, t2)
  {
    if j < i {
      OnsetMonotone(cs, j + 1, i);
    }
  }

  /** Over sorted cues a word is found exactly when the first onset has
      passed, and it is the one cue whose bucket holds the time. */
  lemma FoundOnceFirstOnsetPassed(cs: seq<Cue>, t: real)
    requires Sorted(cs) && |cs| > 0
    ensures FindWord(cs, t) != -1 <==> Onset(cs[0]) <= t
    ensures forall k :: 0 <= k < |cs| && InBucket(cs, k, t) ==> FindWord(cs, t) == k
  {
    var r := FindWord(cs, t);
    if r != -1 {
      OnsetMonotone(cs, 0, r);
      forall k | 0 <= k < |cs| && InBucket(cs, k, t)
        ensures r == k
      {
        BucketExclusive(cs, t, r, k);
      }
    }
    if Onset(cs[0]) <= t {
      BucketAfter(cs, t, 0);
    }
  }

  /** Over sorted cues the highlighted word never moves back as the time
      advances. */
  lemma FindWordMonotone(cs: seq<Cue>, t1: real, t2: real)
    requires Sorted(cs) && t1 <= t2
    requires FindWord(cs, t1) != -1
    ensures FindWord(cs, t2) != -1 && FindWord(cs, t1) <= FindWord(cs, t2)
  {
    var r1 := FindWord(cs, t1);
    OnsetMonotone(cs, 0, r1);
    FoundOnceFirstOnsetPassed(cs, t2);
    var r2 := FindWord(cs, t2);
    EarlierBucketPassed(cs, r1, r2, t1, t2);
  }

  /** `if (idx !== -1) setCurrentWordIndex(idx)`. */
  function NextWordIndex(prev: int, cs: seq<Cue>, t: real): int
  {
    var idx := FindWord(cs, t);
    if idx != -1 then idx else prev
  }

  /** At or past the last onset the lookup gives the last cue. */
  lemma LastCueAfterLastOnset(prev: int, cs: seq<Cue>, t: real)
    requires Sorted(cs) && |cs| > 0 && Onset(cs[|cs| - 1]) <= t
    ensures NextWordIndex(prev, cs, t) == |cs| - 1
  {
    assert InBucket(cs, |cs| - 1, t);
    var r := FindWord(cs, t);
    BucketUnique(cs, t, r, |cs| - 1);
  }

  /** Before the first onset the highlighted word stays what it was; after
      it, it is the cue whose bucket holds the time. */
  lemma WordIndexFollowsTime(prev: int, cs: seq<Cue>, t: real)
    requires Sorted(cs) && |cs| > 0
    ensures t < Onset(cs[0]) ==> NextWordIndex(prev, cs, t) == prev
    ensures Onset(cs[0]) <= t ==>
      0 <= NextWordIndex(prev, cs, t) < |cs| && InBucket(cs, NextWordIndex(prev, cs, t), t)
  {
    FoundOnceFirstOnsetPassed(cs, t);
  }
}
