/** The production held in the client's state and the two updates made to
    it while a production is generated: the index-scoped patch
    (`updateScene`) and the publication of the scene list collected so far.
    A slot of the scene array is `None` for a hole, which a write past the
    end of a JavaScript array leaves behind. */
module ProductionStore {
  import opened Common
  import opened Scenes

  datatype Production = Production(title: Option<string>, aspectRatio: Option<string>, scenes: seq<Option<Fields>>)

  /** `n` holes. */
  function Holes(n: nat): (r: seq<Option<Fields>>)
    ensures |r| == n && forall k :: 0 <= k < n ==> r[k].None?
  {
    seq(n, _ => None)
  }

  /** `{ ...ns[i] }` before the patch: a hole or a slot past the end spreads
      as `{}`. */
  function SlotAt(ns: seq<Option<Fields>>, i: nat): Fields
  {
    if i < |ns| && ns[i].Some? then ns[i].value else Empty
  }

  /** The updater `updateScene` passes to `setProduction`: no production
      stays none; otherwise slot `i` becomes `{ ...ns[i], ...updates }`. */
  function UpdateScene(prev: Option<Production>, i: nat, updates: Fields): Option<Production>
  {
    if prev.None? then None
    else
      var ns := prev.value.scenes;
      var slot := Some(Merge(SlotAt(ns, i), updates));
      Some(prev.value.(scenes := if i < |ns| then ns[i := slot] else ns + Holes(i - |ns|) + [slot]))
  }

  /** `updateScene` is a no-op without a production; otherwise it merges the
      patch into slot `i` only. Inside the array the length and every other
      slot are kept; past the end the array grows to `i + 1` with holes. */
  lemma UpdateOnlyTouchesIndex(prev: Option<Production>, i: nat, updates: Fields)
    ensures prev.None? ==> UpdateScene(prev, i, updates).None?
    ensures prev.Some? ==>
      var ns := prev.value.scenes;
      var r := UpdateScene(prev, i, updates);
      && r.Some? && r.value.title == prev.value.title && r.value.aspectRatio == prev.value.aspectRatio
      && |r.value.scenes| == (if i < |ns| then |ns| else i + 1)
      && r.value.scenes[i] == Some(Merge(SlotAt(ns, i), updates))
      && (forall j :: 0 <= j < |ns| && j != i ==> r.value.scenes[j] == ns[j])
      && (forall j :: |ns| <= j < i ==> r.value.scenes[j].None?)
  {
  }

  /** Two patches to one scene land as one merged patch. */
  lemma PatchesToOneSceneCompose(prev: Option<Production>, i: nat, u: Fields, v: Fields)
    ensures UpdateScene(UpdateScene(prev, i, u), i, v) == UpdateScene(prev, i, Merge(u, v))
  {
    if prev.Some? {
      var ns := prev.value.scenes;
      MergeAssociative(SlotAt(ns, i), u, v);
      var mid := UpdateScene(prev, i, u).value.scenes;
      assert SlotAt(mid, i) == Merge(SlotAt(ns, i), u);
      var slot := Some(Merge(SlotAt(ns, i), Merge(u, v)));
      if i >= |ns| {
        var h := Holes(i - |ns|);
        assert (ns + h + [Some(Merge(SlotAt(ns, i), u))])[i := slot] == ns + h + [slot];
        assert UpdateScene(UpdateScene(prev, i, u), i, v).value.scenes == ns + h + [slot];
        assert UpdateScene(prev, i, Merge(u, v)).value.scenes == ns + h + [slot];
      } else {
        assert ns[i := Some(Merge(SlotAt(ns, i), u))][i := slot] == ns[i := slot];
      }
    }
  }

  /** Patches to different scenes commute, so the order in which the
      asynchronous scene jobs finish does not matter, also when a job's
      index lies past the end of the published array. */
  lemma PatchesToDistinctScenesCommute(prev: Option<Production>, i: nat, j: nat, u: Fields, v: Fields)
    requires i != j
    ensures UpdateScene(UpdateScene(prev, i, u), j, v) == UpdateScene(UpdateScene(prev, j, v), i, u)
  {
    if prev.Some? {
      var ns := prev.value.scenes;
      var p1, p2 := UpdateScene(prev, i, u), UpdateScene(prev, j, v);
      UpdateOnlyTouchesIndex(prev, i, u);
      UpdateOnlyTouchesIndex(prev, j, v);
      UpdateOnlyTouchesIndex(p1, j, v);
      UpdateOnlyTouchesIndex(p2, i, u);
      assert SlotAt(p1.value.scenes, j) == SlotAt(ns, j);
      assert SlotAt(p2.value.scenes, i) == SlotAt(ns, i);
      var a := UpdateScene(p1, j, v).value.scenes;
      var b := UpdateScene(p2, i, u).value.scenes;
      assert |a| == |b|;
      forall k | 0 <= k < |a|
        ensures a[k] == b[k]
      {
      }
      assert a == b;
    }
  }

  /** `setProduction(prev => ({ ...prev!, scenes: [...currentScenes] }))`. */
  function Publish(prev: Option<Production>, current: seq<Fields>): (r: Production)
    ensures |r.scenes| == |current| && forall k :: 0 <= k < |current| ==> r.scenes[k] == Some(current[k])
    ensures prev.Some? ==> r.title == prev.value.title && r.aspectRatio == prev.value.aspectRatio
    ensures prev.None? ==> r.title.None? && r.aspectRatio.None?
  {
    var ns := seq(|current|, k requires 0 <= k < |current| => Some(current[k]));
    if prev.Some? then prev.value.(scenes := ns) else Production(None, None, ns)
  }

  /** Publishing the collected list replaces the whole array, so a patch
      that landed before the publication is lost. */
  lemma PublishDiscardsPatches(prev: Option<Production>, i: nat, updates: Fields, current: seq<Fields>)
    ensures Publish(UpdateScene(prev, i, updates), current) == Publish(prev, current)
  {
  }
}
