/** `GameInfoSys` (src/game_info.rs): the `GameInfo` resource is rebuilt
    from scratch with the health of every blob, in join order. */
module GameInfoSys {
  import opened Components
  import opened Ecs

  /** The join of the blob marker with health: the entities of `es` that
      are blobs and have health, in the order of `es`. */
  function BlobJoin(es: seq<Entity>, blobs: set<Entity>, health: map<Entity, u8>): (r: seq<Entity>)
    ensures forall e :: e in r <==> e in es && e in blobs && e in health
    ensures |r| <= |es|
    ensures Distinct(es) ==> Distinct(r)
    decreases |es|
  {
    if es == [] then []
    else
      var rest := BlobJoin(es[..|es| - 1], blobs, health);
      var e := es[|es| - 1];
      assert forall x :: x in es[..|es| - 1] ==> x in es;
      assert forall x :: x in es ==> x in es[..|es| - 1] || x == e;
      if e in blobs && e in health then rest + [e] else rest
  }

  /** The list the run builds: one entry per joined entity, pushed in join
      order. */
  function BlobHealths(es: seq<Entity>, blobs: set<Entity>, health: map<Entity, u8>): (r: seq<u8>)
    ensures |r| == |BlobJoin(es, blobs, health)|
    ensures forall k :: 0 <= k < |r| ==> r[k] == health[BlobJoin(es, blobs, health)[k]]
    decreases |es|
  {
    if es == [] then []
    else
      var rest := BlobHealths(es[..|es| - 1], blobs, health);
      var e := es[|es| - 1];
      if e in blobs && e in health then rest + [health[e]] else rest
  }

  /** One run: only the list changes. */
  function Step(s: WorldState): (r: WorldState)
    ensures r == s.(blobsHealth := r.blobsHealth)
  {
    s.(blobsHealth := BlobHealths(s.entities, s.blobs, s.health))
  }

  /** The previous list is discarded; the new one holds, entry by entry,
      the health of the blobs with health in join order. */
  lemma ListIsRebuilt(s: WorldState)
    ensures |Step(s).blobsHealth| == |BlobJoin(s.entities, s.blobs, s.health)|
    ensures forall k :: 0 <= k < |Step(s).blobsHealth| ==>
      Step(s).blobsHealth[k] == s.health[BlobJoin(s.entities, s.blobs, s.health)[k]]
  {
  }

  /** The elements of a list, as a set. */
  function Members(xs: seq<Entity>): set<Entity>
  {
    set x | x in xs
  }

  /** A list without repetitions is exactly as long as the set of its
      elements. */
  lemma {:induction false} DistinctCardinality(xs: seq<Entity>)
    requires Distinct(xs)
    ensures |Members(xs)| == |xs|
    decreases |xs|
  {
    if xs != [] {
      var init := xs[..|xs| - 1];
      var last := xs[|xs| - 1];
      assert Distinct(init);
      DistinctCardinality(init);
      var before, after := Members(init), Members(xs);
      assert after == before + {last};
      assert last !in before;
      assert |after| == |before| + 1;
    }
  }

  /** In a well-formed world the list has exactly one entry per entity that
      is a blob and has health, and every entry is the health of such a
      blob. */
  lemma OneEntryPerBlob(s: WorldState)
    requires WellFormed(s)
    ensures |Step(s).blobsHealth| == |set e | e in s.blobs && e in s.health|
    ensures forall k :: 0 <= k < |Step(s).blobsHealth| ==>
      Step(s).blobsHealth[k] in set e | e in s.blobs && e in s.health :: s.health[e]
  {
    ListIsRebuilt(s);
    var join := BlobJoin(s.entities, s.blobs, s.health);
    DistinctCardinality(join);
    assert Members(join) == (set e | e in s.blobs && e in s.health);
    forall k | 0 <= k < |Step(s).blobsHealth|
      ensures Step(s).blobsHealth[k] in set e | e in s.blobs && e in s.health :: s.health[e]
    {
      assert join[k] in join;
    }
  }

  /** A world with no blobs ends the run with an empty list, whatever it
      held before. */
  lemma NoBlobsNoEntries(s: WorldState)
    requires s.blobs == {}
    ensures Step(s).blobsHealth == []
  {
    NoBlobsEmptyJoin(s.entities, s.health);
  }

  /** With no blob marker the join visits nothing. */
  lemma {:induction false} NoBlobsEmptyJoin(es: seq<Entity>, health: map<Entity, u8>)
    ensures BlobJoin(es, {}, health) == []
    decreases |es|
  {
    if es != [] {
      NoBlobsEmptyJoin(es[..|es| - 1], health);
    }
  }

  /** `GameInfoSys::run`. */
  method Run(w: World)
    requires w.Valid()
    modifies w`blobsHealth
    ensures w.Valid()
    ensures w.View() == Step(old(w.View()))
  {
    ghost var s := w.View();
    var gi := CollectHealths(w.entities, w.blobs, w.health);
    w.blobsHealth := gi;
    assert w.View() == s.(blobsHealth := BlobHealths(s.entities, s.blobs, s.health));
  }

  /** The join loop, pushing each blob's health onto a fresh list. */
  method CollectHealths(entities: seq<Entity>, blobs: set<Entity>, health: map<Entity, u8>)
    returns (gi: seq<u8>)
    ensures gi == BlobHealths(entities, blobs, health)
  {
    gi := [];
    var i := 0;
    while i < |entities|
      invariant 0 <= i <= |entities|
      invariant gi == BlobHealths(entities[..i], blobs, health)
    {
      var e := entities[i];
      if e in blobs && e in health {
        gi := gi + [health[e]];
      }
      i := i + 1;
      assert entities[..i][..i - 1] == entities[..i - 1];
    }
    assert entities[..|entities|] == entities;
  }
}
