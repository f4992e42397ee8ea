/**
 The reducer of the agents' artifact index: an upsert by key that never goes back a version.
 Folding it over parallel updates is joining them.
 */
module ArtifactIndex {
  import opened Prelude

  datatype Ref = Ref(id: nat, key: string, version: int, kind: string, storage: string)

  type Index = map<string, Ref>

  /** Entries are filed under their own key. */
  predicate WellKeyed(index: Index) {
    forall k :: k in index ==> index[k].key == k
  }

  function Upserted(index: Index, ref: Ref): Index {
    if ref.key !in index || ref.version >= index[ref.key].version then index[ref.key := ref] else index
  }

  function Reduced(index: Index, refs: seq<Ref>): Index
    decreases |refs|
  {
    if refs == [] then index else Upserted(Reduced(index, refs[..|refs| - 1]), refs[|refs| - 1])
  }

  /** The reducer. An update that was a dictionary comes as the list of its values. */
  method ArtifactIndexReducer(current: Option<Index>, update: Option<seq<Ref>>) returns (result: Index)
    ensures result == Reduced(if current.Some? then current.value else map[], if update.Some? then update.value else [])
  {
    result := if current.Some? then current.value else map[];
    if update.None? {
      return;
    }
    var items := update.value;
    var n := 0;
    ghost var start := result;
    while n < |items|
      invariant n <= |items|
      invariant result == Reduced(start, items[..n])
    {
      var ref := items[n];
      assert items[..n + 1][..n] == items[..n];
      if ref.key !in result || ref.version >= result[ref.key].version {
        result := result[ref.key := ref];
      }
      n := n + 1;
    }
    assert items[..n] == items;
  }

  // ---------------------------------------------------------------- folding a stream of updates

  /** Position `i` holds the newest ref of its key: none is of a higher version, none later of the same. */
  predicate IsNewest(refs: seq<Ref>, i: nat) {
    && i < |refs|
    && forall j :: 0 <= j < |refs| && refs[j].key == refs[i].key ==>
         refs[j].version <= refs[i].version && (j > i ==> refs[j].version < refs[i].version)
  }

  /** From an empty index, a key is present when some ref has it, and then holds its newest ref. */
  lemma {:induction false} ReducedKeepsNewest(refs: seq<Ref>, k: string)
    ensures k in Reduced(map[], refs) <==> exists i :: 0 <= i < |refs| && refs[i].key == k
    ensures k in Reduced(map[], refs) ==>
              exists i :: 0 <= i < |refs| && refs[i].key == k && IsNewest(refs, i) && Reduced(map[], refs)[k] == refs[i]
    decreases |refs|
  {
    if refs != [] {
      var n := |refs| - 1;
      var init := refs[..n];
      ReducedKeepsNewest(init, k);
      var before := Reduced(map[], init);
      if refs[n].key != k {
        if k in before {
          var i :| 0 <= i < |init| && init[i].key == k && IsNewest(init, i) && before[k] == init[i];
          assert refs[i].key == k && IsNewest(refs, i);
        }
      } else if k !in before {
        assert forall j :: 0 <= j < n ==> refs[j] == init[j];
        assert IsNewest(refs, n);
      } else {
        var i :| 0 <= i < |init| && init[i].key == k && IsNewest(init, i) && before[k] == init[i];
        assert forall j :: 0 <= j < n ==> refs[j] == init[j];
        if refs[n].version >= before[k].version {
          assert IsNewest(refs, n);
        } else {
          assert IsNewest(refs, i);
        }
      }
    }
  }

  lemma {:induction false} ReducedAppend(index: Index, a: seq<Ref>, b: seq<Ref>)
    ensures Reduced(index, a + b) == Reduced(Reduced(index, a), b)
    decreases |b|
  {
    if b == [] {
      assert a + b == a;
    } else {
      var n := |b| - 1;
      ReducedAppend(index, a, b[..n]);
      assert (a + b)[..|a + b| - 1] == a + b[..n];
    }
  }

  function FoldUpdates(updates: seq<seq<Ref>>): Index
    decreases |updates|
  {
    if updates == [] then map[] else Reduced(FoldUpdates(updates[..|updates| - 1]), updates[|updates| - 1])
  }

  function Flatten(updates: seq<seq<Ref>>): seq<Ref>
    decreases |updates|
  {
    if updates == [] then [] else Flatten(updates[..|updates| - 1]) + updates[|updates| - 1]
  }

  /** Folding the reducer over any updates is one reduction of everything they ever contained. */
  lemma {:induction false} FoldIsReduction(updates: seq<seq<Ref>>)
    ensures FoldUpdates(updates) == Reduced(map[], Flatten(updates))
    decreases |updates|
  {
    if updates != [] {
      var n := |updates| - 1;
      FoldIsReduction(updates[..n]);
      ReducedAppend(map[], Flatten(updates[..n]), updates[n]);
    }
  }

  /** So after any sequence of updates every key holds the newest ref ever seen for it. */
  lemma {:induction false} FoldKeepsNewest(updates: seq<seq<Ref>>, k: string)
    ensures k in FoldUpdates(updates) <==> exists i :: 0 <= i < |Flatten(updates)| && Flatten(updates)[i].key == k
    ensures k in FoldUpdates(updates) ==>
              exists i :: 0 <= i < |Flatten(updates)| && Flatten(updates)[i].key == k
                          && IsNewest(Flatten(updates), i) && FoldUpdates(updates)[k] == Flatten(updates)[i]
  {
    FoldIsReduction(updates);
    ReducedKeepsNewest(Flatten(updates), k);
  }

  // ---------------------------------------------------------------- the join of two indexes

  function Join(a: Index, b: Index): Index {
    map k | k in a.Keys + b.Keys ::
      if k !in b then a[k]
      else if k !in a || b[k].version >= a[k].version then b[k]
      else a[k]
  }

  predicate ListsValues(refs: seq<Ref>, index: Index) {
    && (forall i :: 0 <= i < |refs| ==> refs[i].key in index && index[refs[i].key] == refs[i])
    && (forall i, j :: 0 <= i < j < |refs| ==> refs[i].key != refs[j].key)
    && (forall k :: k in index ==> exists i :: 0 <= i < |refs| && refs[i].key == k)
  }

  /** What reducing distinct refs does to each key. */
  lemma {:induction false} ReducedDistinct(a: Index, refs: seq<Ref>, k: string)
    requires forall i, j :: 0 <= i < j < |refs| ==> refs[i].key != refs[j].key
    ensures var r := Reduced(a, refs);
            && ((forall i :: 0 <= i < |refs| ==> refs[i].key != k) ==> (k in r <==> k in a) && (k in r ==> r[k] == a[k]))
            && (forall i :: 0 <= i < |refs| && refs[i].key == k ==>
                  k in r && r[k] == if k !in a || refs[i].version >= a[k].version then refs[i] else a[k])
    decreases |refs|
  {
    if refs != [] {
      ReducedDistinct(a, refs[..|refs| - 1], k);
      assert forall i :: 0 <= i < |refs| - 1 ==> refs[i] == refs[..|refs| - 1][i];
    }
  }

  /** Reducing with the values of a dictionary, in whatever order they come, is joining with it. */
  lemma {:induction false} ReducingIsJoining(a: Index, b: Index, refs: seq<Ref>)
    requires WellKeyed(b) && ListsValues(refs, b)
    ensures Reduced(a, refs) == Join(a, b)
  {
    forall k
      ensures k in Reduced(a, refs) <==> k in Join(a, b)
      ensures k in Join(a, b) ==> k in Reduced(a, refs) && Reduced(a, refs)[k] == Join(a, b)[k]
    {
      ReducedDistinct(a, refs, k);
      if k in b {
        var i :| 0 <= i < |refs| && refs[i].key == k;
      } else {
        assert forall i :: 0 <= i < |refs| ==> refs[i].key != k;
      }
    }
    assert Reduced(a, refs).Keys == Join(a, b).Keys;
  }

  lemma {:induction false} JoinAssociative(a: Index, b: Index, c: Index)
    ensures Join(a, Join(b, c)) == Join(Join(a, b), c)
  {
    assert Join(a, Join(b, c)).Keys == Join(Join(a, b), c).Keys;
  }

  lemma {:induction false} JoinIdempotent(a: Index, b: Index)
    ensures Join(a, a) == a && Join(Join(a, b), b) == Join(a, b)
  {
    assert Join(a, a).Keys == a.Keys;
    assert Join(Join(a, b), b).Keys == Join(a, b).Keys;
  }

  /** Joining commutes exactly when a key and a version never name two different refs. */
  lemma {:induction false} JoinCommutes(a: Index, b: Index)
    ensures Join(a, b) == Join(b, a) <==>
              forall k :: k in a && k in b && a[k].version == b[k].version ==> a[k] == b[k]
  {
    if Join(a, b) == Join(b, a) {
      forall k | k in a && k in b && a[k].version == b[k].version ensures a[k] == b[k] {
        assert Join(a, b)[k] == b[k] && Join(b, a)[k] == a[k];
      }
    }
    assert Join(a, b).Keys == Join(b, a).Keys;
  }
}
