/**
 JSON merge patch: the recursive function of section 2 of RFC 7396, the loop that computes it,
 and what patching can and cannot do to a document.
 */
module MergePatch {
  import opened Prelude

  datatype Json =
    | Null
    | Bool(b: bool)
    | Num(n: int)
    | Str(s: string)
    | Arr(items: seq<Json>)
    | Obj(members: map<string, Json>)

  /** The members of an object; of anything else, none. */
  function Members(j: Json): map<string, Json> {
    if j.Obj? then j.members else map[]
  }

  /** `MergePatch(Target, Patch)` of section 2 of RFC 7396, all members at once. */
  function Merge(target: Json, patch: Json): Json
    decreases patch
  {
    if !patch.Obj? then patch
    else
      var cur := Members(target);
      Obj(map k | k in cur.Keys + patch.members.Keys && (k in patch.members ==> patch.members[k] != Null) ::
            if k in patch.members then Merge(if k in cur then cur[k] else Null, patch.members[k]) else cur[k])
  }

  /** One pass of the loop body for member `k`. */
  function MergeMember(out: map<string, Json>, k: string, v: Json): map<string, Json> {
    if v == Null then out - {k}
    else if v.Obj? then out[k := Merge(if k in out then out[k] else Null, v)]
    else out[k := v]
  }

  /** The patch's members visited in the order `ks`. */
  function MergeInOrder(out: map<string, Json>, patch: map<string, Json>, ks: seq<string>): map<string, Json>
    requires forall k :: k in ks ==> k in patch
    decreases |ks|
  {
    if ks == [] then out
    else
      var last := ks[|ks| - 1];
      MergeMember(MergeInOrder(out, patch, ks[..|ks| - 1]), last, patch[last])
  }

  predicate Lists(ks: seq<string>, keys: set<string>) {
    && (forall i, j :: 0 <= i < j < |ks| ==> ks[i] != ks[j])
    && (set k | k in ks) == keys
  }

  /** What the loop has done after visiting distinct members `ks`: those, and only those, are merged. */
  lemma {:induction false} MergeInOrderMembers(cur: map<string, Json>, patch: map<string, Json>, ks: seq<string>)
    requires forall i, j :: 0 <= i < j < |ks| ==> ks[i] != ks[j]
    requires forall k :: k in ks ==> k in patch
    ensures var out := MergeInOrder(cur, patch, ks);
            forall k ::
              (k in out <==> if k in ks then patch[k] != Null else k in cur)
              && (k in out ==>
                    out[k] == if k in ks then Merge(if k in cur then cur[k] else Null, patch[k]) else cur[k])
    decreases |ks|
  {
    if ks != [] {
      var init, last := ks[..|ks| - 1], ks[|ks| - 1];
      assert ks == init + [last];
      assert last !in init;
      MergeInOrderMembers(cur, patch, init);
    }
  }

  /** The result does not depend on the order in which the patch's members are visited. */
  lemma {:induction false} OrderIrrelevant(cur: map<string, Json>, patch: map<string, Json>, ks: seq<string>)
    requires Lists(ks, patch.Keys)
    ensures (forall k :: k in ks ==> k in patch.Keys)
    ensures Obj(MergeInOrder(cur, patch, ks)) == Merge(Obj(cur), Obj(patch))
  {
    assert forall k :: k in ks <==> k in (set x | x in ks);
    MergeInOrderMembers(cur, patch, ks);
    var out := MergeInOrder(cur, patch, ks);
    var merged := Merge(Obj(cur), Obj(patch)).members;
    assert forall k :: k in out <==> k in merged;
    assert out == merged;
  }

  lemma {:induction false} MergeInOrderNext(out: map<string, Json>, patch: map<string, Json>, ks: seq<string>, k: string)
    requires k in patch && forall x :: x in ks ==> x in patch
    ensures MergeInOrder(out, patch, ks + [k]) == MergeMember(MergeInOrder(out, patch, ks), k, patch[k])
  {
    assert (ks + [k])[..|ks|] == ks;
  }

  /** The service's function: a recursive call per object member, edits on a local copy. */
  method JsonMergePatch(original: Json, patch: Json) returns (result: Json)
    ensures result == Merge(original, patch)
    decreases patch
  {
    if !patch.Obj? {
      return patch;
    }
    var base := if original.Obj? then original.members else map[];
    var out := base;
    var rest := patch.members.Keys;
    ghost var ks: seq<string> := [];
    while rest != {}
      invariant rest <= patch.members.Keys
      invariant forall i, j :: 0 <= i < j < |ks| ==> ks[i] != ks[j]
      invariant forall k :: k in ks <==> k in patch.members.Keys - rest
      invariant out == MergeInOrder(base, patch.members, ks)
    {
      var k :| k in rest;
      var v := patch.members[k];
      MergeInOrderNext(base, patch.members, ks, k);
      assert forall i :: 0 <= i < |ks| ==> ks[i] in ks && ks[i] != k;
      if v == Null {
        out := out - {k};
      } else if v.Obj? {
        var merged := JsonMergePatch(if k in out then out[k] else Null, v);
        out := out[k := merged];
      } else {
        out := out[k := v];
      }
      ks := ks + [k];
      rest := rest - {k};
    }
    assert Lists(ks, patch.members.Keys);
    OrderIrrelevant(base, patch.members, ks);
    assert Merge(original, patch) == Merge(Obj(base), patch);
    return Obj(out);
  }

  // ---------------------------------------------------------------- laws

  lemma {:induction false} MergeEqual(a: Json, b: Json)
    requires a.Obj? && b.Obj? && a.members.Keys == b.members.Keys
    requires forall k :: k in a.members ==> a.members[k] == b.members[k]
    ensures a == b
  {
    assert a.members == b.members;
  }

  /** Applying a patch twice is applying it once. */
  lemma {:induction false} Idempotent(target: Json, patch: Json)
    ensures Merge(Merge(target, patch), patch) == Merge(target, patch)
    decreases patch
  {
    if patch.Obj? {
      var once := Merge(target, patch);
      var cur := Members(target);
      forall k | k in patch.members && patch.members[k] != Null
        ensures Merge(once.members[k], patch.members[k]) == once.members[k]
      {
        Idempotent(if k in cur then cur[k] else Null, patch.members[k]);
      }
      MergeEqual(Merge(once, patch), once);
    }
  }

  function MemberAt(j: Json, k: string): Option<Json> {
    if j.Obj? && k in j.members then Some(j.members[k]) else None
  }

  /**
   Member by member: what the patch does not name stays, what it gives null is gone, a scalar or array replaces
   what was there, and an object patches it.
   */
  ghost predicate Patched(before: Json, patch: Json, after: Json)
    requires patch.Obj?
    decreases patch
  {
    && after.Obj?
    && (forall k :: k !in patch.members ==> MemberAt(after, k) == MemberAt(before, k))
    && (forall k :: k in patch.members && patch.members[k] == Null ==> k !in after.members)
    && (forall k :: k in patch.members && patch.members[k] != Null && !patch.members[k].Obj? ==>
          MemberAt(after, k) == Some(patch.members[k]))
    && (forall k :: k in patch.members && patch.members[k].Obj? ==>
          k in after.members
          && Patched(if MemberAt(before, k).Some? then MemberAt(before, k).value else Null, patch.members[k], after.members[k]))
  }

  /** Merging does what a patch says, at every depth. */
  lemma {:induction false} MergePatches(target: Json, patch: Json)
    requires patch.Obj?
    ensures Patched(target, patch, Merge(target, patch))
    decreases patch
  {
    var after := Merge(target, patch);
    forall k | k in patch.members && patch.members[k].Obj?
      ensures k in after.members
      ensures Patched(if MemberAt(target, k).Some? then MemberAt(target, k).value else Null, patch.members[k], after.members[k])
    {
      MergePatches(if MemberAt(target, k).Some? then MemberAt(target, k).value else Null, patch.members[k]);
    }
  }

  /** No member of the document, or of an object in it, is null. Arrays are opaque to a patch. */
  predicate NullFree(j: Json) {
    j.Obj? ==> forall k :: k in j.members ==> j.members[k] != Null && NullFree(j.members[k])
  }

  /** An object patch brings no null members into a document that has none. */
  lemma {:induction false} StaysNullFree(target: Json, patch: Json)
    requires NullFree(target) && patch.Obj?
    ensures Merge(target, patch).Obj? && NullFree(Merge(target, patch))
    decreases patch
  {
    var cur := Members(target);
    forall k | k in patch.members && patch.members[k] != Null
      ensures Merge(if k in cur then cur[k] else Null, patch.members[k]) != Null
      ensures NullFree(Merge(if k in cur then cur[k] else Null, patch.members[k]))
    {
      if patch.members[k].Obj? {
        StaysNullFree(if k in cur then cur[k] else Null, patch.members[k]);
      }
    }
  }

  /** The patch that turns `target` into the object `wanted`. */
  function Diff(target: Json, wanted: Json): Json
    requires wanted.Obj?
    decreases wanted
  {
    var cur := Members(target);
    Obj(map k | k in cur.Keys + wanted.members.Keys ::
          if k !in wanted.members then Null
          else if wanted.members[k].Obj? then Diff(if k in cur then cur[k] else Null, wanted.members[k])
          else wanted.members[k])
  }

  /** Every null-free object can be reached from every document by one patch. */
  lemma {:induction false} DiffReaches(target: Json, wanted: Json)
    requires wanted.Obj? && NullFree(wanted)
    ensures Merge(target, Diff(target, wanted)) == wanted
    decreases wanted
  {
    var cur := Members(target);
    var patch := Diff(target, wanted);
    forall k | k in wanted.members
      ensures patch.members[k] != Null
      ensures Merge(if k in cur then cur[k] else Null, patch.members[k]) == wanted.members[k]
    {
      if wanted.members[k].Obj? {
        DiffReaches(if k in cur then cur[k] else Null, wanted.members[k]);
      }
    }
    MergeEqual(Merge(target, patch), wanted);
  }

  /** From a null-free document, object patches reach exactly the null-free objects. */
  lemma {:induction false} ReachableByPatch(target: Json, wanted: Json)
    requires NullFree(target)
    ensures (exists patch: Json :: patch.Obj? && Merge(target, patch) == wanted) <==> wanted.Obj? && NullFree(wanted)
  {
    if wanted.Obj? && NullFree(wanted) {
      DiffReaches(target, wanted);
      assert Diff(target, wanted).Obj?;
    }
    forall patch: Json | patch.Obj? && Merge(target, patch) == wanted
      ensures wanted.Obj? && NullFree(wanted)
    {
      StaysNullFree(target, patch);
    }
  }
}
