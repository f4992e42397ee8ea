/** Which owners a dispatch pass serves: the query's order alone decides, so an owner can be kept waiting by others. */
module Fairness {
  import opened Prelude
  import opened Jobs

  predicate ReadyOf(rows: Rows, id: JobId, owner: string) {
    id in rows && rows[id].state == Ready && rows[id].owner == owner
  }

  /** The pass takes some row of the owner. */
  predicate Serves(rows: Rows, picked: seq<JobId>, owner: string) {
    exists i :: 0 <= i < |picked| && ReadyOf(rows, picked[i], owner)
  }

  predicate HasReady(rows: Rows, owner: string) {
    exists id :: id in rows && ReadyOf(rows, id, owner)
  }

  function OwnRows(rows: Rows, owner: string): set<JobId> {
    set id | id in rows && ReadyOf(rows, id, owner)
  }

  /** Ready rows of other owners that come no later than any of the owner's. */
  function Rivals(rows: Rows, owner: string): set<JobId> {
    set id | id in ReadySet(rows) && rows[id].owner != owner && forall own :: own in OwnRows(rows, owner) ==> Before(rows[id], rows[own])
  }

  /** Ready rows of other owners that come earlier than any of the owner's. */
  function StrictRivals(rows: Rows, owner: string): set<JobId> {
    set id | id in ReadySet(rows) && rows[id].owner != owner && forall own :: own in OwnRows(rows, owner) ==> !Before(rows[own], rows[id])
  }

  function Ids(list: seq<JobId>): set<JobId> {
    set id | id in list
  }

  /** Rows of a set in the query's order, once each. */
  predicate Lists(rows: Rows, list: seq<JobId>, ids: set<JobId>) {
    && ids <= rows.Keys && Ids(list) == ids && NoDuplicates(list)
    && forall i, k :: 0 <= i < k < |list| ==> Before(rows[list[i]], rows[list[k]])
  }

  lemma {:induction false} SizeOfList(list: seq<JobId>)
    requires NoDuplicates(list)
    ensures |Ids(list)| == |list|
  {
    if list != [] {
      var n := |list| - 1;
      SizeOfList(list[..n]);
      assert list == list[..n] + [list[n]];
      assert Ids(list) == Ids(list[..n]) + {list[n]};
    }
  }

  /** Every set of rows can be listed in the query's order. */
  lemma {:induction false} ListingExists(rows: Rows, ids: set<JobId>) returns (list: seq<JobId>)
    requires ids <= rows.Keys
    ensures Lists(rows, list, ids)
  {
    if ids == {} {
      list := [];
    } else {
      var first := FirstExists(rows, ids);
      var rest := ListingExists(rows, ids - {first});
      assert Lists(rows, [first], {first});
      ListsAppend(rows, [first], {first}, rest, ids - {first});
      assert {first} + (ids - {first}) == ids;
      list := [first] + rest;
    }
  }

  /** Two listed sets, the first before the second, make one listing. */
  lemma {:induction false} ListsAppend(rows: Rows, a: seq<JobId>, early: set<JobId>, b: seq<JobId>, late: set<JobId>)
    requires Lists(rows, a, early) && Lists(rows, b, late) && early !! late
    requires forall x, y :: x in early && y in late ==> Before(rows[x], rows[y])
    ensures Lists(rows, a + b, early + late)
  {
    assert forall i :: 0 <= i < |a| ==> a[i] in early;
    assert forall i :: 0 <= i < |b| ==> b[i] in late;
    assert Ids(a + b) == early + late;
  }

  function PickSize(rows: Rows, limit: int): nat {
    if limit <= 0 then 0 else if limit <= |ReadySet(rows)| then limit else |ReadySet(rows)|
  }

  /** The front of a listing of all ready rows is a possible pick. */
  lemma {:induction false} FrontIsPick(rows: Rows, limit: int, list: seq<JobId>)
    requires Lists(rows, list, ReadySet(rows))
    ensures PickSize(rows, limit) <= |list| && IsPick(rows, limit, list[..PickSize(rows, limit)])
  {
    SizeOfList(list);
    var n := PickSize(rows, limit);
    var front := list[..n];
    assert forall i :: 0 <= i < n ==> front[i] in Ids(list);
    forall i, id | 0 <= i < n && id in ReadySet(rows) && id !in front ensures Before(rows[front[i]], rows[id]) {
      assert id in Ids(list);
      var k :| 0 <= k < |list| && list[k] == id;
      assert forall m :: 0 <= m < n ==> front[m] == list[m];
    }
  }

  lemma {:induction false} Total(a: Job, b: Job)
    ensures Before(a, b) || Before(b, a)
  {
  }

  /** A pass that takes none of the owner's rows is full of rivals. */
  lemma {:induction false} UnservedIsFull(rows: Rows, limit: int, picked: seq<JobId>, owner: string)
    requires IsPick(rows, limit, picked) && HasReady(rows, owner) && !Serves(rows, picked, owner)
    ensures limit <= |Rivals(rows, owner)|
  {
    if limit > 0 {
      SizeOfList(picked);
      assert Ids(picked) <= ReadySet(rows);
      var own :| own in rows && ReadyOf(rows, own, owner);
      assert own !in picked;
      assert own in ReadySet(rows) - Ids(picked);
      SubsetSize(Ids(picked), ReadySet(rows), own);
      forall id | id in picked ensures id in Rivals(rows, owner) {
        var i :| 0 <= i < |picked| && picked[i] == id;
        assert !ReadyOf(rows, picked[i], owner);
        forall own | own in OwnRows(rows, owner) ensures Before(rows[id], rows[own]) {
          assert own !in picked;
        }
      }
      assert Ids(picked) <= Rivals(rows, owner);
      SubsetIsSmaller(Ids(picked), Rivals(rows, owner));
    }
  }

  lemma {:induction false} SubsetIsSmaller(a: set<JobId>, b: set<JobId>)
    requires a <= b
    ensures |a| <= |b|
  {
    if a != {} {
      var x :| x in a;
      SubsetIsSmaller(a - {x}, b - {x});
    }
  }

  lemma {:induction false} SubsetSize(a: set<JobId>, b: set<JobId>, x: JobId)
    requires a <= b && x in b && x !in a
    ensures |a| < |b|
  {
    SubsetIsSmaller(a, b - {x});
  }

  /** With enough rivals there is a pass without the owner: rivals first, then all others. */
  lemma {:induction false} UnservedExists(rows: Rows, limit: int, owner: string) returns (picked: seq<JobId>)
    requires HasReady(rows, owner) && limit <= |Rivals(rows, owner)|
    ensures IsPick(rows, limit, picked) && !Serves(rows, picked, owner)
  {
    var rivals := Rivals(rows, owner);
    var others := ReadySet(rows) - rivals;
    var own := BestOwn(rows, owner);
    var front := ListingExists(rows, rivals);
    var back := ListingExists(rows, others);
    forall x, y | x in rivals && y in others ensures Before(rows[x], rows[y]) {
      RivalsComeFirst(rows, owner, own, x, y);
    }
    ListsAppend(rows, front, rivals, back, others);
    assert rivals + others == ReadySet(rows);
    FrontIsPick(rows, limit, front + back);
    SizeOfList(front);
    var n := PickSize(rows, limit);
    picked := (front + back)[..n];
    assert forall i :: 0 <= i < n ==> picked[i] == front[i] && front[i] in Ids(front);
  }

  /** The earliest row of an owner. */
  lemma {:induction false} BestOwn(rows: Rows, owner: string) returns (own: JobId)
    requires HasReady(rows, owner)
    ensures own in OwnRows(rows, owner) && forall other :: other in OwnRows(rows, owner) ==> Before(rows[own], rows[other])
  {
    var some :| some in rows && ReadyOf(rows, some, owner);
    assert some in OwnRows(rows, owner);
    own := FirstExists(rows, OwnRows(rows, owner));
  }

  lemma {:induction false} RivalsComeFirst(rows: Rows, owner: string, own: JobId, x: JobId, y: JobId)
    requires own in OwnRows(rows, owner) && forall other :: other in OwnRows(rows, owner) ==> Before(rows[own], rows[other])
    requires x in Rivals(rows, owner) && y in ReadySet(rows) && y !in Rivals(rows, owner)
    ensures Before(rows[x], rows[y])
  {
    assert Before(rows[x], rows[own]);
    if rows[y].owner == owner {
      assert y in OwnRows(rows, owner);
    } else {
      assert !Before(rows[y], rows[own]);
      Total(rows[y], rows[own]);
    }
  }

  /** Every pass serves an owner exactly when fewer rows than it takes come no later than all of the owner's. */
  lemma {:induction false} AlwaysServedIff(rows: Rows, limit: int, owner: string)
    requires HasReady(rows, owner)
    ensures (forall picked :: IsPick(rows, limit, picked) ==> Serves(rows, picked, owner)) <==> |Rivals(rows, owner)| < limit
  {
    forall picked | IsPick(rows, limit, picked) && !Serves(rows, picked, owner) ensures limit <= |Rivals(rows, owner)| {
      UnservedIsFull(rows, limit, picked, owner);
    }
    if limit <= |Rivals(rows, owner)| {
      var picked := UnservedExists(rows, limit, owner);
    }
  }

  ghost predicate Fair(rows: Rows, limit: int) {
    forall picked, owner :: IsPick(rows, limit, picked) && HasReady(rows, owner) ==> Serves(rows, picked, owner)
  }

  /** The query is fair to all owners exactly when each has a row that fewer than the limit of others can precede. */
  lemma {:induction false} FairIff(rows: Rows, limit: int)
    ensures Fair(rows, limit) <==> forall owner :: HasReady(rows, owner) ==> |Rivals(rows, owner)| < limit
  {
    forall owner | HasReady(rows, owner)
      ensures (forall picked :: IsPick(rows, limit, picked) ==> Serves(rows, picked, owner)) <==> |Rivals(rows, owner)| < limit
    {
      AlwaysServedIff(rows, limit, owner);
    }
  }

  /** As many earlier rows of others as a pass takes keep an owner out of every pass. */
  lemma {:induction false} NeverServed(rows: Rows, limit: int, picked: seq<JobId>, owner: string)
    requires IsPick(rows, limit, picked) && limit <= |StrictRivals(rows, owner)|
    ensures !Serves(rows, picked, owner)
  {
    if i :| 0 <= i < |picked| && ReadyOf(rows, picked[i], owner) {
      var strict, own := StrictRivals(rows, owner), picked[i];
      assert own in OwnRows(rows, owner);
      forall id | id in strict ensures id in picked {
        assert !Before(rows[own], rows[id]);
      }
      SizeOfList(picked);
      SubsetSize(strict, Ids(picked), own);
    }
  }

  /** One job of owner `b` behind `n` older jobs of owner `a`. */
  function Backlog(n: nat): Rows {
    var ids := Below(n + 1);
    map id | id in ids ::
      Job(id, if id < n then "a" else "b", Ready, 0, 0, id, None, None, None, None, None, None)
  }

  /** For every limit there is a backlog of one owner with which no pass takes another owner's only job. */
  lemma {:induction false} BacklogStarves(limit: nat, picked: seq<JobId>)
    requires IsPick(Backlog(limit), limit, picked)
    ensures HasReady(Backlog(limit), "b") && !Serves(Backlog(limit), picked, "b")
  {
    var rows := Backlog(limit);
    BelowIs(limit);
    BelowIs(limit + 1);
    assert ReadyOf(rows, limit, "b");
    forall own | own in OwnRows(rows, "b") ensures own == limit {
      assert rows[own].owner == "b";
    }
    assert Below(limit) <= StrictRivals(rows, "b");
    SubsetIsSmaller(Below(limit), StrictRivals(rows, "b"));
    NeverServed(rows, limit, picked, "b");
  }
}
