/** The document store behind the handlers: four tables keyed by id, a
    creation counter, the error kinds every handler reports, and the
    semantics of an equality query on an index returned in descending
    creation order. */
module Database {
  import opened Schema

  /** The error kinds the handlers throw. NotFoundOrDenied covers both an
      absent record and a record owned by another user. ScanNotFound is the
      error of the `if (!scan)` branch of analyzeImage, which no call reaches. */
  datatype Error = Unauthenticated | NotFoundOrDenied | ScanNotFound

  datatype Result<+T> = Ok(value: T) | Err(error: Error)

  /** A document as a query returns it: its id together with its fields. */
  datatype Doc<+R> = Doc(id: Id, value: R)

  /** Newest first: ids (which are creation times) strictly decrease. */
  ghost predicate NewestFirst<R>(s: seq<Doc<R>>) {
    forall i, j :: 0 <= i < j < |s| ==> s[i].id > s[j].id
  }

  /** `withIndex(.., q => q.eq(field, k)).order("desc").collect()` over the
      documents with ids below `bound`: documents whose index field `key`
      equals `k`, newest first. IndexScanComplete shows that none is missed. */
  function IndexScan<K(==), R>(table: map<Id, R>, key: R -> K, k: K, bound: nat): (r: seq<Doc<R>>)
    ensures forall i :: 0 <= i < |r| ==>
      r[i].id < bound && r[i].id in table && table[r[i].id] == r[i].value && key(r[i].value) == k
    ensures NewestFirst(r)
    decreases bound
  {
    if bound == 0 then []
    else
      var older := IndexScan(table, key, k, bound - 1);
      var id := bound - 1;
      if id in table && key(table[id]) == k then [Doc(id, table[id])] + older else older
  }

  /** The ids a query result holds. */
  ghost function IdsOf<R>(s: seq<Doc<R>>): set<Id> {
    set i | 0 <= i < |s| :: s[i].id
  }

  /** Every matching document below `bound` is in the result. */
  lemma {:induction false} IndexScanComplete<K, R>(table: map<Id, R>, key: R -> K, k: K, bound: nat, id: Id)
    requires id < bound && id in table && key(table[id]) == k
    ensures id in IdsOf(IndexScan(table, key, k, bound))
  {
    var top := bound - 1;
    var older := IndexScan(table, key, k, top);
    var r := IndexScan(table, key, k, bound);
    if top in table && key(table[top]) == k {
      assert r == [Doc(top, table[top])] + older;
      if id == top {
        assert r[0].id == id;
      } else {
        IndexScanComplete(table, key, k, top, id);
        var j :| 0 <= j < |older| && older[j].id == id;
        assert r[j + 1].id == id;
      }
    } else {
      assert r == older;
      IndexScanComplete(table, key, k, top, id);
    }
  }

  /** IndexScanComplete for every matching document at once. */
  lemma IndexScanCovers<K, R>(table: map<Id, R>, key: R -> K, k: K, bound: nat)
    ensures forall id :: id < bound && id in table && key(table[id]) == k ==>
      id in IdsOf(IndexScan(table, key, k, bound))
  {
    forall id | id < bound && id in table && key(table[id]) == k
      ensures id in IdsOf(IndexScan(table, key, k, bound))
    {
      IndexScanComplete(table, key, k, bound, id);
    }
  }

  /** A newest-first result holds each document at most once. */
  lemma {:induction false} NewestFirstIdsDistinct<R>(s: seq<Doc<R>>)
    requires NewestFirst(s)
    ensures |IdsOf(s)| == |s|
  {
    if s != [] {
      var t := s[1..];
      assert forall i :: 0 <= i < |t| ==> t[i] == s[i + 1];
      NewestFirstIdsDistinct(t);
      forall x | x in IdsOf(s) ensures x in {s[0].id} + IdsOf(t) {
        var i :| 0 <= i < |s| && s[i].id == x;
        if i > 0 { assert t[i - 1].id == x; }
      }
      forall x | x in IdsOf(t) ensures x in IdsOf(s) && x < s[0].id {
        var i :| 0 <= i < |t| && t[i].id == x;
        assert s[i + 1].id == x;
      }
      assert IdsOf(s) == {s[0].id} + IdsOf(t);
    }
  }

  /** The persistent store. `clock` stands in for `_creationTime`: each
      insert takes the current value as the new document's id and advances
      it, so ids are unique and ordered by creation. */
  class Store {
    var patients: map<Id, Patient>
    var scans: map<Id, Scan>
    var analyses: map<Id, Analysis>
    var reports: map<Id, Report>
    var clock: nat

    /** Every id in use was issued by the counter. */
    ghost predicate Valid()
      reads this
    {
      && (forall id :: id in patients ==> id < clock)
      && (forall id :: id in scans ==> id < clock)
      && (forall id :: id in analyses ==> id < clock)
      && (forall id :: id in reports ==> id < clock)
    }

    /** Referential integrity the public handlers keep: a scan's patient
        exists and has the scan's owner; an analysis's scan exists, the
        analysis repeats that scan's patient, and has the scan's owner. */
    ghost predicate Linked()
      reads this
    {
      && (forall s :: s in scans ==>
            scans[s].patientId in patients && patients[scans[s].patientId].createdBy == scans[s].createdBy)
      && (forall a :: a in analyses ==>
            && analyses[a].scanId in scans
            && scans[analyses[a].scanId].patientId == analyses[a].patientId
            && scans[analyses[a].scanId].createdBy == analyses[a].createdBy)
    }

    constructor ()
      ensures Valid() && Linked()
      ensures patients == map[] && scans == map[] && analyses == map[] && reports == map[]
      ensures clock == 0
    {
      patients, scans, analyses, reports := map[], map[], map[], map[];
      clock := 0;
    }

    /** The id (and creation time) of the next inserted document. */
    method NextId() returns (id: Id)
      requires Valid()
      modifies this`clock
      ensures id == old(clock) && clock == old(clock) + 1
      ensures id !in patients && id !in scans && id !in analyses && id !in reports
      ensures Valid()
    {
      id := clock;
      clock := clock + 1;
    }
  }

  /** Adding a key not yet present grows a map by exactly one entry. */
  lemma FreshInsertSize<V>(m: map<Id, V>, id: Id, v: V)
    requires id !in m
    ensures |m[id := v]| == |m| + 1
  {
    assert m[id := v].Keys == m.Keys + {id};
  }
}
