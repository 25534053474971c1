/**
 * The document store behind the routes: the `users`, `children` and `grades`
 * collections as maps from document id to record, the ownership check the
 * routes share, and the three queries they run (equality filter, optional
 * descending order on `createdAt`, or the store's default order by id).
 */
module RecordStore {

  import opened Wrappers
  import opened Text

  /** A user profile (written at registration and by the billing routes). Times are epoch milliseconds. */
  datatype UserRecord = UserRecord(
    email: string,
    name: string,
    plan: Option<string>,
    subscriptionId: Option<string>,
    subscriptionStatus: Option<string>,
    createdAt: Option<int>,
    updatedAt: Option<int>)

  /** A child profile; `id` is the copy of the document id that the API routes store inside the document. */
  datatype ChildRecord = ChildRecord(
    id: Option<string>,
    parentId: string,
    firstName: string,
    lastName: Option<string>,
    gradeLevel: Option<string>,
    birthDate: Option<string>,
    createdAt: int)

  /** A grade entry; `coef` and `date` only exist on grades written by the client-side helpers. */
  datatype GradeRecord = GradeRecord(
    id: Option<string>,
    childId: string,
    subject: string,
    value: real,
    coef: Option<real>,
    date: Option<string>,
    createdAt: int,
    updatedAt: Option<int>)

  /** `childSnap.exists && childSnap.data()?.parentId === uid`. */
  predicate Owns(children: map<string, ChildRecord>, childId: string, uid: string) {
    childId in children && children[childId].parentId == uid
  }

  /** The ids of the children whose `parentId` is `uid`. */
  function OwnedBy(children: map<string, ChildRecord>, uid: string): set<string> {
    set k | k in children && children[k].parentId == uid
  }

  /** The ids of the grades whose `childId` is `childId`. */
  function GradeIdsOf(grades: map<string, GradeRecord>, childId: string): set<string> {
    set k | k in grades && grades[k].childId == childId
  }

  /** The ids of the users whose `subscriptionId` is `sid`. */
  function SubscribedUsers(users: map<string, UserRecord>, sid: string): set<string> {
    set k | k in users && users[k].subscriptionId == Some(sid)
  }

  predicate DistinctIds<T>(docs: seq<(string, T)>) {
    forall i, j | 0 <= i < j < |docs| :: docs[i].0 != docs[j].0
  }

  /** `docs` lists each document of `m` whose id is in `ids` exactly once, with its id. */
  predicate IsListingOf<T(==)>(m: map<string, T>, ids: set<string>, docs: seq<(string, T)>) {
    && (forall i | 0 <= i < |docs| :: docs[i].0 in ids && docs[i].0 in m && docs[i].1 == m[docs[i].0])
    && (forall k | k in ids && k in m :: (k, m[k]) in docs)
    && DistinctIds(docs)
  }

  function KeysOf<T>(docs: seq<(string, T)>): set<string> {
    set i | 0 <= i < |docs| :: docs[i].0
  }

  /** Distinct ids: as many ids as documents. */
  lemma {:induction false} DistinctKeysCount<T>(docs: seq<(string, T)>)
    requires DistinctIds(docs)
    ensures |KeysOf(docs)| == |docs|
  {
    if docs != [] {
      var rest := docs[1..];
      assert DistinctIds(rest) by {
        forall i, j | 0 <= i < j < |rest| ensures rest[i].0 != rest[j].0 {
          assert rest[i] == docs[i + 1] && rest[j] == docs[j + 1];
        }
      }
      DistinctKeysCount(rest);
      assert KeysOf(docs) == KeysOf(rest) + {docs[0].0} by {
        forall k | k in KeysOf(docs) ensures k in KeysOf(rest) + {docs[0].0} {
          var i :| 0 <= i < |docs| && docs[i].0 == k;
          if i > 0 { assert rest[i - 1] == docs[i]; }
        }
        forall k | k in KeysOf(rest) ensures k in KeysOf(docs) {
          var i :| 0 <= i < |rest| && rest[i].0 == k;
          assert docs[i + 1] == rest[i];
        }
      }
      assert docs[0].0 !in KeysOf(rest) by {
        forall i | 0 <= i < |rest| ensures rest[i].0 != docs[0].0 {
          assert rest[i] == docs[i + 1];
        }
      }
    }
  }

  /** A listing has exactly one document per listed id present in the store. */
  lemma ListingCount<T>(m: map<string, T>, ids: set<string>, docs: seq<(string, T)>)
    requires IsListingOf(m, ids, docs)
    ensures |docs| == |ids * m.Keys|
  {
    DistinctKeysCount(docs);
    assert KeysOf(docs) == ids * m.Keys by {
      forall k | k in ids * m.Keys ensures k in KeysOf(docs) {
        var i :| 0 <= i < |docs| && docs[i] == (k, m[k]);
      }
    }
  }

  predicate SortedByCreatedDesc(docs: seq<(string, GradeRecord)>) {
    forall i, j | 0 <= i < j < |docs| :: docs[i].1.createdAt >= docs[j].1.createdAt
  }

  /** `k` comes first among `ids` in the store's default order by document id. */
  predicate IsLeastId(k: string, ids: set<string>) {
    k in ids && forall j | j in ids && j != k :: LexLess(k, j)
  }

  lemma LeastIdUnique(a: string, b: string, ids: set<string>)
    requires IsLeastId(a, ids) && IsLeastId(b, ids)
    ensures a == b
  {
    if a != b {
      LexLessTransitive(a, b, a);
      LexLessIrreflexive(a);
    }
  }

  /** Where a grade created at `c` goes in a list sorted newest first: before the first one not newer. */
  function InsertionPoint(docs: seq<(string, GradeRecord)>, c: int): (p: nat)
    ensures p <= |docs|
    ensures forall i | 0 <= i < p :: docs[i].1.createdAt > c
    ensures p < |docs| ==> docs[p].1.createdAt <= c
  {
    if docs == [] || docs[0].1.createdAt <= c then 0 else 1 + InsertionPoint(docs[1..], c)
  }

  lemma InsertSorted(docs: seq<(string, GradeRecord)>, x: (string, GradeRecord))
    requires SortedByCreatedDesc(docs)
    ensures SortedByCreatedDesc(Inserted(docs, x))
  {
    var p := InsertionPoint(docs, x.1.createdAt);
    var r := Inserted(docs, x);
    assert forall i | p <= i < |docs| :: docs[i].1.createdAt <= x.1.createdAt by {
      forall i | p <= i < |docs| ensures docs[i].1.createdAt <= x.1.createdAt {
        assert docs[i].1.createdAt <= docs[p].1.createdAt;
      }
    }
    forall i, j | 0 <= i < j < |r| ensures r[i].1.createdAt >= r[j].1.createdAt {
      if j < p {
        assert r[i] == docs[i] && r[j] == docs[j];
      } else if j == p {
        assert r[i] == docs[i] && r[j] == x;
      } else if i < p {
        assert r[i] == docs[i] && r[j] == docs[j - 1];
      } else if i == p {
        assert r[i] == x && r[j] == docs[j - 1];
      } else {
        assert r[i] == docs[i - 1] && r[j] == docs[j - 1];
      }
    }
  }

  /** `docs` with `x` inserted at its place in the newest-first order. */
  function Inserted(docs: seq<(string, GradeRecord)>, x: (string, GradeRecord)): seq<(string, GradeRecord)> {
    var p := InsertionPoint(docs, x.1.createdAt);
    docs[..p] + [x] + docs[p..]
  }

  /** Where each entry of `Inserted(docs, x)` comes from. */
  lemma InsertedAt(docs: seq<(string, GradeRecord)>, x: (string, GradeRecord))
    ensures var p := InsertionPoint(docs, x.1.createdAt);
      && |Inserted(docs, x)| == |docs| + 1
      && (forall i | 0 <= i < p :: Inserted(docs, x)[i] == docs[i])
      && Inserted(docs, x)[p] == x
      && (forall i | p < i <= |docs| :: Inserted(docs, x)[i] == docs[i - 1])
  {
  }

  lemma InsertKeepsDocs(docs: seq<(string, GradeRecord)>, x: (string, GradeRecord))
    ensures forall y :: y in Inserted(docs, x) <==> y == x || y in docs
    ensures DistinctIds(docs) && (forall i | 0 <= i < |docs| :: docs[i].0 != x.0) ==> DistinctIds(Inserted(docs, x))
  {
    var p := InsertionPoint(docs, x.1.createdAt);
    var next := Inserted(docs, x);
    InsertedAt(docs, x);
    forall y ensures y in next <==> y == x || y in docs {
      if y in next {
        var i :| 0 <= i < |next| && next[i] == y;
        if i < p { assert docs[i] == y; } else if i > p { assert docs[i - 1] == y; }
      }
      if y in docs {
        var j :| 0 <= j < |docs| && docs[j] == y;
        if j < p { assert next[j] == y; } else { assert next[j + 1] == y; }
      }
      if y == x { assert next[p] == y; }
    }
    if DistinctIds(docs) && (forall i | 0 <= i < |docs| :: docs[i].0 != x.0) {
      forall i, j | 0 <= i < j < |next| ensures next[i].0 != next[j].0 {
        if i < p && j < p {
          assert next[i] == docs[i] && next[j] == docs[j];
        } else if i < p && j == p {
          assert next[i] == docs[i] && next[j] == x;
        } else if i < p {
          assert next[i] == docs[i] && next[j] == docs[j - 1];
        } else if i == p {
          assert next[i] == x && next[j] == docs[j - 1];
        } else {
          assert next[i] == docs[i - 1] && next[j] == docs[j - 1];
        }
      }
    }
  }

  /** The grades of `childId` outside `pending`, each listed once, newest first. */
  predicate GradesListedSoFar(grades: map<string, GradeRecord>, childId: string, pending: set<string>,
                              docs: seq<(string, GradeRecord)>) {
    && (forall i | 0 <= i < |docs| ::
          docs[i].0 in grades && docs[i].0 !in pending && docs[i].1 == grades[docs[i].0] && docs[i].1.childId == childId)
    && (forall k | k in grades && k !in pending && grades[k].childId == childId :: (k, grades[k]) in docs)
    && DistinctIds(docs)
    && SortedByCreatedDesc(docs)
  }

  /** Taking one more id out of `pending`, and inserting its grade when it belongs to `childId`, keeps the listing. */
  lemma GradeListingStep(grades: map<string, GradeRecord>, childId: string, pending: set<string>,
                         docs: seq<(string, GradeRecord)>, k: string)
    requires k in pending && pending <= grades.Keys
    requires GradesListedSoFar(grades, childId, pending, docs)
    ensures GradesListedSoFar(grades, childId, pending - {k},
                              if grades[k].childId == childId then Inserted(docs, (k, grades[k])) else docs)
  {
    var rest := pending - {k};
    if grades[k].childId == childId {
      var x := (k, grades[k]);
      var next := Inserted(docs, x);
      InsertSorted(docs, x);
      InsertKeepsDocs(docs, x);
      assert forall i | 0 <= i < |docs| :: docs[i].0 != x.0;
      forall i | 0 <= i < |next|
        ensures next[i].0 in grades && next[i].0 !in rest && next[i].1 == grades[next[i].0] && next[i].1.childId == childId
      {
        assert next[i] in next;
        if next[i] != x {
          var j :| 0 <= j < |docs| && docs[j] == next[i];
        }
      }
      forall j | j in grades && j !in rest && grades[j].childId == childId
        ensures (j, grades[j]) in next
      {
        if j != k { assert (j, grades[j]) in docs; }
      }
      assert GradesListedSoFar(grades, childId, rest, next);
    } else {
      assert GradesListedSoFar(grades, childId, rest, docs);
    }
  }

  lemma GradeListingDone(grades: map<string, GradeRecord>, childId: string, docs: seq<(string, GradeRecord)>)
    requires GradesListedSoFar(grades, childId, {}, docs)
    ensures IsListingOf(grades, GradeIdsOf(grades, childId), docs)
    ensures SortedByCreatedDesc(docs)
  {
  }

  predicate ChildrenKeyed(children: map<string, ChildRecord>) {
    forall k | k in children :: children[k].id.Some? ==> children[k].id.value == k
  }

  predicate GradesKeyed(grades: map<string, GradeRecord>) {
    forall k | k in grades :: grades[k].id.Some? ==> grades[k].id.value == k
  }

  /** Writing a document whose stored `id`, if any, is its key keeps the collection keyed. */
  lemma ChildWriteKeepsKeyed(children: map<string, ChildRecord>, k: string, c: ChildRecord)
    requires ChildrenKeyed(children)
    requires c.id.Some? ==> c.id.value == k
    ensures ChildrenKeyed(children[k := c])
  {
  }

  lemma GradeWriteKeepsKeyed(grades: map<string, GradeRecord>, k: string, g: GradeRecord)
    requires GradesKeyed(grades)
    requires g.id.Some? ==> g.id.value == k
    ensures GradesKeyed(grades[k := g])
  {
  }

  class Store {
    var users: map<string, UserRecord>
    var children: map<string, ChildRecord>
    var grades: map<string, GradeRecord>

    constructor ()
      ensures users == map[] && children == map[] && grades == map[]
      ensures Valid()
    {
      users, children, grades := map[], map[], map[];
    }

    /** The `id` a route stores inside a document is that document's id. */
    predicate Valid()
      reads this
    {
      ChildrenKeyed(children) && GradesKeyed(grades)
    }

    /** `grades.where('childId', '==', childId).orderBy('createdAt', 'desc')`; ties come in no promised order. */
    method GradesOfChild(childId: string) returns (docs: seq<(string, GradeRecord)>)
      ensures IsListingOf(grades, GradeIdsOf(grades, childId), docs)
      ensures SortedByCreatedDesc(docs)
    {
      var pending := grades.Keys;
      docs := [];
      while pending != {}
        invariant pending <= grades.Keys
        invariant GradesListedSoFar(grades, childId, pending, docs)
        decreases pending
      {
        var k :| k in pending;
        GradeListingStep(grades, childId, pending, docs, k);
        if grades[k].childId == childId {
          docs := Inserted(docs, (k, grades[k]));
        }
        pending := pending - {k};
      }
      GradeListingDone(grades, childId, docs);
    }

    /** `children.where('parentId', '==', uid)`, with no order. */
    method ChildrenOfParent(uid: string) returns (docs: seq<(string, ChildRecord)>)
      ensures IsListingOf(children, OwnedBy(children, uid), docs)
    {
      var pending := children.Keys;
      docs := [];
      while pending != {}
        invariant pending <= children.Keys
        invariant forall i | 0 <= i < |docs| ::
          docs[i].0 in children && docs[i].0 !in pending && docs[i].1 == children[docs[i].0] && docs[i].1.parentId == uid
        invariant forall k | k in children && k !in pending && children[k].parentId == uid :: (k, children[k]) in docs
        invariant DistinctIds(docs)
        decreases pending
      {
        var k :| k in pending;
        if children[k].parentId == uid {
          docs := docs + [(k, children[k])];
        }
        pending := pending - {k};
      }
    }

    /** `snap.docs[0]` of `users.where('subscriptionId', '==', sid)`: the least matching id, absent when none match. */
    method FirstUserWithSubscription(sid: string) returns (found: Option<string>)
      ensures found.None? <==> SubscribedUsers(users, sid) == {}
      ensures found.Some? ==> IsLeastId(found.value, SubscribedUsers(users, sid))
    {
      var pending := users.Keys;
      found := None;
      while pending != {}
        invariant pending <= users.Keys
        invariant found.None? ==> forall j | j in users && j !in pending :: users[j].subscriptionId != Some(sid)
        invariant found.Some? ==> found.value in users && found.value !in pending && users[found.value].subscriptionId == Some(sid)
        invariant found.Some? ==> forall j | j in users && j !in pending && j != found.value && users[j].subscriptionId == Some(sid) ::
          LexLess(found.value, j)
        decreases pending
      {
        var k :| k in pending;
        if users[k].subscriptionId == Some(sid) {
          if found.None? {
            found := Some(k);
          } else if LexLess(k, found.value) {
            var old_ := found.value;
            forall j | j in users && j !in pending && j != old_ && users[j].subscriptionId == Some(sid)
              ensures LexLess(k, j)
            {
              LexLessTransitive(k, old_, j);
            }
            found := Some(k);
          } else {
            LexLessTotal(k, found.value);
          }
        }
        pending := pending - {k};
      }
      if found.Some? {
        assert found.value in SubscribedUsers(users, sid);
      } else {
        assert forall j | j in users :: users[j].subscriptionId != Some(sid);
      }
    }
  }
}
