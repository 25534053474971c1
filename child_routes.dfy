/**
 * The child routes (app/api/children/{create,get,list}/route.ts). Creation
 * reads the caller's profile and, on the free plan, refuses a second child;
 * reading a child tells a missing child (404) from a foreign one (403).
 */
module ChildRoutes {

  import opened Wrappers
  import opened Secure
  import opened Http
  import opened RecordStore

  const FreePlan: string := "free"

  /** The create body; each field is absent when falsy. */
  datatype ChildBody = ChildBody(firstName: Option<string>, lastName: Option<string>, birthDate: Option<string>, gradeLevel: Option<string>)

  /** `plan ?? 'free'`: a profile without a plan is on the free plan; an empty plan string is not. */
  function EffectivePlan(u: UserRecord): (p: string)
    ensures u.plan.None? ==> p == FreePlan
    ensures u.plan.Some? ==> p == u.plan.value
  {
    u.plan.GetOr(FreePlan)
  }

  /** The record written for a new child: `lastName` and `gradeLevel` default to '', `birthDate` to null. */
  function NewChild(id: string, uid: string, firstName: string, body: ChildBody, now: int): (c: ChildRecord)
    ensures c.id == Some(id) && c.parentId == uid && c.firstName == firstName && c.createdAt == now
    ensures c.lastName == Some(OrEmpty(body.lastName)) && c.gradeLevel == Some(OrEmpty(body.gradeLevel))
    ensures c.birthDate == OrNull(body.birthDate)
  {
    ChildRecord(Some(id), uid, firstName, Some(OrEmpty(body.lastName)), Some(OrEmpty(body.gradeLevel)), OrNull(body.birthDate), now)
  }

  /** Adding one child of `uid` under a fresh id grows the set of `uid`'s children by exactly that id. */
  lemma OwnedByGrowsByOne(children: map<string, ChildRecord>, id: string, c: ChildRecord, uid: string)
    requires id !in children
    requires c.parentId == uid
    ensures OwnedBy(children[id := c], uid) == OwnedBy(children, uid) + {id}
    ensures |OwnedBy(children[id := c], uid)| == |OwnedBy(children, uid)| + 1
  {
    assert OwnedBy(children[id := c], uid) == OwnedBy(children, uid) + {id};
  }

  /** Adding a child of `uid` leaves every other parent's children as they were. */
  lemma OthersUnaffected(children: map<string, ChildRecord>, id: string, c: ChildRecord, other: string)
    requires id !in children
    requires c.parentId != other
    ensures OwnedBy(children[id := c], other) == OwnedBy(children, other)
  {
  }

  /** A listing is empty exactly when there is nothing to list. */
  lemma ListingEmptyIff<T>(m: map<string, T>, ids: set<string>, docs: seq<(string, T)>)
    requires ids <= m.Keys
    requires IsListingOf(m, ids, docs)
    ensures |docs| == 0 <==> ids == {}
  {
    if ids != {} {
      var k :| k in ids;
      assert (k, m[k]) in docs;
    }
    if |docs| > 0 {
      assert docs[0].0 in ids;
    }
  }

  /** `POST /api/children/create`. `freshId` stands for `crypto.randomUUID()`, `now` for `new Date()`. */
  method CreateChild(store: Store, header: Option<string>, verify: string -> Option<string>,
                     body: ChildBody, freshId: string, now: int) returns (status: int, id: Option<string>)
    requires store.Valid()
    requires freshId !in store.children
    modifies store`children
    ensures store.Valid()
    ensures status == Ok <==> id.Some?
    ensures status != Ok ==> store.children == old(store.children)
    ensures RequireUid(header, verify).Unauthorized? ==> status == ServerError
    ensures RequireUid(header, verify).Authenticated? ==>
      var uid := RequireUid(header, verify).uid;
      if !Truthy(body.firstName) then status == BadRequest
      else if uid !in store.users then status == NotFound
      else if EffectivePlan(store.users[uid]) == FreePlan && OwnedBy(old(store.children), uid) != {} then status == Forbidden
      else
        && status == Ok && id == Some(freshId)
        && store.children == old(store.children)[freshId := NewChild(freshId, uid, body.firstName.value, body, now)]
        && |OwnedBy(store.children, uid)| == |OwnedBy(old(store.children), uid)| + 1
  {
    id := None;
    var auth := RequireUid(header, verify);
    if auth.Unauthorized? {
      return ServerError, id;
    }
    var uid := auth.uid;
    if !Truthy(body.firstName) {
      return BadRequest, id;
    }
    if uid !in store.users {
      return NotFound, id;
    }
    var plan := EffectivePlan(store.users[uid]);
    if plan == FreePlan {
      var existing := store.ChildrenOfParent(uid);
      ListingEmptyIff(store.children, OwnedBy(store.children, uid), existing);
      if |existing| >= 1 {
        return Forbidden, id;
      }
    }
    var c := NewChild(freshId, uid, body.firstName.value, body, now);
    ChildWriteKeepsKeyed(store.children, freshId, c);
    OwnedByGrowsByOne(store.children, freshId, c, uid);
    store.children := store.children[freshId := c];
    return Ok, Some(freshId);
  }

  /** The free plan's only child makes a second creation fail, whatever the body. */
  lemma FreePlanAllowsOneChild(children: map<string, ChildRecord>, id: string, c: ChildRecord, uid: string)
    requires id !in children
    requires c.parentId == uid
    requires OwnedBy(children, uid) == {}
    ensures OwnedBy(children[id := c], uid) == {id}
  {
    OwnedByGrowsByOne(children, id, c, uid);
  }

  /** `GET /api/children/get?childId=…`: whether the child exists is checked before whose it is. */
  function GetChild(children: map<string, ChildRecord>, auth: Auth, childId: Option<string>): (r: Reply<ChildRecord>)
    ensures auth.Unauthorized? ==> r == Fail(ServerError)
    ensures auth.Authenticated? && !Truthy(childId) ==> r == Fail(BadRequest)
    ensures auth.Authenticated? && Truthy(childId) ==>
      && (childId.value !in children ==> r == Fail(NotFound))
      && (childId.value in children && children[childId.value].parentId != auth.uid ==> r == Fail(Forbidden))
    ensures r.Success? <==> auth.Authenticated? && Truthy(childId) && Owns(children, childId.value, auth.uid)
    ensures r.Success? ==> r.body == children[childId.value] && r.body.parentId == auth.uid
  {
    if auth.Unauthorized? then Fail(ServerError)
    else if !Truthy(childId) then Fail(BadRequest)
    else if childId.value !in children then Fail(NotFound)
    else if children[childId.value].parentId != auth.uid then Fail(Forbidden)
    else Success(children[childId.value])
  }

  /** The grade routes answer 403 for a missing child; this one alone answers 404, and 403 only for a foreign child. */
  lemma MissingAndForeignChildDiffer(children: map<string, ChildRecord>, uid: string, missing: string, foreign: string)
    requires missing !in children
    requires foreign in children && children[foreign].parentId != uid
    requires missing != "" && foreign != ""
    ensures GetChild(children, Authenticated(uid), Some(missing)).Status() == NotFound
    ensures GetChild(children, Authenticated(uid), Some(foreign)).Status() == Forbidden
    ensures !Owns(children, missing, uid) && !Owns(children, foreign, uid)
  {
  }

  /** `c` is the stored record of one of `uid`'s children. */
  ghost predicate StoredChildOf(children: map<string, ChildRecord>, uid: string, c: ChildRecord) {
    exists k | k in children && children[k].parentId == uid :: children[k] == c
  }

  /** The stored data of a listing of the caller's children: exactly those children, once each. */
  lemma ListedRecords(children: map<string, ChildRecord>, uid: string, docs: seq<(string, ChildRecord)>,
                      records: seq<ChildRecord>)
    requires IsListingOf(children, OwnedBy(children, uid), docs)
    requires |records| == |docs|
    requires forall i | 0 <= i < |docs| :: records[i] == docs[i].1
    ensures |records| == |OwnedBy(children, uid)|
    ensures forall i | 0 <= i < |records| :: records[i].parentId == uid
    ensures forall i | 0 <= i < |records| :: StoredChildOf(children, uid, records[i])
    ensures forall k | k in children && children[k].parentId == uid :: children[k] in records
  {
    forall i | 0 <= i < |records|
      ensures records[i].parentId == uid
      ensures StoredChildOf(children, uid, records[i])
    {
      var k := docs[i].0;
      assert k in children && children[k].parentId == uid && records[i] == children[k];
    }
    forall k | k in children && children[k].parentId == uid
      ensures children[k] in records
    {
      assert k in OwnedBy(children, uid);
      var i :| 0 <= i < |docs| && docs[i] == (k, children[k]);
      assert records[i] == children[k];
    }
    ListingCount(children, OwnedBy(children, uid), docs);
    assert OwnedBy(children, uid) * children.Keys == OwnedBy(children, uid);
  }

  /** `GET /api/children/list`: the caller's children (their stored data, without the document id), in no promised order. */
  method ListChildren(store: Store, header: Option<string>, verify: string -> Option<string>)
    returns (status: int, records: seq<ChildRecord>)
    ensures status != Ok ==> records == []
    ensures RequireUid(header, verify).Unauthorized? <==> status == ServerError
    ensures RequireUid(header, verify).Authenticated? <==> status == Ok
    ensures status == Ok ==>
      var uid := RequireUid(header, verify).uid;
      && |records| == |OwnedBy(store.children, uid)|
      && (forall i | 0 <= i < |records| :: records[i].parentId == uid)
      && (forall i | 0 <= i < |records| :: StoredChildOf(store.children, uid, records[i]))
      && (forall k | k in store.children && store.children[k].parentId == uid :: store.children[k] in records)
  {
    records := [];
    var auth := RequireUid(header, verify);
    if auth.Unauthorized? {
      return ServerError, records;
    }
    var docs := store.ChildrenOfParent(auth.uid);
    records := seq(|docs|, i requires 0 <= i < |docs| => docs[i].1);
    ListedRecords(store.children, auth.uid, docs, records);
    return Ok, records;
  }
}
