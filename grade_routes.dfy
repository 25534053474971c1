/**
 * The grade routes (app/api/grades/{create,update,delete,list}/route.ts):
 * authenticate, validate the body, check that the child belongs to the
 * caller, then read or write the `grades` collection. A rejected token is
 * thrown inside the handler's `try` and so answers 500.
 */
module GradeRoutes {

  import opened Wrappers
  import opened Secure
  import opened Http
  import opened RecordStore

  /** The fields of a create body; `value` is absent unless it is a number. `coef` and `date` are accepted by the client but ignored. */
  datatype CreateBody = CreateBody(childId: Option<string>, value: Option<real>, subject: Option<string>, coef: Option<real>, date: Option<string>)

  /** The fields of an update or delete body; `value` is absent unless it is a number, `subject` unless it is a string. */
  datatype UpdateBody = UpdateBody(gradeId: Option<string>, childId: Option<string>, value: Option<real>, subject: Option<string>)

  /** A value of the `updates` dictionary. */
  datatype FieldValue = Num(n: real) | Str(s: string) | Time(t: int)

  /** The partial update built field by field: `value` iff a number was sent, `subject` iff a string was sent. */
  function Updates(value: Option<real>, subject: Option<string>): (u: map<string, FieldValue>)
    ensures u.Keys <= {"value", "subject"}
    ensures "value" in u <==> value.Some?
    ensures "subject" in u <==> subject.Some?
    ensures value.Some? ==> u["value"] == Num(value.value)
    ensures subject.Some? ==> u["subject"] == Str(subject.value)
  {
    var withValue: map<string, FieldValue> := if value.Some? then map["value" := Num(value.value)] else map[];
    if subject.Some? then withValue["subject" := Str(subject.value)] else withValue
  }

  /** `gradeRef.update(updates)`: each key present overwrites that field of the stored grade. */
  function Merge(g: GradeRecord, u: map<string, FieldValue>): GradeRecord {
    var g1 := if "value" in u && u["value"].Num? then g.(value := u["value"].n) else g;
    var g2 := if "subject" in u && u["subject"].Str? then g1.(subject := u["subject"].s) else g1;
    if "updatedAt" in u && u["updatedAt"].Time? then g2.(updatedAt := Some(u["updatedAt"].t)) else g2
  }

  /** The stored grade after a successful update: only what was sent, plus the update time, changes. */
  lemma MergeChangesOnlySentFields(g: GradeRecord, value: Option<real>, subject: Option<string>, now: int)
    ensures Merge(g, Updates(value, subject)["updatedAt" := Time(now)])
         == g.(value := value.GetOr(g.value), subject := subject.GetOr(g.subject), updatedAt := Some(now))
  {
  }

  /** Sending the same update twice leaves the grade as one update does. */
  lemma MergeIdempotent(g: GradeRecord, u: map<string, FieldValue>)
    ensures Merge(Merge(g, u), u) == Merge(g, u)
  {
  }

  /** An empty `subject` passes the update route's string test, although the create route rejects it. */
  lemma EmptySubjectIsAnUpdate()
    ensures "subject" in Updates(None, Some(""))
  {
  }

  /** The record the create route writes: no `coef`, no `date`, no `updatedAt`. */
  function NewGrade(id: string, childId: string, value: real, subject: string, now: int): (g: GradeRecord)
    ensures g.id == Some(id) && g.childId == childId && g.value == value && g.subject == subject
    ensures g.coef.None? && g.date.None? && g.updatedAt.None? && g.createdAt == now
  {
    GradeRecord(Some(id), childId, subject, value, None, None, now, None)
  }

  /** `POST /api/grades/create`. `freshId` stands for `crypto.randomUUID()`, `now` for `new Date()`. */
  method CreateGrade(store: Store, header: Option<string>, verify: string -> Option<string>,
                     body: CreateBody, freshId: string, now: int) returns (status: int, id: Option<string>)
    requires store.Valid()
    requires freshId !in store.grades
    modifies store`grades
    ensures store.Valid()
    ensures status == Ok <==> id.Some?
    ensures status != Ok ==> store.grades == old(store.grades)
    ensures RequireUid(header, verify).Unauthorized? ==> status == ServerError
    ensures RequireUid(header, verify).Authenticated? ==>
      var uid := RequireUid(header, verify).uid;
      if !Truthy(body.childId) || body.value.None? || !Truthy(body.subject) then status == BadRequest
      else if !Owns(store.children, body.childId.value, uid) then status == Forbidden
      else
        && status == Ok && id == Some(freshId)
        && store.grades == old(store.grades)[freshId := NewGrade(freshId, body.childId.value, body.value.value, body.subject.value, now)]
  {
    id := None;
    var auth := RequireUid(header, verify);
    if auth.Unauthorized? {
      return ServerError, id;
    }
    if !Truthy(body.childId) || body.value.None? || !Truthy(body.subject) {
      return BadRequest, id;
    }
    if !Owns(store.children, body.childId.value, auth.uid) {
      return Forbidden, id;
    }
    var g := NewGrade(freshId, body.childId.value, body.value.value, body.subject.value, now);
    GradeWriteKeepsKeyed(store.grades, freshId, g);
    store.grades := store.grades[freshId := g];
    return Ok, Some(freshId);
  }

  /** `POST /api/grades/update`: 400, 403, 400 "Nothing to update", 404, in that order. */
  method UpdateGrade(store: Store, header: Option<string>, verify: string -> Option<string>,
                     body: UpdateBody, now: int) returns (status: int)
    requires store.Valid()
    modifies store`grades
    ensures store.Valid()
    ensures status != Ok ==> store.grades == old(store.grades)
    ensures RequireUid(header, verify).Unauthorized? ==> status == ServerError
    ensures RequireUid(header, verify).Authenticated? ==>
      var uid := RequireUid(header, verify).uid;
      if !Truthy(body.gradeId) || !Truthy(body.childId) then status == BadRequest
      else if !Owns(store.children, body.childId.value, uid) then status == Forbidden
      else if body.value.None? && body.subject.None? then status == BadRequest
      else if body.gradeId.value !in old(store.grades) || old(store.grades)[body.gradeId.value].childId != body.childId.value then status == NotFound
      else
        var g := old(store.grades)[body.gradeId.value];
        && status == Ok
        && store.grades == old(store.grades)[body.gradeId.value :=
             g.(value := body.value.GetOr(g.value), subject := body.subject.GetOr(g.subject), updatedAt := Some(now))]
  {
    var auth := RequireUid(header, verify);
    if auth.Unauthorized? {
      return ServerError;
    }
    if !Truthy(body.gradeId) || !Truthy(body.childId) {
      return BadRequest;
    }
    if !Owns(store.children, body.childId.value, auth.uid) {
      return Forbidden;
    }
    var updates := Updates(body.value, body.subject);
    assert |updates.Keys| == 0 <==> body.value.None? && body.subject.None? by {
      if body.value.None? && body.subject.None? {
        assert updates.Keys == {};
      }
    }
    if |updates.Keys| == 0 {
      return BadRequest;
    }
    updates := updates["updatedAt" := Time(now)];
    var gradeId := body.gradeId.value;
    if gradeId !in store.grades || store.grades[gradeId].childId != body.childId.value {
      return NotFound;
    }
    MergeChangesOnlySentFields(store.grades[gradeId], body.value, body.subject, now);
    GradeWriteKeepsKeyed(store.grades, gradeId, Merge(store.grades[gradeId], updates));
    store.grades := store.grades[gradeId := Merge(store.grades[gradeId], updates)];
    return Ok;
  }

  /** `POST /api/grades/delete`: 400, 403, 404, in that order. */
  method DeleteGrade(store: Store, header: Option<string>, verify: string -> Option<string>,
                     body: UpdateBody) returns (status: int)
    requires store.Valid()
    modifies store`grades
    ensures store.Valid()
    ensures status != Ok ==> store.grades == old(store.grades)
    ensures RequireUid(header, verify).Unauthorized? ==> status == ServerError
    ensures RequireUid(header, verify).Authenticated? ==>
      var uid := RequireUid(header, verify).uid;
      if !Truthy(body.gradeId) || !Truthy(body.childId) then status == BadRequest
      else if !Owns(store.children, body.childId.value, uid) then status == Forbidden
      else if body.gradeId.value !in old(store.grades) || old(store.grades)[body.gradeId.value].childId != body.childId.value then status == NotFound
      else status == Ok && store.grades == old(store.grades) - {body.gradeId.value}
  {
    var auth := RequireUid(header, verify);
    if auth.Unauthorized? {
      return ServerError;
    }
    if !Truthy(body.gradeId) || !Truthy(body.childId) {
      return BadRequest;
    }
    if !Owns(store.children, body.childId.value, auth.uid) {
      return Forbidden;
    }
    var gradeId := body.gradeId.value;
    if gradeId !in store.grades || store.grades[gradeId].childId != body.childId.value {
      return NotFound;
    }
    store.grades := store.grades - {gradeId};
    return Ok;
  }

  /** Deleting the grade just created restores the collection. */
  lemma DeleteUndoesCreate(grades: map<string, GradeRecord>, id: string, g: GradeRecord)
    requires id !in grades
    ensures grades[id := g] - {id} == grades
  {
  }

  /** One element of the list reply, `{ id: d.id, ...d.data() }`: a stored `id` field overrides the document id. */
  datatype GradeView = GradeView(id: string, grade: GradeRecord)

  function View(doc: (string, GradeRecord)): (v: GradeView)
    ensures v.grade == doc.1
    ensures doc.1.id.Some? ==> v.id == doc.1.id.value
    ensures doc.1.id.None? ==> v.id == doc.0
  {
    GradeView(doc.1.id.GetOr(doc.0), doc.1)
  }

  /** `GET /api/grades/list?childId=…`: the child's grades, newest first, each with its id. */
  method ListGrades(store: Store, header: Option<string>, verify: string -> Option<string>,
                    childId: Option<string>) returns (status: int, views: seq<GradeView>)
    requires store.Valid()
    ensures status != Ok ==> views == []
    ensures RequireUid(header, verify).Unauthorized? ==> status == ServerError
    ensures RequireUid(header, verify).Authenticated? ==>
      var uid := RequireUid(header, verify).uid;
      if !Truthy(childId) then status == BadRequest
      else if !Owns(store.children, childId.value, uid) then status == Forbidden
      else
        && status == Ok
        && (forall i | 0 <= i < |views| ::
              views[i].id in store.grades && views[i].grade == store.grades[views[i].id] && views[i].grade.childId == childId.value)
        && (forall k | k in store.grades && store.grades[k].childId == childId.value ::
              GradeView(k, store.grades[k]) in views)
        && (forall i, j | 0 <= i < j < |views| :: views[i].id != views[j].id && views[i].grade.createdAt >= views[j].grade.createdAt)
  {
    views := [];
    var auth := RequireUid(header, verify);
    if auth.Unauthorized? {
      return ServerError, views;
    }
    if !Truthy(childId) {
      return BadRequest, views;
    }
    if !Owns(store.children, childId.value, auth.uid) {
      return Forbidden, views;
    }
    var docs := store.GradesOfChild(childId.value);
    views := seq(|docs|, i requires 0 <= i < |docs| => View(docs[i]));
    forall i | 0 <= i < |docs| ensures views[i] == GradeView(docs[i].0, docs[i].1) {
      assert docs[i].0 in store.grades && docs[i].1 == store.grades[docs[i].0];
    }
    forall k | k in store.grades && store.grades[k].childId == childId.value
      ensures GradeView(k, store.grades[k]) in views
    {
      assert k in GradeIdsOf(store.grades, childId.value);
      var i :| 0 <= i < |docs| && docs[i] == (k, store.grades[k]);
      assert views[i] == GradeView(k, store.grades[k]);
    }
    return Ok, views;
  }
}
