/** The design handlers of the REST service over an in-memory store: a map
    from design id to record stands for the Mongoose collection, and each
    handler returns the status code it sends and leaves the map changed or
    unchanged. Every handler except `getPublicDesign` and `getDesigns`
    matches on the pair (id, caller). */
module DesignController {
  import opened Text

  type DesignId = nat
  type UserId = nat

  datatype Design = Design(
    owner: UserId,
    title: string,
    jsonData: string,
    thumbnailUrl: string,
    access: string,
    source: Option<string>,
    createdAt: int)

  /** A field of a request body: `None` when it is absent. */
  type Field = Option<string>

  /** A body field that JavaScript treats as truthy. */
  predicate Given(f: Field) {
    f.Some? && f.value != ""
  }

  /** `f || fallback`. */
  function Or(f: Field, fallback: string): (r: string)
    ensures Given(f) ==> r == f.value
    ensures !Given(f) ==> r == fallback
  {
    if Given(f) then f.value else fallback
  }

  const UntitledDesign: string := "Untitled Design"

  /** The two values `access` may take. */
  predicate IsAccess(a: string) {
    a == "private" || a == "public"
  }

  datatype CreateBody = CreateBody(fromTemplate: bool, content: Field, title: Field, jsonData: Field, thumbnailUrl: Field)

  datatype UpdateBody = UpdateBody(title: Field, jsonData: Field, thumbnailUrl: Field)

  /** What `getPublicDesign` sends: no owner and no access value. */
  datatype PublicView = PublicView(id: DesignId, title: string, jsonData: string, thumbnailUrl: string, createdAt: int)

  /** The record `createDesign` builds, or `None` for its 400 reply. */
  function NewDesign(body: CreateBody, caller: UserId, now: int): (r: Option<Design>)
    ensures r.None? <==> !(body.fromTemplate && Given(body.content)) && !(Given(body.title) && Given(body.jsonData))
    ensures r.Some? ==> r.value.owner == caller && r.value.access == "private" && r.value.createdAt == now
    ensures r.Some? ==> r.value.thumbnailUrl == Or(body.thumbnailUrl, "")
  {
    if body.fromTemplate && Given(body.content) then
      Some(Design(caller, Or(body.title, UntitledDesign), body.content.value,
                  Or(body.thumbnailUrl, ""), "private", Some("template"), now))
    else if !Given(body.title) || !Given(body.jsonData) then
      None
    else
      Some(Design(caller, Trim(body.title.value), body.jsonData.value,
                  Or(body.thumbnailUrl, ""), "private", Some("blank"), now))
  }

  /** The template path takes the content, the title or "Untitled Design",
      and source "template"; the blank path takes the trimmed title, the
      design data, and source "blank". */
  lemma CreatePaths(body: CreateBody, caller: UserId, now: int)
    ensures body.fromTemplate && Given(body.content) ==>
      var d := NewDesign(body, caller, now).value;
      d.jsonData == body.content.value && d.title == Or(body.title, UntitledDesign)
      && d.source == Some("template")
    ensures !(body.fromTemplate && Given(body.content)) && Given(body.title) && Given(body.jsonData) ==>
      var d := NewDesign(body, caller, now).value;
      d.jsonData == body.jsonData.value && d.title == Trim(body.title.value) && d.source == Some("blank")
  {
  }

  /** `updateDesign`'s in-place assignments: each supplied truthy field
      overwrites its own, the title trimmed. */
  function Updated(d: Design, body: UpdateBody): (r: Design)
    ensures r.owner == d.owner && r.access == d.access && r.source == d.source && r.createdAt == d.createdAt
    ensures r.title == if Given(body.title) then Trim(body.title.value) else d.title
    ensures r.jsonData == Or(body.jsonData, d.jsonData)
    ensures r.thumbnailUrl == Or(body.thumbnailUrl, d.thumbnailUrl)
  {
    var t := if Given(body.title) then d.(title := Trim(body.title.value)) else d;
    var j := if Given(body.jsonData) then t.(jsonData := body.jsonData.value) else t;
    if Given(body.thumbnailUrl) then j.(thumbnailUrl := body.thumbnailUrl.value) else j
  }

  /** Sending the same update twice stores what sending it once stores. */
  lemma UpdateIdempotent(d: Design, body: UpdateBody)
    ensures Updated(Updated(d, body), body) == Updated(d, body)
  {
    if Given(body.title) {
      TrimIdempotent(body.title.value);
    }
  }

  /** An empty update changes nothing. */
  lemma EmptyUpdateIsIdentity(d: Design)
    ensures Updated(d, UpdateBody(None, None, None)) == d
  {
  }

  /** The record `duplicateDesign` builds from an original. */
  function Duplicated(original: Design, caller: UserId, now: int): (r: Design)
    ensures r.title == original.title + " - Copy"
    ensures r.jsonData == original.jsonData && r.thumbnailUrl == original.thumbnailUrl
    ensures r.owner == caller && r.access == "private" && r.source == None && r.createdAt == now
  {
    Design(caller, original.title + " - Copy", original.jsonData, original.thumbnailUrl, "private", None, now)
  }

  /** The ids in `ids` are pairwise distinct. */
  predicate Distinct(ids: seq<DesignId>) {
    forall i, j :: 0 <= i < j < |ids| ==> ids[i] != ids[j]
  }

  /** Every id in `ids` is stored, newest `createdAt` first. */
  predicate NewestFirst(ids: seq<DesignId>, m: map<DesignId, Design>) {
    && (forall k :: 0 <= k < |ids| ==> ids[k] in m)
    && (forall i, j :: 0 <= i < j < |ids| ==> m[ids[i]].createdAt >= m[ids[j]].createdAt)
  }

  /** Insert `id` into a newest-first list before the first entry it is not older than. */
  function InsertNewest(ids: seq<DesignId>, id: DesignId, m: map<DesignId, Design>): (r: seq<DesignId>)
    requires NewestFirst(ids, m) && id in m
    ensures NewestFirst(r, m)
    ensures |r| == |ids| + 1
    ensures forall x :: x in r <==> x in ids || x == id
    ensures Distinct(ids) && id !in ids ==> Distinct(r)
  {
    if ids == [] then [id]
    else if m[id].createdAt >= m[ids[0]].createdAt then [id] + ids
    else
      var rest := InsertNewest(ids[1..], id, m);
      var r := [ids[0]] + rest;
      forall k | 1 <= k < |r|
        ensures m[ids[0]].createdAt >= m[r[k]].createdAt
        ensures Distinct(ids) && id !in ids ==> r[k] != ids[0]
      {
        assert r[k] in rest;
        if r[k] != id {
          var j :| 0 <= j < |ids[1..]| && ids[1..][j] == r[k];
          assert ids[j + 1] == r[k];
        }
      }
      r
  }

  class DesignStore {
    var designs: map<DesignId, Design>
    /** The id the next inserted record receives. */
    var nextId: nat

    /** Every stored id was issued, and every access value is a legal one. */
    predicate Valid()
      reads this
    {
      forall id :: id in designs ==> id < nextId && IsAccess(designs[id].access)
    }

    /** `findOne({_id: id, userId: caller})` finds a record. */
    predicate Owns(caller: UserId, id: DesignId)
      reads this
    {
      id in designs && designs[id].owner == caller
    }

    constructor ()
      ensures Valid() && designs == map[] && nextId == 0
    {
      designs := map[];
      nextId := 0;
    }

    /** `getDesigns`: every record, no ownership scoping. */
    method GetDesigns() returns (status: nat, all: map<DesignId, Design>)
      ensures status == 200 && all == designs
    {
      return 200, designs;
    }

    /** `getDesignsByUserId`: 401 without a caller id, otherwise the caller's
        records and only those, each once, newest first. */
    method GetDesignsByUserId(caller: Option<UserId>) returns (status: nat, ids: seq<DesignId>)
      ensures caller.None? ==> status == 401 && ids == []
      ensures caller.Some? ==> status == 200
      ensures caller.Some? ==> forall id :: id in ids <==> Owns(caller.value, id)
      ensures Distinct(ids) && NewestFirst(ids, designs)
    {
      if caller.None? {
        return 401, [];
      }
      var user := caller.value;
      var remaining := designs.Keys;
      ids := [];
      while remaining != {}
        invariant remaining <= designs.Keys
        invariant forall id :: id in ids ==> Owns(user, id) && id !in remaining
        invariant forall id :: Owns(user, id) ==> id in ids || id in remaining
        invariant Distinct(ids) && NewestFirst(ids, designs)
        decreases remaining
      {
        var id :| id in remaining;
        remaining := remaining - {id};
        if designs[id].owner == user {
          ids := InsertNewest(ids, id, designs);
        }
      }
      status := 200;
    }

    /** `getDesignById`: the caller's own record, or 404. */
    method GetDesignById(caller: UserId, id: DesignId) returns (status: nat, design: Option<Design>)
      ensures Owns(caller, id) ==> status == 200 && design == Some(designs[id])
      ensures !Owns(caller, id) ==> status == 404 && design == None
    {
      if id in designs && designs[id].owner == caller {
        return 200, Some(designs[id]);
      }
      return 404, None;
    }

    /** `createDesign`: 400 and nothing stored when validation fails,
        otherwise 201 and exactly one new record under a fresh id. */
    method CreateDesign(caller: UserId, body: CreateBody, now: int) returns (status: nat, id: Option<DesignId>)
      requires Valid()
      modifies this
      ensures Valid()
      ensures NewDesign(body, caller, now).None? ==>
        status == 400 && id == None && designs == old(designs) && nextId == old(nextId)
      ensures NewDesign(body, caller, now).Some? ==>
        && status == 201 && id == Some(old(nextId)) && old(nextId) !in old(designs)
        && designs == old(designs)[old(nextId) := NewDesign(body, caller, now).value]
    {
      var d := NewDesign(body, caller, now);
      if d.None? {
        return 400, None;
      }
      id := Some(nextId);
      designs := designs[nextId := d.value];
      nextId := nextId + 1;
      status := 201;
    }

    /** `updateDesign`: 404 and no change unless the caller owns the record;
        otherwise this record alone receives the supplied fields. */
    method UpdateDesign(caller: UserId, id: DesignId, body: UpdateBody) returns (status: nat)
      requires Valid()
      modifies this
      ensures Valid() && nextId == old(nextId)
      ensures !old(Owns(caller, id)) ==> status == 404 && designs == old(designs)
      ensures old(Owns(caller, id)) ==> status == 200 && designs == old(designs)[id := Updated(old(designs[id]), body)]
    {
      if !(id in designs && designs[id].owner == caller) {
        return 404;
      }
      designs := designs[id := Updated(designs[id], body)];
      status := 200;
    }

    /** `deleteDesign`: removes exactly the matching record, or 404. */
    method DeleteDesign(caller: UserId, id: DesignId) returns (status: nat)
      requires Valid()
      modifies this
      ensures Valid() && nextId == old(nextId)
      ensures !old(Owns(caller, id)) ==> status == 404 && designs == old(designs)
      ensures old(Owns(caller, id)) ==> status == 200 && designs == old(designs) - {id}
    {
      if !(id in designs && designs[id].owner == caller) {
        return 404;
      }
      designs := designs - {id};
      status := 200;
    }

    /** `duplicateDesign`: a new private copy owned by the caller; the original stays. */
    method DuplicateDesign(caller: UserId, id: DesignId, now: int) returns (status: nat, copy: Option<DesignId>)
      requires Valid()
      modifies this
      ensures Valid()
      ensures !old(Owns(caller, id)) ==> status == 404 && copy == None && designs == old(designs)
      ensures old(Owns(caller, id)) ==>
        && status == 201 && copy == Some(old(nextId)) && old(nextId) !in old(designs)
        && designs == old(designs)[old(nextId) := Duplicated(old(designs[id]), caller, now)]
    {
      if !(id in designs && designs[id].owner == caller) {
        return 404, None;
      }
      copy := Some(nextId);
      designs := designs[nextId := Duplicated(designs[id], caller, now)];
      nextId := nextId + 1;
      status := 201;
    }

    /** `updateDesignAccess`: 400 for any value but "private" or "public",
        before the lookup; 404 unless owned; otherwise only `access` changes. */
    method UpdateDesignAccess(caller: UserId, id: DesignId, access: Field) returns (status: nat)
      requires Valid()
      modifies this
      ensures Valid() && nextId == old(nextId)
      ensures !(access.Some? && IsAccess(access.value)) ==> status == 400 && designs == old(designs)
      ensures access.Some? && IsAccess(access.value) && !old(Owns(caller, id)) ==>
        status == 404 && designs == old(designs)
      ensures access.Some? && IsAccess(access.value) && old(Owns(caller, id)) ==>
        status == 200 && designs == old(designs)[id := old(designs[id]).(access := access.value)]
    {
      if !(access.Some? && (access.value == "private" || access.value == "public")) {
        return 400;
      }
      if !(id in designs && designs[id].owner == caller) {
        return 404;
      }
      designs := designs[id := designs[id].(access := access.value)];
      status := 200;
    }

    /** `getPublicDesign`: no ownership check; 404 when missing, 403 unless
        public, otherwise the projection without owner and access. */
    method GetPublicDesign(id: DesignId) returns (status: nat, view: Option<PublicView>)
      ensures id !in designs ==> status == 404 && view == None
      ensures id in designs && designs[id].access != "public" ==> status == 403 && view == None
      ensures id in designs && designs[id].access == "public" ==>
        var d := designs[id];
        status == 200 && view == Some(PublicView(id, d.title, d.jsonData, d.thumbnailUrl, d.createdAt))
    {
      if id !in designs {
        return 404, None;
      }
      var d := designs[id];
      if d.access != "public" {
        return 403, None;
      }
      return 200, Some(PublicView(id, d.title, d.jsonData, d.thumbnailUrl, d.createdAt));
    }

    /** `exportDesign`: the caller's design data, or 404. */
    method ExportDesign(caller: UserId, id: DesignId) returns (status: nat, jsonData: Option<string>)
      ensures Owns(caller, id) ==> status == 200 && jsonData == Some(designs[id].jsonData)
      ensures !Owns(caller, id) ==> status == 404 && jsonData == None
    {
      if id in designs && designs[id].owner == caller {
        return 200, Some(designs[id].jsonData);
      }
      return 404, None;
    }
  }
}
