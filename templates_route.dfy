/**
 * The Express templates routes. The listing shares the service's filter and
 * order; PUT changes the fetched document in place before saving it. The
 * ownership rules differ from the service's: a default template can never
 * be updated, and a template without an owner is open to every caller.
 */
module TemplatesRoute {
  import opened Wrappers
  import opened CardModel
  import opened TemplatesService

  datatype Response =
    | Json(status: int, message: string)
    | Document(status: int, template: TemplateRecord)
    | NoContent

  const TemplateNotFound: string := "Template not found"

  /** `req.query.includeDefaults !== 'false'`; None when the parameter is missing. */
  function IncludeDefaults(query: Option<string>): (b: bool)
    ensures b <==> query != Some("false")
  {
    query != Some("false")
  }

  /** `GET /`: the caller's id is "" when the request carries no user. */
  function List(ts: seq<TemplateRecord>, userId: string, includeDefaults: Option<string>): (r: seq<TemplateRecord>)
    ensures forall t :: multiset(r)[t] == if Visible(t, userId, IncludeDefaults(includeDefaults)) then multiset(ts)[t] else 0
    ensures Sorted(r)
  {
    FindAll(ts, userId, IncludeDefaults(includeDefaults))
  }

  /** The listing is mounted without sign-in, so no request carries a user: `includeDefaults=false` lists every template. */
  lemma {:induction false} UnauthenticatedListing(ts: seq<TemplateRecord>, query: Option<string>)
    ensures query == Some("false") ==> multiset(List(ts, "", query)) == multiset(ts)
    ensures query != Some("false") ==> forall t :: t in List(ts, "", query) <==> t in ts && t.isDefault
  {
    AnonymousSeesAll(ts);
    var r := List(ts, "", query);
    assert forall t :: t in r <==> multiset(r)[t] > 0;
  }

  /** `GET /:id`; an id that is not an object id is answered like a missing one. */
  function Get(store: Store, id: string): (r: Response)
    ensures id in store ==> r == Document(200, store[id])
    ensures id !in store ==> r == Json(404, TemplateNotFound)
  {
    if id in store then Document(200, store[id]) else Json(404, TemplateNotFound)
  }

  /** The body of a POST or PUT: an empty name and missing layouts count as not sent. */
  datatype Body = Body(name: string, description: Option<string>, frontJson: Option<Layout>, backJson: Option<Layout>)

  /** `POST /`: the three required fields, then a template owned by the caller under a fresh id. */
  function Post(store: Store, id: string, createdAt: int, callerId: string, body: Body): (r: (Response, Store))
    requires id !in store
    ensures body.name == "" || body.frontJson.None? || body.backJson.None? ==>
      r == (Json(400, "name, frontJson, and backJson are required"), store)
    ensures r.0.Document? ==>
      r.0.status == 201 && r.0.template.userId == Some(callerId) && !r.0.template.isDefault
      && r.1 == store[id := r.0.template]
      && r.0.template == TemplateRecord(id, Some(callerId), body.name, body.description, body.frontJson.value,
                                        body.backJson.value, false, createdAt)
    ensures r.0.Document? <==> body.name != "" && body.frontJson.Some? && body.backJson.Some?
  {
    if body.name == "" || body.frontJson.None? || body.backJson.None? then
      (Json(400, "name, frontJson, and backJson are required"), store)
    else
      var created := Create(store, id, createdAt, callerId, CreateDto(body.name, body.description, body.frontJson.value, body.backJson.value));
      (Document(201, created[id]), created)
  }

  /** `DELETE /:id`: never a default template; a template without an owner may be deleted by anyone. */
  function Delete(store: Store, id: string, callerId: string): (r: (Response, Store))
    ensures id !in store ==> r == (Json(404, TemplateNotFound), store)
    ensures id in store && store[id].isDefault ==> r == (Json(403, "Cannot delete default templates"), store)
    ensures r.0 == NoContent <==>
      id in store && !store[id].isDefault && (store[id].userId.None? || store[id].userId == Some(callerId))
    ensures r.0 == NoContent ==> r.1 == store - {id}
    ensures r.0 != NoContent ==> r.1 == store
  {
    if id !in store then (Json(404, TemplateNotFound), store)
    else if store[id].isDefault then (Json(403, "Cannot delete default templates"), store)
    else if store[id].userId.Some? && store[id].userId.value != callerId then
      (Json(403, "You do not have permission to delete this template"), store)
    else (NoContent, store - {id})
  }

  /** An ownerless template that is not a default: the route lets any caller delete it, the service nobody. */
  lemma {:induction false} OwnerlessDeletableByAnyone(store: Store, id: string, callerId: string)
    requires id in store && !store[id].isDefault && store[id].userId.None?
    ensures Delete(store, id, callerId) == (NoContent, store - {id})
    ensures Remove(store, id, callerId) == Err(Backend.Forbidden("You do not have permission to delete this template"))
  {
  }

  /** On a template they own and that is not a default, the route and the service delete alike. */
  lemma {:induction false} OwnedDeleteAgrees(store: Store, id: string, callerId: string)
    requires id in store && !store[id].isDefault && store[id].userId == Some(callerId)
    ensures Delete(store, id, callerId).1 == Remove(store, id, callerId).value
  {
  }

  /** A fetched template document, whose four editable fields PUT assigns before saving. */
  class TemplateDocument {
    const id: string
    const userId: Option<string>
    const isDefault: bool
    const createdAt: int
    var name: string
    var description: Option<string>
    var frontJson: Layout
    var backJson: Layout

    function Record(): (t: TemplateRecord)
      reads this
      ensures t.id == id && t.userId == userId && t.isDefault == isDefault
    {
      TemplateRecord(id, userId, name, description, frontJson, backJson, isDefault, createdAt)
    }

    /** The document loaded from a stored record. */
    constructor(t: TemplateRecord)
      ensures Record() == t
    {
      id := t.id;
      userId := t.userId;
      isDefault := t.isDefault;
      createdAt := t.createdAt;
      name := t.name;
      description := t.description;
      frontJson := t.frontJson;
      backJson := t.backJson;
    }

    /** The guarded assignments: each sent field overwrites the document's. */
    method Assign(body: Body)
      modifies this
      ensures Record() == Patch(old(Record()), UpdateDto(body.name, body.description, body.frontJson, body.backJson))
    {
      if body.name != "" {
        name := body.name;
      }
      if body.description.Some? {
        description := body.description;
      }
      if body.frontJson.Some? {
        frontJson := body.frontJson.value;
      }
      if body.backJson.Some? {
        backJson := body.backJson.value;
      }
    }
  }

  /** Whether PUT lets the caller change the template. */
  predicate MayUpdate(t: TemplateRecord, callerId: string)
  {
    !t.isDefault && (t.userId.None? || t.userId == Some(callerId))
  }

  /** `PUT /:id`: `doc` is the fetched document, null when there is none. */
  method Put(doc: TemplateDocument?, callerId: string, body: Body) returns (r: Response)
    modifies doc
    ensures doc == null ==> r == Json(404, TemplateNotFound)
    ensures doc != null && doc.isDefault ==> r == Json(403, "Cannot update default templates")
    ensures doc != null && !doc.isDefault && doc.userId.Some? && doc.userId.value != callerId ==>
      r == Json(403, "You do not have permission to update this template")
    ensures doc != null && !MayUpdate(old(doc.Record()), callerId) ==> doc.Record() == old(doc.Record())
    ensures doc != null && MayUpdate(old(doc.Record()), callerId) ==>
      doc.Record() == Patch(old(doc.Record()), UpdateDto(body.name, body.description, body.frontJson, body.backJson))
      && r == Document(200, doc.Record())
  {
    if doc == null {
      return Json(404, TemplateNotFound);
    }
    if doc.isDefault {
      return Json(403, "Cannot update default templates");
    }
    if doc.userId.Some? && doc.userId.value != callerId {
      return Json(403, "You do not have permission to update this template");
    }
    doc.Assign(body);
    r := Document(200, doc.Record());
  }

  /** The owner of a default template: the service lets them update it, PUT does not. */
  lemma {:induction false} OwnedDefaultOnlyServiceUpdates(t: TemplateRecord, store: Store, callerId: string, dto: UpdateDto)
    requires t.isDefault && t.userId == Some(callerId) && store == map[t.id := t]
    ensures !MayUpdate(t, callerId)
    ensures Update(store, t.id, callerId, dto) == Ok(map[t.id := Patch(t, dto)])
  {
    assert store[t.id := Patch(t, dto)] == map[t.id := Patch(t, dto)];
  }

  /** Who may change a template: allowed by PUT but refused by the service exactly for ownerless, non-default templates of other callers. */
  lemma {:induction false} UpdateRulesCompared(store: Store, id: string, callerId: string, dto: UpdateDto)
    requires id in store && !store[id].isDefault
    ensures MayUpdate(store[id], callerId) && Update(store, id, callerId, dto).Err? <==> store[id].userId.None?
  {
  }
}
