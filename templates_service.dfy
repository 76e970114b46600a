/**
 * The NestJS templates service: which templates a listing shows and in
 * what order, and who may create, update and remove a template. The
 * database is a map from template id to record.
 */
module TemplatesService {
  import opened Wrappers
  import opened CardModel
  import opened Backend

  /** A stored template; default templates are shared and usually have no owner. */
  datatype TemplateRecord = TemplateRecord(
    id: string,
    userId: Option<string>,
    name: string,
    description: Option<string>,
    frontJson: Layout,
    backJson: Layout,
    isDefault: bool,
    createdAt: int)

  type Store = map<string, TemplateRecord>

  // Listing

  /**
   * The listing's filter: a caller ("" when anonymous) sees their own
   * templates and, with `includeDefaults`, the defaults; an anonymous caller
   * sees the defaults, or every template when the defaults are excluded.
   */
  predicate Visible(t: TemplateRecord, userId: string, includeDefaults: bool)
    ensures userId != "" && t.userId == Some(userId) ==> Visible(t, userId, includeDefaults)
    ensures userId != "" && t.userId != Some(userId) ==> (Visible(t, userId, includeDefaults) <==> includeDefaults && t.isDefault)
    ensures userId == "" && includeDefaults ==> (Visible(t, userId, includeDefaults) <==> t.isDefault)
    ensures userId == "" && !includeDefaults ==> Visible(t, userId, includeDefaults)
  {
    if userId != "" then t.userId == Some(userId) || (includeDefaults && t.isDefault)
    else if includeDefaults then t.isDefault
    else true
  }

  /** The listing order: defaults first, then the newest first. */
  predicate Before(a: TemplateRecord, b: TemplateRecord)
    ensures Before(a, b) ==> a.isDefault || !b.isDefault
    ensures a.isDefault == b.isDefault ==> (Before(a, b) <==> a.createdAt >= b.createdAt)
  {
    (a.isDefault && !b.isDefault) || (a.isDefault == b.isDefault && a.createdAt >= b.createdAt)
  }

  predicate Sorted(s: seq<TemplateRecord>)
  {
    forall i, j :: 0 <= i < j < |s| ==> Before(s[i], s[j])
  }

  /** The visible templates, in their stored order, each as often as it is stored. */
  function Filter(ts: seq<TemplateRecord>, userId: string, includeDefaults: bool): (r: seq<TemplateRecord>)
    ensures forall t :: multiset(r)[t] == if Visible(t, userId, includeDefaults) then multiset(ts)[t] else 0
  {
    if |ts| == 0 then []
    else
      assert ts == [ts[0]] + ts[1..];
      (if Visible(ts[0], userId, includeDefaults) then [ts[0]] else []) + Filter(ts[1..], userId, includeDefaults)
  }

  /** `t` placed into a sorted sequence before the first template it may precede. */
  function Insert(t: TemplateRecord, s: seq<TemplateRecord>): (r: seq<TemplateRecord>)
    requires Sorted(s)
    ensures multiset(r) == multiset(s) + multiset{t}
    ensures Sorted(r)
  {
    if |s| == 0 then [t]
    else if Before(t, s[0]) then
      assert forall j :: 0 < j < |s| ==> Before(s[0], s[j]);
      [t] + s
    else
      var rest := Insert(t, s[1..]);
      assert s == [s[0]] + s[1..];
      FirstBeforeInserted(t, s, rest);
      ConsSorted(s[0], rest);
      [s[0]] + rest
  }

  /** The head of a sorted sequence precedes what inserting a later template into its tail gives. */
  lemma {:induction false} FirstBeforeInserted(t: TemplateRecord, s: seq<TemplateRecord>, rest: seq<TemplateRecord>)
    requires Sorted(s) && |s| > 0 && !Before(t, s[0])
    requires multiset(rest) == multiset(s[1..]) + multiset{t}
    ensures forall j :: 0 <= j < |rest| ==> Before(s[0], rest[j])
  {
    forall j | 0 <= j < |rest|
      ensures Before(s[0], rest[j])
    {
      assert rest[j] in multiset(rest);
      if rest[j] != t {
        assert rest[j] in s[1..];
        var k :| 0 <= k < |s[1..]| && s[1..][k] == rest[j];
        assert s[k + 1] == rest[j];
      }
    }
  }

  lemma {:induction false} ConsSorted(x: TemplateRecord, s: seq<TemplateRecord>)
    requires Sorted(s) && forall j :: 0 <= j < |s| ==> Before(x, s[j])
    ensures Sorted([x] + s)
  {
    forall i, j | 0 <= i < j < |[x] + s|
      ensures Before(([x] + s)[i], ([x] + s)[j])
    {
      if i == 0 {
        assert ([x] + s)[j] == s[j - 1];
      } else {
        assert ([x] + s)[i] == s[i - 1] && ([x] + s)[j] == s[j - 1];
      }
    }
  }

  function Sort(s: seq<TemplateRecord>): (r: seq<TemplateRecord>)
    ensures multiset(r) == multiset(s)
    ensures Sorted(r)
  {
    if |s| == 0 then []
    else
      assert s == s[..|s| - 1] + [s[|s| - 1]];
      Insert(s[|s| - 1], Sort(s[..|s| - 1]))
  }

  /** `findAll`: exactly the visible templates, each as often as stored, defaults first and then newest first. */
  function FindAll(ts: seq<TemplateRecord>, userId: string, includeDefaults: bool): (r: seq<TemplateRecord>)
    ensures forall t :: multiset(r)[t] == if Visible(t, userId, includeDefaults) then multiset(ts)[t] else 0
    ensures Sorted(r)
  {
    Sort(Filter(ts, userId, includeDefaults))
  }

  /** A caller's own templates are always listed. */
  lemma {:induction false} OwnTemplatesListed(ts: seq<TemplateRecord>, userId: string, includeDefaults: bool, t: TemplateRecord)
    requires t in ts && userId != "" && t.userId == Some(userId)
    ensures t in FindAll(ts, userId, includeDefaults)
  {
    assert multiset(FindAll(ts, userId, includeDefaults))[t] == multiset(ts)[t] > 0;
  }

  /** Excluding the defaults hides them from a signed-in caller who does not own them. */
  lemma {:induction false} ExcludedDefaultsHidden(ts: seq<TemplateRecord>, userId: string, t: TemplateRecord)
    requires userId != "" && t.userId != Some(userId)
    ensures t !in FindAll(ts, userId, false)
  {
    assert multiset(FindAll(ts, userId, false))[t] == 0;
  }

  /** An anonymous caller who excludes the defaults is shown every template. */
  lemma {:induction false} AnonymousSeesAll(ts: seq<TemplateRecord>)
    ensures multiset(FindAll(ts, "", false)) == multiset(ts)
  {
    var r := FindAll(ts, "", false);
    assert forall t :: multiset(r)[t] == multiset(ts)[t];
  }

  /** No default template is listed after one that is not. */
  lemma {:induction false} DefaultsFirst(r: seq<TemplateRecord>, i: nat, j: nat)
    requires Sorted(r) && i < j < |r| && r[j].isDefault
    ensures r[i].isDefault
  {
    assert Before(r[i], r[j]);
  }

  // Single templates

  /** `findOne`. */
  function FindOne(store: Store, id: string): (r: Result<TemplateRecord, Exception>)
    ensures r.Ok? <==> id in store
    ensures r.Ok? ==> r.value == store[id]
    ensures r.Err? ==> r.error == NotFound("Template not found")
  {
    if id in store then Ok(store[id]) else Err(NotFound("Template not found"))
  }

  /** The fields a caller sends to create a template. */
  datatype CreateDto = CreateDto(name: string, description: Option<string>, frontJson: Layout, backJson: Layout)

  /** `create`: a new template owned by the caller, stored under a fresh id; nothing is checked. */
  function Create(store: Store, id: string, createdAt: int, userId: string, dto: CreateDto): (r: Store)
    requires id !in store
    ensures r.Keys == store.Keys + {id}
    ensures r[id].userId == Some(userId) && !r[id].isDefault && r[id].name == dto.name
    ensures r[id].id == id && r[id].createdAt == createdAt && r[id].description == dto.description
    ensures r[id].frontJson == dto.frontJson && r[id].backJson == dto.backJson
    ensures forall k :: k in store ==> r[k] == store[k]
  {
    store[id := TemplateRecord(id, Some(userId), dto.name, dto.description, dto.frontJson, dto.backJson, false, createdAt)]
  }

  /**
   * The fields a caller may send to update a template: an empty name, a
   * missing description and missing layouts leave the stored value alone.
   */
  datatype UpdateDto = UpdateDto(name: string, description: Option<string>, frontJson: Option<Layout>, backJson: Option<Layout>)

  /** The template with the sent fields written over it. */
  function Patch(t: TemplateRecord, dto: UpdateDto): (r: TemplateRecord)
    ensures r.id == t.id && r.userId == t.userId && r.isDefault == t.isDefault && r.createdAt == t.createdAt
    ensures r.name == (if dto.name != "" then dto.name else t.name)
    ensures r.description == (if dto.description.Some? then dto.description else t.description)
    ensures r.frontJson == dto.frontJson.UnwrapOr(t.frontJson) && r.backJson == dto.backJson.UnwrapOr(t.backJson)
  {
    t.(name := if dto.name != "" then dto.name else t.name,
       description := if dto.description.Some? then dto.description else t.description,
       frontJson := dto.frontJson.UnwrapOr(t.frontJson),
       backJson := dto.backJson.UnwrapOr(t.backJson))
  }

  /** Sending the same fields twice changes nothing the second time. */
  lemma {:induction false} PatchIdempotent(t: TemplateRecord, dto: UpdateDto)
    ensures Patch(Patch(t, dto), dto) == Patch(t, dto)
  {
  }

  /** Sending no field leaves the template as it is. */
  lemma {:induction false} EmptyPatchIsIdentity(t: TemplateRecord)
    ensures Patch(t, UpdateDto("", None, None, None)) == t
  {
  }

  /** `update`: only the owner may update, and a default template not owned by the caller has its own refusal. */
  function Update(store: Store, id: string, userId: string, dto: UpdateDto): (r: Result<Store, Exception>)
    ensures id !in store ==> r == Err(NotFound("Template not found"))
    ensures id in store && store[id].userId != Some(userId) && store[id].isDefault ==>
      r == Err(Forbidden("Cannot update default templates"))
    ensures id in store && store[id].userId != Some(userId) && !store[id].isDefault ==>
      r == Err(Forbidden("You do not have permission to update this template"))
    ensures r.Ok? <==> id in store && store[id].userId == Some(userId)
    ensures r.Ok? ==> r.value == store[id := Patch(store[id], dto)]
  {
    match FindOne(store, id)
    case Err(x) => Err(x)
    case Ok(t) =>
      if t.userId != Some(userId) && t.isDefault then Err(Forbidden("Cannot update default templates"))
      else if t.userId != Some(userId) then Err(Forbidden("You do not have permission to update this template"))
      else Ok(store[id := Patch(t, dto)])
  }

  /** `remove`: default templates are never removed; others by their owner only. */
  function Remove(store: Store, id: string, userId: string): (r: Result<Store, Exception>)
    ensures id !in store ==> r == Err(NotFound("Template not found"))
    ensures id in store && store[id].isDefault ==> r == Err(Forbidden("Cannot delete default templates"))
    ensures id in store && !store[id].isDefault && store[id].userId != Some(userId) ==>
      r == Err(Forbidden("You do not have permission to delete this template"))
    ensures r.Ok? <==> id in store && !store[id].isDefault && store[id].userId == Some(userId)
    ensures r.Ok? ==> r.value == store - {id}
  {
    match FindOne(store, id)
    case Err(x) => Err(x)
    case Ok(t) =>
      if t.isDefault then Err(Forbidden("Cannot delete default templates"))
      else if t.userId != Some(userId) then Err(Forbidden("You do not have permission to delete this template"))
      else Ok(store - {id})
  }

  /** A user who owns a default template may update it but not remove it. */
  lemma {:induction false} OwnedDefaultUpdatableNotRemovable(store: Store, id: string, userId: string, dto: UpdateDto)
    requires id in store && store[id].isDefault && store[id].userId == Some(userId)
    ensures Update(store, id, userId, dto).Ok?
    ensures Remove(store, id, userId).Err?
  {
  }

  /** What a user creates, that user, and only that user, may update and remove. */
  lemma {:induction false} CreatorControls(store: Store, id: string, createdAt: int, userId: string, other: string,
                        dto: CreateDto, patch: UpdateDto)
    requires id !in store && other != userId
    ensures Update(Create(store, id, createdAt, userId, dto), id, userId, patch).Ok?
    ensures Remove(Create(store, id, createdAt, userId, dto), id, userId) == Ok(store)
    ensures Update(Create(store, id, createdAt, userId, dto), id, other, patch).Err?
    ensures Remove(Create(store, id, createdAt, userId, dto), id, other).Err?
  {
    var s := Create(store, id, createdAt, userId, dto);
    assert s - {id} == store;
  }

  /** An update changes neither who sees the template nor its place in the listing order. */
  lemma {:induction false} UpdateKeepsOrderKey(store: Store, id: string, userId: string, dto: UpdateDto)
    requires Update(store, id, userId, dto).Ok?
    ensures var t := Update(store, id, userId, dto).value[id];
      t.isDefault == store[id].isDefault && t.createdAt == store[id].createdAt
      && forall u, b :: Visible(t, u, b) == Visible(store[id], u, b)
  {
  }
}
