/**
 * The NestJS cards service: a card belongs to the user who created it, and
 * every read, update, removal and duplication of a card first checks that
 * the caller is that user. The database is a map from card id to record,
 * with the ids of the existing templates beside it.
 */
module CardsService {
  import opened Wrappers
  import opened CardModel
  import opened Backend
  import Builder

  datatype CardRecord = CardRecord(id: string, userId: string, templateId: string, cardDataJson: CardData, createdAt: int)

  type Store = map<string, CardRecord>

  // Listing

  predicate Newer(a: CardRecord, b: CardRecord)
  {
    a.createdAt >= b.createdAt
  }

  predicate NewestFirst(s: seq<CardRecord>)
    ensures NewestFirst(s) ==> forall i :: 0 <= i < |s| - 1 ==> s[i].createdAt >= s[i + 1].createdAt
    ensures |s| <= 1 ==> NewestFirst(s)
  {
    forall i, j :: 0 <= i < j < |s| ==> Newer(s[i], s[j])
  }

  /** The user's cards, in their stored order. */
  function OwnedBy(cs: seq<CardRecord>, userId: string): (r: seq<CardRecord>)
    ensures forall c :: multiset(r)[c] == if c.userId == userId then multiset(cs)[c] else 0
  {
    if |cs| == 0 then []
    else
      assert cs == [cs[0]] + cs[1..];
      (if cs[0].userId == userId then [cs[0]] else []) + OwnedBy(cs[1..], userId)
  }

  function Insert(c: CardRecord, s: seq<CardRecord>): (r: seq<CardRecord>)
    requires NewestFirst(s)
    ensures multiset(r) == multiset(s) + multiset{c}
    ensures NewestFirst(r)
  {
    if |s| == 0 then [c]
    else if Newer(c, s[0]) then [c] + s
    else
      var rest := Insert(c, s[1..]);
      assert s == [s[0]] + s[1..];
      HeadNewerThanInserted(c, s, rest);
      [s[0]] + rest
  }

  /** The head of a newest-first sequence is newer than everything inserting an older card into its tail gives. */
  lemma {:induction false} HeadNewerThanInserted(c: CardRecord, s: seq<CardRecord>, rest: seq<CardRecord>)
    requires NewestFirst(s) && |s| > 0 && !Newer(c, s[0])
    requires multiset(rest) == multiset(s[1..]) + multiset{c}
    ensures forall j :: 0 <= j < |rest| ==> Newer(s[0], rest[j])
  {
    forall j | 0 <= j < |rest|
      ensures Newer(s[0], rest[j])
    {
      assert rest[j] in multiset(rest);
      if rest[j] != c {
        assert rest[j] in s[1..];
      }
    }
  }

  function Sort(s: seq<CardRecord>): (r: seq<CardRecord>)
    ensures multiset(r) == multiset(s)
    ensures NewestFirst(r)
  {
    if |s| == 0 then []
    else
      assert s == s[..|s| - 1] + [s[|s| - 1]];
      Insert(s[|s| - 1], Sort(s[..|s| - 1]))
  }

  /** `findAll`: exactly the user's cards, newest first. */
  function FindAll(cs: seq<CardRecord>, userId: string): (r: seq<CardRecord>)
    ensures forall c :: multiset(r)[c] == if c.userId == userId then multiset(cs)[c] else 0
    ensures NewestFirst(r)
  {
    Sort(OwnedBy(cs, userId))
  }

  /** No one is shown another user's card. */
  lemma {:induction false} ListingIsPrivate(cs: seq<CardRecord>, userId: string, c: CardRecord)
    requires c in FindAll(cs, userId)
    ensures c.userId == userId && c in cs
  {
    assert multiset(FindAll(cs, userId))[c] > 0;
  }

  // Single cards

  const NotYours: string := "You do not have permission to view this card"

  /** `findOne`: a missing card, then a card of someone else. */
  function FindOne(store: Store, id: string, userId: string): (r: Result<CardRecord, Exception>)
    ensures id !in store ==> r == Err(NotFound("Card not found"))
    ensures id in store && store[id].userId != userId ==> r == Err(Forbidden(NotYours))
    ensures r.Ok? <==> id in store && store[id].userId == userId
    ensures r.Ok? ==> r.value == store[id]
  {
    if id !in store then Err(NotFound("Card not found"))
    else if store[id].userId != userId then Err(Forbidden(NotYours))
    else Ok(store[id])
  }

  datatype CreateCardDto = CreateCardDto(templateId: string, cardDataJson: CardData)

  /** `create`: the template must exist; the new card belongs to the caller. */
  function Create(store: Store, templates: set<string>, id: string, createdAt: int, userId: string, dto: CreateCardDto): (r: Result<Store, Exception>)
    requires id !in store
    ensures r.Err? <==> dto.templateId !in templates
    ensures r.Err? ==> r.error == NotFound("Template not found")
    ensures r.Ok? ==> r.value == store[id := CardRecord(id, userId, dto.templateId, dto.cardDataJson, createdAt)]
  {
    if dto.templateId !in templates then Err(NotFound("Template not found"))
    else Ok(store[id := CardRecord(id, userId, dto.templateId, dto.cardDataJson, createdAt)])
  }

  /** An empty template id and a missing card leave the stored value alone. */
  datatype UpdateCardDto = UpdateCardDto(templateId: string, cardDataJson: Option<CardData>)

  /** `update`: the ownership check, then the new template's existence, then the sent fields written. */
  function Update(store: Store, templates: set<string>, id: string, userId: string, dto: UpdateCardDto): (r: Result<Store, Exception>)
    ensures FindOne(store, id, userId).Err? ==> r == Err(FindOne(store, id, userId).error)
    ensures FindOne(store, id, userId).Ok? && dto.templateId != "" && dto.templateId !in templates ==>
      r == Err(NotFound("Template not found"))
    ensures r.Ok? <==> FindOne(store, id, userId).Ok? && (dto.templateId == "" || dto.templateId in templates)
    ensures r.Ok? ==>
      r.value.Keys == store.Keys
      && r.value[id] == store[id].(templateId := OrString(dto.templateId, store[id].templateId),
                                   cardDataJson := dto.cardDataJson.UnwrapOr(store[id].cardDataJson))
      && forall k :: k in store && k != id ==> r.value[k] == store[k]
  {
    match FindOne(store, id, userId)
    case Err(x) => Err(x)
    case Ok(card) =>
      if dto.templateId != "" && dto.templateId !in templates then Err(NotFound("Template not found"))
      else
        Ok(store[id := card.(templateId := OrString(dto.templateId, card.templateId),
                             cardDataJson := dto.cardDataJson.UnwrapOr(card.cardDataJson))])
  }

  /** `remove`: the ownership check, then the card is gone. */
  function Remove(store: Store, id: string, userId: string): (r: Result<Store, Exception>)
    ensures FindOne(store, id, userId).Err? ==> r == Err(FindOne(store, id, userId).error)
    ensures r.Ok? <==> FindOne(store, id, userId).Ok?
    ensures r.Ok? ==> r.value == store - {id}
  {
    match FindOne(store, id, userId)
    case Err(x) => Err(x)
    case Ok(_) => Ok(store - {id})
  }

  /** `duplicate`: the ownership check, then a new card of the caller with the same template and data. */
  function Duplicate(store: Store, id: string, userId: string, newId: string, createdAt: int): (r: Result<Store, Exception>)
    requires newId !in store
    ensures FindOne(store, id, userId).Err? ==> r == Err(FindOne(store, id, userId).error)
    ensures r.Ok? <==> FindOne(store, id, userId).Ok?
    ensures r.Ok? ==> r.value == store[newId := CardRecord(newId, userId, store[id].templateId, store[id].cardDataJson, createdAt)]
  {
    match FindOne(store, id, userId)
    case Err(x) => Err(x)
    case Ok(card) => Ok(store[newId := CardRecord(newId, userId, card.templateId, card.cardDataJson, createdAt)])
  }

  /** Another user's card: every operation is refused with the same permission error. */
  lemma {:induction false} StrangerRefused(store: Store, templates: set<string>, id: string, userId: string, newId: string,
                        createdAt: int, dto: UpdateCardDto)
    requires id in store && store[id].userId != userId && newId !in store
    ensures FindOne(store, id, userId) == Err(Forbidden(NotYours))
    ensures Update(store, templates, id, userId, dto) == Err(Forbidden(NotYours))
    ensures Remove(store, id, userId) == Err(Forbidden(NotYours))
    ensures Duplicate(store, id, userId, newId, createdAt) == Err(Forbidden(NotYours))
  {
  }

  /** A duplicate reads back as the same card under the new id, and the original is untouched. */
  lemma {:induction false} DuplicateReadsBack(store: Store, id: string, userId: string, newId: string, createdAt: int)
    requires newId !in store && Duplicate(store, id, userId, newId, createdAt).Ok?
    ensures var s := Duplicate(store, id, userId, newId, createdAt).value;
      FindOne(s, id, userId) == Ok(store[id])
      && FindOne(s, newId, userId).Ok?
      && FindOne(s, newId, userId).value.templateId == store[id].templateId
      && FindOne(s, newId, userId).value.cardDataJson == store[id].cardDataJson
  {
    assert id in store && id != newId;
  }

  /** An update reads back: the caller finds the card with the sent fields. */
  lemma {:induction false} UpdateReadsBack(store: Store, templates: set<string>, id: string, userId: string, dto: UpdateCardDto)
    requires Update(store, templates, id, userId, dto).Ok?
    ensures var s := Update(store, templates, id, userId, dto).value;
      FindOne(s, id, userId).Ok?
      && FindOne(s, id, userId).value.cardDataJson == dto.cardDataJson.UnwrapOr(store[id].cardDataJson)
      && (dto.templateId != "" ==> FindOne(s, id, userId).value.templateId == dto.templateId)
  {
  }

  /**
   * What the builder saves is stored as `Builder.NormalizedCard`, the card
   * data the preview is also given, owned by the user who saved it once the
   * chosen template exists.
   */
  lemma {:induction false} SavedCardStored(store: Store, templates: set<string>, id: string, createdAt: int, userId: string,
                        selectedTemplate: string, f: Builder.Form, selected: seq<string>, calculated: map<string, StatValue>)
    requires id !in store && selectedTemplate in templates
    requires Builder.Save(selectedTemplate, f, selected, calculated).Ok?
    ensures var c := Builder.Save(selectedTemplate, f, selected, calculated).value;
      var r := Create(store, templates, id, createdAt, userId, CreateCardDto(c.templateId, c.cardDataJson));
      r.Ok? && FindOne(r.value, id, userId) == Ok(CardRecord(id, userId, selectedTemplate,
                                                               Builder.NormalizedCard(f, selected, calculated), createdAt))
  {
  }
}
