/**
 * The Express export route `GET /export/card/:id`: it checks the format and
 * the card's owner, makes the front and back layouts the same size, sends
 * them to the rendering service and turns its reply or error into the
 * response. The database lookup, the rendering service's reply and the
 * clock are parameters.
 */
module ExportRoute {
  import opened Wrappers
  import opened Strings
  import opened CardModel
  import opened Backend
  import opened RendererCall

  /** The formats the route accepts: exactly those with their own content type. */
  predicate ValidFormat(format: string)
    ensures ValidFormat(format) <==> ContentType(format) != "application/octet-stream"
  {
    format == "png" || format == "jpeg" || format == "pdf"
  }

  /** `req.query.format || 'png'`. */
  function FormatOf(query: string): (f: string)
    ensures query == "" ==> f == "png"
    ensures query != "" ==> f == query
  {
    if query != "" then query else "png"
  }

  /** A card with its populated template (None when the template no longer exists). */
  datatype StoredTemplate = StoredTemplate(frontJson: JsonField<Layout>, backJson: JsonField<Layout>)

  datatype StoredCard = StoredCard(userId: string, template: Option<StoredTemplate>, cardDataJson: JsonField<CardData>)

  /** `Card.findById`: the card, no card, or an id that is not an object id (a `CastError`). */
  datatype Lookup = Found(card: StoredCard) | NoCard | BadId

  /** The route's answer: a JSON error with its status, or the rendered file. */
  datatype Response =
    | JsonError(status: int, message: string)
    | File(contentType: string, filename: string, data: seq<bv8>)

  /** The body posted to the rendering service. */
  datatype RenderRequest = RenderRequest(front: Layout, back: Layout, cardData: CardData, format: string)

  /** What the route sent to the rendering service, if anything, and what it answered. */
  datatype Exchange = Exchange(request: Option<RenderRequest>, response: Response)

  const InvalidFormat: string := "Invalid format. Must be png, jpeg, or pdf"
  const CardNotFound: string := "Card not found"
  const NotYours: string := "You do not have permission to export this card"
  const ExportFailed: string := "Failed to export card"

  function Max(a: real, b: real): (m: real)
    ensures m >= a && m >= b && (m == a || m == b)
  {
    if a >= b then a else b
  }

  /**
   * The two layouts with identical width and height: the larger of the two
   * sides' values, a missing or zero width counting as 630 and height as 880.
   */
  function Normalize(front: Layout, back: Layout): (r: (Layout, Layout))
    ensures r.0.width == r.1.width && r.0.height == r.1.height
    ensures r.0.width == Some(Max(OrNumber(front.width, 630.0), OrNumber(back.width, 630.0)))
    ensures r.0.height == Some(Max(OrNumber(front.height, 880.0), OrNumber(back.height, 880.0)))
    ensures r.0 == front.(width := r.0.width, height := r.0.height)
    ensures r.1 == back.(width := r.1.width, height := r.1.height)
  {
    var w := Max(OrNumber(front.width, 630.0), OrNumber(back.width, 630.0));
    var h := Max(OrNumber(front.height, 880.0), OrNumber(back.height, 880.0));
    (front.(width := Some(w), height := Some(h)), back.(width := Some(w), height := Some(h)))
  }

  /** Each side keeps at least its own (defaulted) size. */
  lemma {:induction false} NormalizeNoSmaller(front: Layout, back: Layout)
    ensures var r := Normalize(front, back);
      r.0.width.value >= OrNumber(front.width, 630.0) && r.1.width.value >= OrNumber(back.width, 630.0)
      && r.0.height.value >= OrNumber(front.height, 880.0) && r.1.height.value >= OrNumber(back.height, 880.0)
  {
  }

  /** Normalizing again changes nothing: both sides already have the common size. */
  lemma {:induction false} NormalizeIdempotent(front: Layout, back: Layout)
    ensures var r := Normalize(front, back); Normalize(r.0, r.1) == r
  {
    var r := Normalize(front, back);
    var w := r.0.width.value;
    var h := r.0.height.value;
    assert w != 0.0 && h != 0.0;
    assert OrNumber(r.0.width, 630.0) == w && OrNumber(r.1.width, 630.0) == w;
    assert OrNumber(r.0.height, 880.0) == h && OrNumber(r.1.height, 880.0) == h;
  }

  /** The posted layouts and card data, or the 500 of the outer handler when the template is gone or a column does not parse. */
  function BuildRequest(card: StoredCard, format: string): (r: Result<RenderRequest, Response>)
    ensures r.Err? ==> r.error == JsonError(500, ExportFailed)
    ensures r.Err? <==>
      card.template.None? || Decode(card.template.value.frontJson).Err?
      || Decode(card.template.value.backJson).Err? || Decode(card.cardDataJson).Err?
    ensures r.Ok? ==>
      r.value.format == format && r.value.cardData == Decode(card.cardDataJson).value
      && (r.value.front, r.value.back) == Normalize(Decode(card.template.value.frontJson).value, Decode(card.template.value.backJson).value)
  {
    match card.template
    case None => Err(JsonError(500, ExportFailed))
    case Some(t) =>
      match (Decode(t.frontJson), Decode(t.backJson), Decode(card.cardDataJson))
      case (Ok(front), Ok(back), Ok(cardData)) =>
        var sides := Normalize(front, back);
        Ok(RenderRequest(sides.0, sides.1, cardData, format))
      case _ => Err(JsonError(500, ExportFailed))
  }

  /** `card-{id}-{Date.now()}.{format}`. */
  function Filename(cardId: string, now: nat, format: string): (name: string)
    ensures StartsWith(name, "card-" + cardId + "-")
    ensures |name| > |format| && name[|name| - |format| - 1..] == "." + format
  {
    "card-" + cardId + "-" + NatToString(now) + "." + format
  }

  /** The answer to a rendering service reply below status 500. */
  function ReplyResponse(reply: Reply, cardId: string, now: nat, format: string): (r: Response)
    ensures r.File? <==> IsSuccess(reply.status) && !Contains(OrString(reply.contentType, ContentType(format)), "application/json")
    ensures r.File? ==> r == File(OrString(reply.contentType, ContentType(format)), Filename(cardId, now, format), reply.data)
    ensures r.JsonError? ==> r.status == 500
    ensures !IsSuccess(reply.status) && reply.body.Json? ==>
      r.message == ServiceErrorMessage(ErrorMessage(Some(reply.body), "HTTP " + IntToString(reply.status)), reply.status)
  {
    if IsSuccess(reply.status) then
      var contentType := OrString(reply.contentType, ContentType(format));
      if Contains(contentType, "application/json") then
        // A body that is not JSON makes `JSON.parse` throw, which the inner handler reports as a failed render.
        if reply.body.NotJson? then JsonError(500, "Rendering failed")
        else JsonError(500, "Rendering service returned error: " + ErrorMessage(Some(reply.body), "Unknown rendering error"))
      else File(contentType, Filename(cardId, now, format), reply.data)
    else if reply.body.NotJson? then JsonError(500, "Rendering failed")
    else JsonError(500, ServiceErrorMessage(ErrorMessage(Some(reply.body), "HTTP " + IntToString(reply.status)), reply.status))
  }

  /** The answer to an HTTP-client error, checked in `Classify`'s order. */
  function ClientErrorResponse(e: ClientError, serviceUrl: string): (r: Response)
    ensures r.JsonError? && r.status == 500
    ensures Classify(e) == TimedOut ==> r.message == TimeoutMessage
    ensures Classify(e) == CannotConnect ==> r.message == CannotConnectMessage(serviceUrl)
    ensures Classify(e) == NetworkError ==> r.message == NetworkMessage(e)
    ensures Classify(e) == Generic ==> r.message == GenericMessage(e)
  {
    match Classify(e)
    case TimedOut => JsonError(500, TimeoutMessage)
    case CannotConnect => JsonError(500, CannotConnectMessage(serviceUrl))
    case NetworkError => JsonError(500, NetworkMessage(e))
    case ServiceError =>
      var reply := e.response.value;
      // Here `JSON.parse` throwing escapes to the outer handler.
      if reply.data == Some(NotJson) then JsonError(500, ExportFailed)
      else JsonError(500, ServiceErrorMessage(ErrorMessage(reply.data, OrString(e.message, "Unknown error")), reply.status))
    case Generic => JsonError(500, GenericMessage(e))
  }

  /** The whole route handler. */
  function ExportCard(cardId: string, userId: string, formatQuery: string, lookup: Lookup,
                      outcome: Outcome, serviceUrl: string, now: nat): (r: Exchange)
    ensures !ValidFormat(FormatOf(formatQuery)) ==> r == Exchange(None, JsonError(400, InvalidFormat))
    ensures ValidFormat(FormatOf(formatQuery)) && !lookup.Found? ==> r == Exchange(None, JsonError(404, CardNotFound))
    ensures ValidFormat(FormatOf(formatQuery)) && lookup.Found? && lookup.card.userId != userId ==>
      r == Exchange(None, JsonError(403, NotYours))
    ensures r.request.Some? ==>
      ValidFormat(FormatOf(formatQuery)) && lookup.Found? && lookup.card.userId == userId
      && r.request.value.format == FormatOf(formatQuery)
      && r.request.value.front.width == r.request.value.back.width
      && r.request.value.front.height == r.request.value.back.height
    ensures r.response.File? ==>
      r.request.Some? && outcome.Answered? && IsSuccess(outcome.reply.status)
      && !Contains(r.response.contentType, "application/json") && r.response.data == outcome.reply.data
      && r.response.filename == Filename(cardId, now, FormatOf(formatQuery))
    ensures r.request.Some? && outcome.Answered? && !IsSuccess(outcome.reply.status) ==> r.response.JsonError? && r.response.status == 500
    ensures ValidFormat(FormatOf(formatQuery)) && lookup.Found? && lookup.card.userId == userId ==>
      (r.request.Some? <==> BuildRequest(lookup.card, FormatOf(formatQuery)).Ok?)
    ensures ValidFormat(FormatOf(formatQuery)) && lookup.Found? && lookup.card.userId == userId
            && BuildRequest(lookup.card, FormatOf(formatQuery)).Err? ==>
      r == Exchange(None, BuildRequest(lookup.card, FormatOf(formatQuery)).error)
    ensures r.request.Some? && lookup.Found? ==>
      Ok(r.request.value) == BuildRequest(lookup.card, FormatOf(formatQuery))
      && r.response == (if outcome.Answered? then ReplyResponse(outcome.reply, cardId, now, FormatOf(formatQuery))
                        else ClientErrorResponse(outcome.error, serviceUrl))
  {
    var format := FormatOf(formatQuery);
    if !ValidFormat(format) then Exchange(None, JsonError(400, InvalidFormat))
    else match lookup
      case NoCard => Exchange(None, JsonError(404, CardNotFound))
      case BadId => Exchange(None, JsonError(404, CardNotFound))
      case Found(card) =>
        if card.userId != userId then Exchange(None, JsonError(403, NotYours))
        else match BuildRequest(card, format)
          case Err(response) => Exchange(None, response)
          case Ok(request) =>
            Exchange(Some(request), match outcome
              case Answered(reply) => ReplyResponse(reply, cardId, now, format)
              case Raised(e) => ClientErrorResponse(e, serviceUrl))
  }

  /** A successful status with a JSON content type is always an error, never a file. */
  lemma {:induction false} JsonSuccessIsError(reply: Reply, cardId: string, now: nat, format: string)
    requires IsSuccess(reply.status) && Contains(reply.contentType, "application/json")
    ensures ReplyResponse(reply, cardId, now, format) == JsonError(500,
      if reply.body.NotJson? then "Rendering failed"
      else "Rendering service returned error: " + ErrorMessage(Some(reply.body), "Unknown rendering error"))
  {
  }

  /** Without a content-type header the file takes the format's content type. */
  lemma {:induction false} FileTypeDefaultsToFormat(reply: Reply, cardId: string, now: nat, format: string)
    requires IsSuccess(reply.status) && reply.contentType == "" && ValidFormat(format)
    ensures ReplyResponse(reply, cardId, now, format) == File(ContentType(format), Filename(cardId, now, format), reply.data)
  {
    var t := ContentType(format);
    assert !Contains(t, "application/json") by {
      if format == "png" {
        NotContainsWithoutChar("image/png", "application/json", 3);
      } else if format == "jpeg" {
        NotContainsWithoutChar("image/jpeg", "application/json", 3);
      } else {
        NotContainsWithoutChar("application/pdf", "application/json", 12);
      }
    }
  }
}
