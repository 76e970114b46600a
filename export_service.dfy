/**
 * The NestJS export service, the second path from a saved card to a file:
 * it fetches the card with its template, parses the JSON columns, posts
 * them to the rendering service and raises an exception for every failure.
 * The database row, the rendering service's reply and the clock are
 * parameters.
 */
module ExportService {
  import opened Wrappers
  import opened Strings
  import opened CardModel
  import opened Backend
  import opened RendererCall
  import R = ExportRoute

  /** What `exportCard` resolves with. */
  datatype ExportResult = ExportResult(fileBuffer: seq<bv8>, contentType: string, filename: string, format: string, size: nat)

  /** What was posted to the rendering service, if anything, and how the export ended. */
  datatype Export = Export(request: Option<R.RenderRequest>, result: Result<ExportResult, Exception>)

  function CardMissing(cardId: string): Exception
  {
    NotFound("Card with ID " + cardId + " not found")
  }

  /** The card row, refused the same way whether it is missing or belongs to someone else. */
  function FetchCardWithTemplate(cardId: string, userId: string, row: Option<R.StoredCard>): (r: Result<R.StoredCard, Exception>)
    ensures r.Ok? <==> row.Some? && row.value.userId == userId && row.value.template.Some?
    ensures r.Ok? ==> r.value == row.value
    ensures row.None? || row.value.userId != userId ==> r == Err(CardMissing(cardId))
    ensures row.Some? && row.value.userId == userId && row.value.template.None? ==>
      r == Err(InternalError("Template not found for card " + cardId))
  {
    if row.None? || row.value.userId != userId then Err(CardMissing(cardId))
    else if row.value.template.None? then Err(InternalError("Template not found for card " + cardId))
    else Ok(row.value)
  }

  function InvalidData(message: string): Exception
  {
    InternalError("Invalid card data format: " + message)
  }

  /** The three JSON columns, parsed in order; the first parse error is reported. */
  function ParseCardData(card: R.StoredCard): (r: Result<(Layout, Layout, CardData), Exception>)
    requires card.template.Some?
    ensures r.Ok? <==>
      Decode(card.template.value.frontJson).Ok? && Decode(card.template.value.backJson).Ok?
      && Decode(card.cardDataJson).Ok?
    ensures r.Ok? ==>
      r.value == (Decode(card.template.value.frontJson).value, Decode(card.template.value.backJson).value,
                  Decode(card.cardDataJson).value)
    ensures Decode(card.template.value.frontJson).Err? ==> r == Err(InvalidData(Decode(card.template.value.frontJson).error))
    ensures Decode(card.template.value.frontJson).Ok? && Decode(card.template.value.backJson).Err? ==>
      r == Err(InvalidData(Decode(card.template.value.backJson).error))
    ensures (Decode(card.template.value.frontJson).Ok? && Decode(card.template.value.backJson).Ok?
             && Decode(card.cardDataJson).Err?) ==> r == Err(InvalidData(Decode(card.cardDataJson).error))
  {
    match Decode(card.template.value.frontJson)
    case Err(m) => Err(InvalidData(m))
    case Ok(front) =>
      match Decode(card.template.value.backJson)
      case Err(m) => Err(InvalidData(m))
      case Ok(back) =>
        match Decode(card.cardDataJson)
        case Err(m) => Err(InvalidData(m))
        case Ok(cardData) => Ok((front, back, cardData))
  }

  /** `handleAxiosError`: always an internal error, its message chosen in `Classify`'s order. */
  function HandleClientError(e: ClientError, serviceUrl: string): (x: Exception)
    ensures x.InternalError?
    ensures Classify(e) == TimedOut ==> x.message == TimeoutMessage
    ensures Classify(e) == CannotConnect ==> x.message == CannotConnectMessage(serviceUrl)
    ensures Classify(e) == NetworkError ==> x.message == NetworkMessage(e)
    ensures Classify(e) == ServiceError ==>
      x.message == ServiceErrorMessage(ErrorMessage(e.response.value.data, OrString(e.message, "Unknown error")), e.response.value.status)
    ensures Classify(e) == Generic ==> x.message == GenericMessage(e)
  {
    match Classify(e)
    case TimedOut => InternalError(TimeoutMessage)
    case CannotConnect => InternalError(CannotConnectMessage(serviceUrl))
    case NetworkError => InternalError(NetworkMessage(e))
    case ServiceError =>
      InternalError(ServiceErrorMessage(ErrorMessage(e.response.value.data, OrString(e.message, "Unknown error")), e.response.value.status))
    case Generic => InternalError(GenericMessage(e))
  }

  /**
   * `renderCard`: the reply's bytes for a successful, non-JSON reply; an
   * internal error otherwise. A body that is not JSON reads as no body.
   */
  function RenderCard(outcome: Outcome, serviceUrl: string): (r: Result<seq<bv8>, Exception>)
    ensures r.Ok? <==>
      outcome.Answered? && IsSuccess(outcome.reply.status)
      && !Contains(outcome.reply.contentType, "application/json")
    ensures r.Ok? ==> r.value == outcome.reply.data
    ensures r.Err? ==> r.error.InternalError?
    ensures outcome.Answered? && !IsSuccess(outcome.reply.status) ==>
      r == Err(InternalError(ServiceErrorMessage(
        ErrorMessage(Some(outcome.reply.body), "HTTP " + IntToString(outcome.reply.status)), outcome.reply.status)))
    ensures outcome.Answered? && IsSuccess(outcome.reply.status) && Contains(outcome.reply.contentType, "application/json") ==>
      r == Err(InternalError("Rendering service returned error: " + ErrorMessage(Some(outcome.reply.body), "Unknown rendering error")))
    ensures outcome.Raised? ==> r == Err(HandleClientError(outcome.error, serviceUrl))
  {
    match outcome
    case Raised(e) => Err(HandleClientError(e, serviceUrl))
    case Answered(reply) =>
      if IsSuccess(reply.status) then
        if Contains(reply.contentType, "application/json") then
          Err(InternalError("Rendering service returned error: " + ErrorMessage(Some(reply.body), "Unknown rendering error")))
        else Ok(reply.data)
      else Err(InternalError(ServiceErrorMessage(ErrorMessage(Some(reply.body), "HTTP " + IntToString(reply.status)), reply.status)))
  }

  /** `exportCard`: the file with the format's content type, or the first exception raised. */
  function ExportCard(cardId: string, userId: string, format: string, row: Option<R.StoredCard>,
                      outcome: Outcome, serviceUrl: string, now: nat): (r: Export)
    requires R.ValidFormat(format)
    ensures FetchCardWithTemplate(cardId, userId, row).Err? ==>
      r == Export(None, Err(FetchCardWithTemplate(cardId, userId, row).error))
    ensures row.None? || row.value.userId != userId ==> r == Export(None, Err(CardMissing(cardId)))
    ensures FetchCardWithTemplate(cardId, userId, row).Ok? && ParseCardData(row.value).Err? ==>
      r == Export(None, Err(ParseCardData(row.value).error))
    ensures FetchCardWithTemplate(cardId, userId, row).Ok? && ParseCardData(row.value).Ok? ==>
      r.request.Some? && (r.result.Ok? <==> RenderCard(outcome, serviceUrl).Ok?)
    ensures (FetchCardWithTemplate(cardId, userId, row).Ok? && ParseCardData(row.value).Ok?
             && RenderCard(outcome, serviceUrl).Err?) ==> r.result == Err(RenderCard(outcome, serviceUrl).error)
    ensures r.request.Some? ==>
      row.Some? && row.value.userId == userId && row.value.template.Some?
      && Decode(row.value.template.value.frontJson).Ok? && Decode(row.value.template.value.backJson).Ok?
      && Decode(row.value.cardDataJson).Ok?
      && r.request.value == R.RenderRequest(Decode(row.value.template.value.frontJson).value,
           Decode(row.value.template.value.backJson).value, Decode(row.value.cardDataJson).value, format)
    ensures r.result.Ok? ==>
      r.request.Some? && outcome.Answered? && IsSuccess(outcome.reply.status)
      && r.result.value == ExportResult(outcome.reply.data, ContentType(format), R.Filename(cardId, now, format),
                                        format, |outcome.reply.data|)
  {
    match FetchCardWithTemplate(cardId, userId, row)
    case Err(x) => Export(None, Err(x))
    case Ok(card) =>
      match ParseCardData(card)
      case Err(x) => Export(None, Err(x))
      case Ok(parsed) =>
        var request := R.RenderRequest(parsed.0, parsed.1, parsed.2, format);
        match RenderCard(outcome, serviceUrl)
        case Err(x) => Export(Some(request), Err(x))
        case Ok(buffer) =>
          Export(Some(request), Ok(ExportResult(buffer, ContentType(format), R.Filename(cardId, now, format), format, |buffer|)))
  }

  // How the two export paths differ

  /** Someone else's card: the route answers 403, the service reports the card as missing. */
  lemma {:induction false} StrangerSeesNotFound(cardId: string, userId: string, format: string, card: R.StoredCard,
                             outcome: Outcome, serviceUrl: string, now: nat)
    requires R.ValidFormat(format) && card.userId != userId
    ensures R.ExportCard(cardId, userId, format, R.Found(card), outcome, serviceUrl, now).response == R.JsonError(403, R.NotYours)
    ensures ExportCard(cardId, userId, format, Some(card), outcome, serviceUrl, now).result
        == ExportCard(cardId, userId, format, None, outcome, serviceUrl, now).result
        == Err(CardMissing(cardId))
  {
  }

  /** The route posts equal-sized sides; the service posts the layouts as stored. */
  lemma {:induction false} OnlyRouteNormalizes(cardId: string, userId: string, format: string, card: R.StoredCard,
                            outcome: Outcome, serviceUrl: string, now: nat)
    requires R.ValidFormat(format) && card.userId == userId
    requires ExportCard(cardId, userId, format, Some(card), outcome, serviceUrl, now).request.Some?
    ensures var sent := ExportCard(cardId, userId, format, Some(card), outcome, serviceUrl, now).request.value;
      var posted := R.ExportCard(cardId, userId, format, R.Found(card), outcome, serviceUrl, now).request;
      posted.Some? && (posted.value.front, posted.value.back) == R.Normalize(sent.front, sent.back)
      && posted.value.cardData == sent.cardData && posted.value.format == sent.format
  {
  }

  /**
   * A successful binary reply with its own content-type header: the route's
   * file carries the header, the service's result the format's type.
   */
  lemma {:induction false} ContentTypeSources(cardId: string, userId: string, format: string, card: R.StoredCard,
                           reply: Reply, serviceUrl: string, now: nat)
    requires R.ValidFormat(format) && card.userId == userId
    requires IsSuccess(reply.status) && reply.contentType != "" && !Contains(reply.contentType, "application/json")
    requires R.ExportCard(cardId, userId, format, R.Found(card), Answered(reply), serviceUrl, now).request.Some?
    ensures R.ExportCard(cardId, userId, format, R.Found(card), Answered(reply), serviceUrl, now).response
        == R.File(reply.contentType, R.Filename(cardId, now, format), reply.data)
    ensures ExportCard(cardId, userId, format, Some(card), Answered(reply), serviceUrl, now).result
        == Ok(ExportResult(reply.data, ContentType(format), R.Filename(cardId, now, format), format, |reply.data|))
  {
  }

  /**
   * An error status with a body that is not JSON: the route reports a failed
   * render, the service the status itself.
   */
  lemma {:induction false} UnreadableErrorBody(reply: Reply, cardId: string, now: nat, format: string, serviceUrl: string)
    requires !IsSuccess(reply.status) && reply.body.NotJson?
    ensures R.ReplyResponse(reply, cardId, now, format) == R.JsonError(500, "Rendering failed")
    ensures RenderCard(Answered(reply), serviceUrl)
        == Err(InternalError(ServiceErrorMessage("HTTP " + IntToString(reply.status), reply.status)))
  {
  }
}
