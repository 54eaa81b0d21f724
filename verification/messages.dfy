/** The messages that cross the two context boundaries: the page-context
    interceptor and the relay talk through same-window `postMessage`
    (PageMessage), the popup talks to the relay through extension messaging
    (Command). */
module Messages {
  import opened Js

  /** What the interceptor knows when a matched request is dispatched. */
  datatype RequestData = RequestData(
    url: JsValue,
    httpMethod: JsValue,
    body: JsValue,
    timestamp: int,
    requestType: JsValue)

  /** The request record extended with what the completed request reports. */
  datatype ResponseData = ResponseData(
    url: JsValue,
    httpMethod: JsValue,
    body: JsValue,
    timestamp: int,
    requestType: JsValue,
    status: JsValue,
    statusText: JsValue,
    response: JsValue)

  /** The `{ type, ... }` objects posted on the page window. */
  datatype PageMessage =
    | XhrIntercepted(data: ResponseData)
    | UcdSessionExpire(timestamp: int, sessionExpire: JsValue)
    | AddToCartIntercepted(productId: JsValue, product: JsValue, cartTimestamp: int)
    | GenerateTimeResponse(generateTime: JsValue)
    | ErrorBagResponse(errorCount: JsValue)
    | GetGenerateTime
    | GetErrorBag
    | ShowErrorBag
    | ResetUcdSegments
    | ToggleAddToCartTracking(enabled: JsValue)
    | OtherPageMessage(kind: JsValue)

  /** The `{ type, ... }` commands the popup sends to the relay. */
  datatype Command =
    | ResetUcdSegmentsCommand
    | ToggleAddToCartTrackingCommand(enabled: JsValue)
    | GetGenerateTimeCommand
    | GetErrorBagCommand
    | ShowErrorBagCommand
    | OtherCommand(kind: JsValue)

  /** What the relay does with one popup command: the page message it posts
      (if any) and whether it answers `{ success: true }`. */
  datatype CommandEffect = CommandEffect(forwarded: Option<PageMessage>, acknowledged: bool)

  /** The relay's `chrome.runtime.onMessage` listener: each known command is
      forwarded once into the page, under the same name and with the same
      payload, and acknowledged at once; anything else is neither. */
  function RelayCommand(c: Command): (e: CommandEffect)
    ensures e.acknowledged <==> e.forwarded.Some?
    ensures e.forwarded.Some? <==> !c.OtherCommand?
    ensures e.forwarded.Some? ==> CommandOf(e.forwarded.value) == Some(c)
  {
    match c
    case ResetUcdSegmentsCommand => CommandEffect(Some(ResetUcdSegments), true)
    case ToggleAddToCartTrackingCommand(enabled) => CommandEffect(Some(ToggleAddToCartTracking(enabled)), true)
    case GetGenerateTimeCommand => CommandEffect(Some(GetGenerateTime), true)
    case GetErrorBagCommand => CommandEffect(Some(GetErrorBag), true)
    case ShowErrorBagCommand => CommandEffect(Some(ShowErrorBag), true)
    case OtherCommand(_) => CommandEffect(None, false)
  }

  /** The command a page message answers to, read back from the message. */
  function CommandOf(m: PageMessage): Option<Command>
  {
    match m
    case ResetUcdSegments => Some(ResetUcdSegmentsCommand)
    case ToggleAddToCartTracking(enabled) => Some(ToggleAddToCartTrackingCommand(enabled))
    case GetGenerateTime => Some(GetGenerateTimeCommand)
    case GetErrorBag => Some(GetErrorBagCommand)
    case ShowErrorBag => Some(ShowErrorBagCommand)
    case _ => None
  }
}
