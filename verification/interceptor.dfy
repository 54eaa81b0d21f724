/** The page-context interceptor (inject.js): wrappers around the request
    object's `open` and `send`, the record built when a matched request
    completes, the delayed session-expiry read for UCD requests, and the
    `RESET_UCD_SEGMENTS` handler over the page's session storage. */
module Interceptor {
  import opened Js
  import opened Messages

  const RecommendationPattern: string := "recommendationv2.api.useinsider.com"
  const HitPattern: string := "hit.api.useinsider.com/hit"
  const UcdPattern: string := "ucd-web.api.useinsider.com/v1/get"
  /** The session-storage key that holds the UCD session expiry. */
  const SessionKey: string := "ins-uss"

  /** The three tests `send` makes on the URL recorded by `open`. */
  datatype UrlMatch = UrlMatch(isRecommendation: bool, isHit: bool, isUcd: bool)
  {
    predicate Captured()
    {
      isRecommendation || isHit || isUcd
    }
  }

  datatype Category = Recommendation | Hit | Ucd

  /** The URL tests, for a URL that `open` received as a string; a URL of
      any other kind, or none, matches nothing. */
  function MatchUrl(url: JsValue): (m: UrlMatch)
    ensures m.isRecommendation <==> url.Str? && Includes(url.s, RecommendationPattern)
    ensures m.isHit <==> url.Str? && Includes(url.s, HitPattern)
    ensures m.isUcd <==> url.Str? && Includes(url.s, UcdPattern)
    ensures !Truthy(url) ==> !m.Captured()
  {
    if url.Str? && Truthy(url) then
      UrlMatch(Includes(url.s, RecommendationPattern), Includes(url.s, HitPattern), Includes(url.s, UcdPattern))
    else
      UrlMatch(false, false, false)
  }

  /** What the `send` wrapper as written computes: `this._url && this._url.includes(...)`
      throws a TypeError for a truthy URL that is not a string (a URL
      object, say), since such a value has no `includes` method. */
  datatype SendCheck = ThrowsTypeError | Checked(m: UrlMatch)

  function MatchUrlAsWritten(url: JsValue): (r: SendCheck)
    ensures r.ThrowsTypeError? <==> Truthy(url) && !url.Str?
  {
    if !Truthy(url) then Checked(UrlMatch(false, false, false))
    else if url.Str? then
      Checked(UrlMatch(Includes(url.s, RecommendationPattern), Includes(url.s, HitPattern), Includes(url.s, UcdPattern)))
    else
      ThrowsTypeError
  }

  /** Counterexample: `open('GET', new URL(...))` followed by `send()` makes
      the wrapper throw before it reaches the page's own `send`, so the
      page's request is never dispatched. */
  lemma UrlObjectBlocksSendAsWritten()
    ensures MatchUrlAsWritten(Obj(map["href" := Str("https://recommendationv2.api.useinsider.com/v2")])) == ThrowsTypeError
  {
  }

  /** Outside that case the corrected tests agree with the code as written. */
  lemma MatchUrlAgreesWithAsWritten(url: JsValue)
    requires !Truthy(url) || url.Str?
    ensures MatchUrlAsWritten(url) == Checked(MatchUrl(url))
  {
  }

  /** The category of a captured URL: recommendation wins over hit, hit
      over UCD. */
  function CategoryOf(m: UrlMatch): (c: Category)
    requires m.Captured()
    ensures c == Recommendation <==> m.isRecommendation
    ensures c == Hit <==> !m.isRecommendation && m.isHit
    ensures c == Ucd <==> !m.isRecommendation && !m.isHit && m.isUcd
  {
    if m.isRecommendation then Recommendation else if m.isHit then Hit else Ucd
  }

  /** The `type` string a category is reported under. */
  function CategoryName(c: Category): string
  {
    match c
    case Recommendation => "recommendation"
    case Hit => "hit"
    case Ucd => "ucd"
  }

  /** The completed record: the request record with the response fields added. */
  function Complete(req: RequestData, status: JsValue, statusText: JsValue, response: JsValue): (r: ResponseData)
    ensures RequestPart(r) == req
    ensures r.status == status && r.statusText == statusText && r.response == response
  {
    ResponseData(req.url, req.httpMethod, req.body, req.timestamp, req.requestType, status, statusText, response)
  }

  /** The request record inside a completed record. */
  function RequestPart(r: ResponseData): RequestData
  {
    RequestData(r.url, r.httpMethod, r.body, r.timestamp, r.requestType)
  }

  /** A load listener registered by `send`: the request record and whether
      the URL matched the UCD pattern. */
  datatype LoadListener = LoadListener(request: RequestData, isUcd: bool)

  /** What the load listener does at once: post the completed record, and
      schedule the session-expiry read when the URL matched the UCD pattern. */
  datatype LoadEffect = LoadEffect(posted: Option<PageMessage>, schedulesSessionRead: bool)

  /** The load listener. `responseText` is None when reading it throws (a
      `responseType` other than "" or "text"); `cloneable` says whether
      `postMessage` can clone the completed record (a FormData body, say,
      makes it throw). Either throw ends the listener before anything is
      posted or scheduled. */
  function OnLoad(l: LoadListener, status: JsValue, statusText: JsValue, responseText: Option<JsValue>, cloneable: bool): (e: LoadEffect)
    ensures e.posted.Some? <==> responseText.Some? && cloneable
    ensures e.posted.None? ==> !e.schedulesSessionRead
    ensures e.posted.Some? ==> e.posted.value.XhrIntercepted? && RequestPart(e.posted.value.data) == l.request
    ensures e.posted.Some? ==> e.posted.value.data.status == status && e.posted.value.data.statusText == statusText
    ensures e.posted.Some? ==> e.posted.value.data.response == responseText.value
    ensures e.posted.Some? ==> (e.schedulesSessionRead <==> l.isUcd)
  {
    match responseText
    case None => LoadEffect(None, false)
    case Some(text) =>
      if !cloneable then LoadEffect(None, false)
      else LoadEffect(Some(XhrIntercepted(Complete(l.request, status, statusText, text))), l.isUcd)
  }

  /** The outcome of reading the session expiry: a value, or an exception. */
  datatype SessionRead = ReadThrew | Value(v: JsValue)

  /** The delayed callback's message: the value read, tagged with the
      original request's timestamp; a read that throws sends nothing. */
  function SessionExpireMessage(request: RequestData, read: SessionRead): (m: Option<PageMessage>)
    ensures m.Some? <==> read.Value?
    ensures m.Some? ==> m.value.UcdSessionExpire? && m.value.timestamp == request.timestamp
    ensures m.Some? ==> m.value.sessionExpire == read.v
  {
    match read
    case ReadThrew => None
    case Value(v) => Some(UcdSessionExpire(request.timestamp, v))
  }

  /** Argument `i` of a call, `undefined` when the call has fewer. */
  function Arg(args: seq<JsValue>, i: nat): JsValue
  {
    if i < |args| then args[i] else Undefined
  }

  /** The argument list the `open` wrapper as written hands on:
      `[method, url, ...args]` always fills the method and URL slots, so a
      call with fewer than two arguments gains explicit `undefined`s. */
  function OpenArgsAsWritten(args: seq<JsValue>): (f: seq<JsValue>)
    ensures |f| == if |args| < 2 then 2 else |args|
    ensures forall i :: 0 <= i < |args| ==> f[i] == args[i]
    ensures forall i :: |args| <= i < |f| ==> f[i] == Undefined
  {
    [Arg(args, 0), Arg(args, 1)] + (if |args| > 2 then args[2..] else [])
  }

  /** Counterexample: `open('GET')`, which the page's own `open` rejects for
      want of a URL, reaches it as `open('GET', undefined)`, a request to
      the relative URL "undefined". */
  lemma OneArgumentOpenAsWritten()
    ensures OpenArgsAsWritten([Str("GET")]) == [Str("GET"), Undefined]
    ensures OpenArgsAsWritten([Str("GET")]) != [Str("GET")]
  {
    assert |OpenArgsAsWritten([Str("GET")])| == 2;
  }

  /** From two arguments on, the wrapper as written hands on the call's own
      arguments, as the corrected `Xhr.Open` does for every call. */
  lemma OpenArgsAsWrittenKeepsTwoOrMore(args: seq<JsValue>)
    requires |args| >= 2
    ensures OpenArgsAsWritten(args) == args
  {
  }

  /** A wrapped call reaching the page's original method, with its arguments. */
  datatype NativeCall =
    | NativeOpen(openArgs: seq<JsValue>)
    | NativeSend(args: seq<JsValue>)

  /** A request object as the wrappers see it: `_method` and `_url` are the
      properties `open` records; the load listeners `send` registers and the
      calls handed on to the original methods are kept in order. */
  class Xhr {
    var httpMethod: JsValue
    var url: JsValue
    var loadListeners: seq<LoadListener>
    var delegated: seq<NativeCall>

    constructor()
      ensures httpMethod == Undefined && url == Undefined
      ensures loadListeners == [] && delegated == []
    {
      httpMethod := Undefined;
      url := Undefined;
      loadListeners := [];
      delegated := [];
    }

    /** `open(...args)`: records the method and URL (`undefined` when the
        call leaves them out), then calls the original `open` with the call's
        own arguments. Listeners registered by earlier sends stay. */
    method Open(args: seq<JsValue>)
      modifies this
      ensures httpMethod == Arg(args, 0) && url == Arg(args, 1)
      ensures loadListeners == old(loadListeners)
      ensures delegated == old(delegated) + [NativeOpen(args)]
    {
      httpMethod := Arg(args, 0);
      url := Arg(args, 1);
      delegated := delegated + [NativeOpen(args)];
    }

    /** `send(...args)` at clock reading `now`: a matched URL gets a load
        listener carrying the request record; every call, matched or not,
        is handed to the original `send` with its own arguments. */
    method Send(args: seq<JsValue>, now: int)
      modifies this
      ensures httpMethod == old(httpMethod) && url == old(url)
      ensures delegated == old(delegated) + [NativeSend(args)]
      ensures !MatchUrl(url).Captured() ==> loadListeners == old(loadListeners)
      ensures MatchUrl(url).Captured() ==>
        var m := MatchUrl(url);
        var body := Arg(args, 0);
        loadListeners == old(loadListeners)
          + [LoadListener(RequestData(url, httpMethod, body, now, Str(CategoryName(CategoryOf(m)))), m.isUcd)]
    {
      var m := MatchUrl(url);
      if m.Captured() {
        var body := Arg(args, 0);
        var request := RequestData(url, httpMethod, body, now, Str(CategoryName(CategoryOf(m))));
        loadListeners := loadListeners + [LoadListener(request, m.isUcd)];
      }
      delegated := delegated + [NativeSend(args)];
    }
  }

  /** `window.Insider?.storage?.session`, when every link is present: which
      of `get` and `remove` it offers. */
  datatype VendorSession = VendorSession(hasGet: bool, hasRemove: bool)

  /** The page's session state: the vendor accessor (None when any link of
      `window.Insider.storage.session` is missing), the entries it manages,
      and `window.sessionStorage` (None when touching it throws). */
  class PageSession {
    var vendor: Option<VendorSession>
    var vendorEntries: map<string, JsValue>
    var sessionStorage: Option<map<string, string>>

    constructor(vendor: Option<VendorSession>, vendorEntries: map<string, JsValue>, sessionStorage: Option<map<string, string>>)
      ensures this.vendor == vendor && this.vendorEntries == vendorEntries && this.sessionStorage == sessionStorage
    {
      this.vendor := vendor;
      this.vendorEntries := vendorEntries;
      this.sessionStorage := sessionStorage;
    }

    /** `window.Insider?.storage?.session?.get('ins-uss')`; None when the
        call throws (a session object without `get`). */
    function VendorGet(): Option<JsValue>
      reads this
    {
      match vendor
      case None => Some(Undefined)
      case Some(api) =>
        if !api.hasGet then None
        else Some(if SessionKey in vendorEntries then vendorEntries[SessionKey] else Undefined)
    }

    /** `sessionStorage.getItem('ins-uss')`; None when it throws. */
    function StorageGet(): Option<JsValue>
      reads this
    {
      match sessionStorage
      case None => None
      case Some(items) => Some(if SessionKey in items then Str(items[SessionKey]) else Null)
    }

    /** The session-expiry read: the vendor's value when truthy, otherwise
        the session-storage value; it fails when the step it needs throws. */
    function ReadInsUss(): (r: SessionRead)
      reads this
      ensures VendorGet().None? ==> r.ReadThrew?
      ensures VendorGet().Some? && Truthy(VendorGet().value) ==> r == Value(VendorGet().value)
      ensures VendorGet().Some? && !Truthy(VendorGet().value) ==>
        r == (if StorageGet().Some? then Value(StorageGet().value) else ReadThrew)
    {
      match VendorGet()
      case None => ReadThrew
      case Some(first) =>
        if Truthy(first) then Value(first)
        else
          match StorageGet()
          case None => ReadThrew
          case Some(second) => Value(second)
    }

    /** The window `message` listener: `RESET_UCD_SEGMENTS` from the page
        itself removes the `ins-uss` key, through the vendor accessor when it
        has `remove`, otherwise from `sessionStorage`; a session storage that
        throws is left alone. Everything else is ignored. */
    method OnWindowMessage(fromSameWindow: bool, msg: PageMessage)
      modifies this
      ensures vendor == old(vendor)
      ensures !fromSameWindow || !msg.ResetUcdSegments? ==> unchanged(this)
      ensures fromSameWindow && msg.ResetUcdSegments? && vendor.Some? && vendor.value.hasRemove ==>
        vendorEntries == old(vendorEntries) - {SessionKey} && sessionStorage == old(sessionStorage)
      ensures fromSameWindow && msg.ResetUcdSegments? && !(vendor.Some? && vendor.value.hasRemove) ==>
        && vendorEntries == old(vendorEntries)
        && sessionStorage == (if old(sessionStorage).Some? then Some(old(sessionStorage).value - {SessionKey}) else None)
    {
      if !fromSameWindow || !msg.ResetUcdSegments? {
        return;
      }
      if vendor.Some? && vendor.value.hasRemove {
        vendorEntries := vendorEntries - {SessionKey};
      } else if sessionStorage.Some? {
        sessionStorage := Some(sessionStorage.value - {SessionKey});
      }
    }
  }
}
