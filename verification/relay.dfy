/** The isolated-context relay (content.js): it classifies each captured
    request into a bucket, decodes analytics ("hit") bodies, and keeps the
    extension's local store. Every storage callback is one atomic transition
    of the `Store` object; a storage failure (the store unavailable, or
    `chrome.runtime.lastError` set) is the parameter `storageOk == false` and
    leaves the store as it was. */
module Relay {
  import opened Js
  import opened Messages

  /** The three store keys that hold captured requests. */
  datatype RequestBucket = RecommendationRequests | HitRequests | UcdRequests

  /** One element of a request bucket. `sessionExpire` is None until a
      session-expiry patch sets it. */
  datatype CapturedRequest = CapturedRequest(
    url: JsValue,
    httpMethod: JsValue,
    status: JsValue,
    body: JsValue,
    eventType: JsValue,
    pageType: JsValue,
    response: JsValue,
    timestamp: int,
    timeString: string,
    sessionExpire: Option<JsValue>)

  /** One element of the `addToCartRequests` bucket. */
  datatype CartRecord = CartRecord(productId: JsValue, product: JsValue, timestamp: int, timeString: string)

  /** The host functions the relay calls and whose workings are not modelled:
      `atob` (None when it throws), `JSON.parse` applied to any value
      (including its conversion of a non-string argument to text; None when
      it throws) and `new Date(t).toLocaleString()`. */
  datatype Natives = Natives(
    atob: string -> Option<string>,
    jsonParse: JsValue -> Option<JsValue>,
    localeString: int -> string)

  /** The bucket a captured request goes to: a falsy `type` counts as
      "recommendation", "hit" has its own bucket, and every other value,
      known or not, goes to the UCD bucket. */
  function StorageKey(requestType: JsValue): (k: RequestBucket)
    ensures k == RecommendationRequests <==> !Truthy(requestType) || requestType == Str("recommendation")
    ensures k == HitRequests <==> requestType == Str("hit")
  {
    var t := Or(requestType, Str("recommendation"));
    if t == Str("recommendation") then RecommendationRequests
    else if t == Str("hit") then HitRequests
    else UcdRequests
  }

  /** The transport decoding of a hit body: a string that does not start
      with `{` is passed through `atob`; anything else, and any string that
      `atob` rejects, is kept as it is. */
  function DecodeTransport(body: JsValue, atob: string -> Option<string>): (d: JsValue)
    ensures !body.Str? ==> d == body
    ensures body.Str? && StartsWith(body.s, "{") ==> d == body
    ensures body.Str? && atob(body.s).None? ==> d == body
    ensures body.Str? && !StartsWith(body.s, "{") && atob(body.s).Some? ==> d == Str(atob(body.s).value)
    ensures d != body ==> body.Str? && !StartsWith(body.s, "{") && atob(body.s).Some? && d == Str(atob(body.s).value)
  {
    if body.Str? && !StartsWith(body.s, "{") then
      match atob(body.s)
      case Some(text) => Str(text)
      case None => body
    else
      body
  }

  datatype EventInfo = EventInfo(eventType: JsValue, pageType: JsValue)

  /** `JSON.parse(...)[name]` as the relay sees it: a failed parse and a
      read that throws (the parsed value is null) both leave nothing, which
      reads as undefined. */
  function ParsedField(parsed: Option<JsValue>, name: string): JsValue
  {
    if parsed.Some? && Prop(parsed.value, name).Some? then Prop(parsed.value, name).value else Undefined
  }

  /** The event name and page type extracted from a parsed hit body; null
      stands for "not extracted". The event is taken only when truthy, the
      page type only for a "pageView" event with a truthy `page_type`. */
  function EventFields(parsed: Option<JsValue>): (e: EventInfo)
    ensures parsed.None? ==> e == EventInfo(Null, Null)
    ensures !Truthy(ParsedField(parsed, "event")) ==> e == EventInfo(Null, Null)
    ensures Truthy(ParsedField(parsed, "event")) ==> e.eventType == ParsedField(parsed, "event")
    ensures e.pageType != Null <==> e.eventType == Str("pageView") && Truthy(ParsedField(parsed, "page_type"))
    ensures e.pageType != Null ==> e.pageType == ParsedField(parsed, "page_type")
  {
    match parsed
    case None => EventInfo(Null, Null)
    case Some(obj) =>
      match Prop(obj, "event")
      case None => EventInfo(Null, Null)
      case Some(event) =>
        if !Truthy(event) then EventInfo(Null, Null)
        else
          match Prop(obj, "page_type")
          case Some(pageType) =>
            if event == Str("pageView") && Truthy(pageType) then EventInfo(event, pageType)
            else EventInfo(event, Null)
          case None => EventInfo(event, Null)
  }

  datatype StoredBody = StoredBody(body: JsValue, info: EventInfo)

  /** The body and event fields stored for a captured request. Only a hit
      request with a truthy body is decoded; the stored body is the decoded
      text even when it then fails to parse. */
  function NormalizeBody(requestType: JsValue, body: JsValue, n: Natives): (r: StoredBody)
    ensures requestType != Str("hit") || !Truthy(body) ==> r == StoredBody(body, EventInfo(Null, Null))
    ensures requestType == Str("hit") && Truthy(body) ==>
      r.body == DecodeTransport(body, n.atob) && r.info == EventFields(n.jsonParse(r.body))
  {
    if Or(requestType, Str("recommendation")) == Str("hit") && Truthy(body) then
      var decoded := DecodeTransport(body, n.atob);
      StoredBody(decoded, EventFields(n.jsonParse(decoded)))
    else
      StoredBody(body, EventInfo(Null, Null))
  }

  /** The record appended for an `XHR_INTERCEPTED` message: url, method,
      status, response and timestamp as received, the body and event fields
      as `NormalizeBody` gives them, the locale time string, and no session
      expiry yet. `statusText` and `type` are not stored. */
  function RecordOf(data: ResponseData, n: Natives): (r: CapturedRequest)
    ensures r.url == data.url && r.httpMethod == data.httpMethod && r.status == data.status
    ensures r.response == data.response && r.timestamp == data.timestamp
    ensures r.body == NormalizeBody(data.requestType, data.body, n).body
    ensures r.eventType == NormalizeBody(data.requestType, data.body, n).info.eventType
    ensures r.pageType == NormalizeBody(data.requestType, data.body, n).info.pageType
    ensures r.timeString == n.localeString(data.timestamp)
    ensures r.sessionExpire == None
  {
    var stored := NormalizeBody(data.requestType, data.body, n);
    CapturedRequest(data.url, data.httpMethod, data.status, stored.body,
                    stored.info.eventType, stored.info.pageType, data.response,
                    data.timestamp, n.localeString(data.timestamp), None)
  }

  /** `findIndex(req => req.timestamp === ts)`: the first record with the
      timestamp, or -1 when there is none. */
  function FindIndexByTimestamp(rs: seq<CapturedRequest>, ts: int): (i: int)
    ensures -1 <= i < |rs|
    ensures i == -1 <==> forall j :: 0 <= j < |rs| ==> rs[j].timestamp != ts
    ensures 0 <= i ==> rs[i].timestamp == ts && forall j :: 0 <= j < i ==> rs[j].timestamp != ts
  {
    if rs == [] then -1
    else if rs[0].timestamp == ts then 0
    else
      var k := FindIndexByTimestamp(rs[1..], ts);
      if k == -1 then -1 else k + 1
  }

  /** The UCD bucket after a session-expiry patch: the first record whose
      timestamp matches gets `sessionExpire`; nothing else changes, and
      without a match the bucket is returned as it is. */
  function PatchSessionExpire(rs: seq<CapturedRequest>, ts: int, v: JsValue): (r: seq<CapturedRequest>)
    ensures |r| == |rs|
    ensures FindIndexByTimestamp(rs, ts) == -1 ==> r == rs
    ensures forall j :: 0 <= j < |rs| && j != FindIndexByTimestamp(rs, ts) ==> r[j] == rs[j]
    ensures 0 <= FindIndexByTimestamp(rs, ts) ==>
      var i := FindIndexByTimestamp(rs, ts); r[i] == rs[i].(sessionExpire := Some(v))
  {
    var i := FindIndexByTimestamp(rs, ts);
    if i == -1 then rs else rs[i := rs[i].(sessionExpire := Some(v))]
  }

  /** Two buckets whose records carry the same timestamps, in the same
      order, have their first match at the same place. */
  lemma FindIndexFollowsTimestamps(a: seq<CapturedRequest>, b: seq<CapturedRequest>, ts: int)
    requires |a| == |b|
    requires forall j :: 0 <= j < |a| ==> a[j].timestamp == b[j].timestamp
    ensures FindIndexByTimestamp(a, ts) == FindIndexByTimestamp(b, ts)
  {
  }

  /** A second patch for the same timestamp lands on the same record and
      only its value survives. */
  lemma PatchTwiceKeepsLast(rs: seq<CapturedRequest>, ts: int, v: JsValue, w: JsValue)
    ensures PatchSessionExpire(PatchSessionExpire(rs, ts, v), ts, w) == PatchSessionExpire(rs, ts, w)
  {
  }

  /** A patch carrying the timestamp of a record just appended to a bucket
      where no other record has that timestamp patches exactly that record. */
  lemma PatchFindsAppendedRecord(rs: seq<CapturedRequest>, rec: CapturedRequest, v: JsValue)
    requires forall j :: 0 <= j < |rs| ==> rs[j].timestamp != rec.timestamp
    ensures PatchSessionExpire(rs + [rec], rec.timestamp, v) == rs + [rec.(sessionExpire := Some(v))]
  {
  }

  /** The extension-local store as the relay reads and writes it. A key
      that was never written is absent (None / not in the map). */
  class Store {
    var requests: map<RequestBucket, seq<CapturedRequest>>
    var addToCartRequests: Option<seq<CartRecord>>
    var insiderGenerateTime: Option<JsValue>
    var insiderErrorCount: Option<JsValue>

    constructor(requests: map<RequestBucket, seq<CapturedRequest>>, addToCartRequests: Option<seq<CartRecord>>,
                insiderGenerateTime: Option<JsValue>, insiderErrorCount: Option<JsValue>)
      ensures this.requests == requests && this.addToCartRequests == addToCartRequests
      ensures this.insiderGenerateTime == insiderGenerateTime && this.insiderErrorCount == insiderErrorCount
    {
      this.requests := requests;
      this.addToCartRequests := addToCartRequests;
      this.insiderGenerateTime := insiderGenerateTime;
      this.insiderErrorCount := insiderErrorCount;
    }

    /** `result[key] || []`: a missing bucket reads as empty. */
    function Bucket(key: RequestBucket): seq<CapturedRequest>
      reads this
    {
      if key in requests then requests[key] else []
    }

    function CartBucket(): seq<CartRecord>
      reads this
    {
      if addToCartRequests.Some? then addToCartRequests.value else []
    }

    /** `XHR_INTERCEPTED`: the record goes last in its bucket; earlier
        records, other buckets and the scalar keys stay as they were. */
    method OnXhrIntercepted(data: ResponseData, n: Natives, storageOk: bool)
      modifies this
      ensures !storageOk ==> unchanged(this)
      ensures storageOk ==>
        var key := StorageKey(data.requestType);
        && key in requests
        && |requests[key]| == |old(Bucket(key))| + 1
        && requests[key][..|old(Bucket(key))|] == old(Bucket(key))
        && requests[key][|old(Bucket(key))|] == RecordOf(data, n)
        && forall k :: k != key ==> (k in requests <==> k in old(requests)) && (k in requests ==> requests[k] == old(requests)[k])
      ensures addToCartRequests == old(addToCartRequests)
      ensures insiderGenerateTime == old(insiderGenerateTime) && insiderErrorCount == old(insiderErrorCount)
    {
      var key := StorageKey(data.requestType);
      var record := RecordOf(data, n);
      if !storageOk {
        return;
      }
      var bucket := Bucket(key);
      bucket := bucket + [record];
      requests := requests[key := bucket];
    }

    /** `UCD_SESSION_EXPIRE`: patches the first UCD record with the given
        timestamp and rewrites that bucket; without a match nothing is
        written. */
    method OnUcdSessionExpire(ts: int, sessionExpire: JsValue, storageOk: bool)
      modifies this
      ensures !storageOk || FindIndexByTimestamp(old(Bucket(UcdRequests)), ts) == -1 ==> unchanged(this)
      ensures storageOk && FindIndexByTimestamp(old(Bucket(UcdRequests)), ts) != -1 ==>
        requests == old(requests)[UcdRequests := PatchSessionExpire(old(Bucket(UcdRequests)), ts, sessionExpire)]
      ensures addToCartRequests == old(addToCartRequests)
      ensures insiderGenerateTime == old(insiderGenerateTime) && insiderErrorCount == old(insiderErrorCount)
    {
      if !storageOk {
        return;
      }
      var bucket := Bucket(UcdRequests);
      var i := FindIndexByTimestamp(bucket, ts);
      if i != -1 {
        bucket := bucket[i := bucket[i].(sessionExpire := Some(sessionExpire))];
        requests := requests[UcdRequests := bucket];
      }
    }

    /** `ADD_TO_CART_INTERCEPTED`: the cart record goes last in its bucket;
        nothing else changes. */
    method OnAddToCartIntercepted(productId: JsValue, product: JsValue, ts: int, n: Natives, storageOk: bool)
      modifies this
      ensures !storageOk ==> unchanged(this)
      ensures storageOk ==>
        && addToCartRequests.Some?
        && |addToCartRequests.value| == |old(CartBucket())| + 1
        && addToCartRequests.value[..|old(CartBucket())|] == old(CartBucket())
        && addToCartRequests.value[|old(CartBucket())|] == CartRecord(productId, product, ts, n.localeString(ts))
      ensures requests == old(requests)
      ensures insiderGenerateTime == old(insiderGenerateTime) && insiderErrorCount == old(insiderErrorCount)
    {
      if !storageOk {
        return;
      }
      var bucket := CartBucket();
      bucket := bucket + [CartRecord(productId, product, ts, n.localeString(ts))];
      addToCartRequests := Some(bucket);
    }

    /** `GENERATE_TIME_RESPONSE`: overwrites `insiderGenerateTime` only. */
    method OnGenerateTimeResponse(generateTime: JsValue, storageOk: bool)
      modifies this
      ensures insiderGenerateTime == if storageOk then Some(generateTime) else old(insiderGenerateTime)
      ensures requests == old(requests) && addToCartRequests == old(addToCartRequests)
      ensures insiderErrorCount == old(insiderErrorCount)
    {
      if storageOk {
        insiderGenerateTime := Some(generateTime);
      }
    }

    /** `ERROR_BAG_RESPONSE`: overwrites `insiderErrorCount` only. */
    method OnErrorBagResponse(errorCount: JsValue, storageOk: bool)
      modifies this
      ensures insiderErrorCount == if storageOk then Some(errorCount) else old(insiderErrorCount)
      ensures requests == old(requests) && addToCartRequests == old(addToCartRequests)
      ensures insiderGenerateTime == old(insiderGenerateTime)
    {
      if storageOk {
        insiderErrorCount := Some(errorCount);
      }
    }

    /** Script start: in the top frame the four request buckets become
        empty; the two scalar keys are left alone. A nested frame changes
        nothing. */
    method ResetOnLoad(isTopFrame: bool)
      modifies this
      ensures !isTopFrame ==> unchanged(this)
      ensures isTopFrame ==>
        && requests.Keys == {RecommendationRequests, HitRequests, UcdRequests}
        && (forall k :: k in requests ==> requests[k] == [])
        && addToCartRequests == Some([])
      ensures insiderGenerateTime == old(insiderGenerateTime) && insiderErrorCount == old(insiderErrorCount)
    {
      if isTopFrame {
        requests := map[RecommendationRequests := [], HitRequests := [], UcdRequests := []];
        addToCartRequests := Some([]);
      }
    }

    /** The window `message` listener: messages from another source are
        ignored; each handled type goes to its handler. Each store key is
        written only by the message type that owns it. */
    method OnWindowMessage(fromSameWindow: bool, msg: PageMessage, n: Natives, storageOk: bool)
      modifies this
      ensures !fromSameWindow ==> unchanged(this)
      ensures requests != old(requests) ==> msg.XhrIntercepted? || msg.UcdSessionExpire?
      ensures addToCartRequests != old(addToCartRequests) ==> msg.AddToCartIntercepted?
      ensures insiderGenerateTime != old(insiderGenerateTime) ==> msg.GenerateTimeResponse?
      ensures insiderErrorCount != old(insiderErrorCount) ==> msg.ErrorBagResponse?
    {
      if !fromSameWindow {
        return;
      }
      match msg
      case XhrIntercepted(data) => OnXhrIntercepted(data, n, storageOk);
      case UcdSessionExpire(ts, sessionExpire) => OnUcdSessionExpire(ts, sessionExpire, storageOk);
      case AddToCartIntercepted(productId, product, ts) => OnAddToCartIntercepted(productId, product, ts, n, storageOk);
      case GenerateTimeResponse(generateTime) => OnGenerateTimeResponse(generateTime, storageOk);
      case ErrorBagResponse(errorCount) => OnErrorBagResponse(errorCount, storageOk);
      case _ =>
    }
  }
}
