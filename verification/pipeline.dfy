/** How the interceptor's messages land in the relay's store: the category
    the interceptor reports picks the bucket, and the session-expiry message
    of a UCD request patches the record that request produced. */
module Pipeline {
  import opened Js
  import opened Messages
  import R = Relay
  import I = Interceptor

  /** The bucket the interceptor intends for each category. */
  function BucketOf(c: I.Category): R.RequestBucket
  {
    match c
    case Recommendation => R.RecommendationRequests
    case Hit => R.HitRequests
    case Ucd => R.UcdRequests
  }

  /** A completed request whose response text could be read and whose
      record could be posted is stored in the bucket of the category its URL
      was given, and with the fields the interceptor recorded. */
  lemma CapturedRequestReachesItsBucket(x: JsValue, now: int, args: seq<JsValue>, httpMethod: JsValue,
                                        status: JsValue, statusText: JsValue, responseText: JsValue, n: R.Natives)
    requires I.MatchUrl(x).Captured()
    ensures var m := I.MatchUrl(x);
            var body := I.Arg(args, 0);
            var request := RequestData(x, httpMethod, body, now, Str(I.CategoryName(I.CategoryOf(m))));
            var data := I.OnLoad(I.LoadListener(request, m.isUcd), status, statusText, Some(responseText), true).posted.value.data;
            var rec := R.RecordOf(data, n);
            && R.StorageKey(data.requestType) == BucketOf(I.CategoryOf(m))
            && rec.url == x && rec.httpMethod == httpMethod && rec.timestamp == now
            && rec.status == status && rec.response == responseText
            && (I.CategoryOf(m) != I.Hit ==> rec.body == body)
  {
  }

  /** The delayed callback of a UCD request whose record was just appended
      to the UCD bucket (no earlier record sharing its timestamp) reads the
      page's session expiry: a read that throws posts nothing, and a value
      read is posted and patches that record and no other. */
  lemma UcdPatchReachesItsRecord(l: I.LoadListener, status: JsValue, statusText: JsValue, responseText: JsValue,
                                 n: R.Natives, bucket: seq<R.CapturedRequest>, page: I.PageSession)
    requires l.request.requestType == Str("ucd")
    requires forall j :: 0 <= j < |bucket| ==> bucket[j].timestamp != l.request.timestamp
    ensures var data := I.OnLoad(l, status, statusText, Some(responseText), true).posted.value.data;
            var read := page.ReadInsUss();
            var msg := I.SessionExpireMessage(l.request, read);
            var rec := R.RecordOf(data, n);
            && R.StorageKey(data.requestType) == R.UcdRequests
            && (msg.Some? <==> read.Value?)
            && (msg.Some? ==>
                  R.PatchSessionExpire(bucket + [rec], msg.value.timestamp, msg.value.sessionExpire)
                  == bucket + [rec.(sessionExpire := Some(read.v))])
  {
  }

  /** A URL that matches both the recommendation and the UCD pattern is
      stored as a recommendation, yet its load listener still schedules the
      session-expiry read, whose patch then looks in the UCD bucket. */
  lemma MixedUrlSchedulesPatchOutsideItsBucket(x: JsValue, request: RequestData, status: JsValue, statusText: JsValue, responseText: JsValue)
    requires I.MatchUrl(x).isRecommendation && I.MatchUrl(x).isUcd
    requires request.requestType == Str(I.CategoryName(I.CategoryOf(I.MatchUrl(x))))
    ensures var effect := I.OnLoad(I.LoadListener(request, I.MatchUrl(x).isUcd), status, statusText, Some(responseText), true);
            effect.schedulesSessionRead && R.StorageKey(effect.posted.value.data.requestType) == R.RecommendationRequests
  {
  }
}
