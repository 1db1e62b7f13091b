/**
 * The browser side of the live stream: how a page turns the address the user
 * typed into the image source it loads (with a cache-busting timestamp), how it
 * derives the status endpoint from the stream address, and how it turns the
 * status endpoint's reply into a status message. Both the plain sample page and
 * the React hook use these.
 */
module StreamApi {
  import opened Wrappers
  import opened Text
  import opened Values

  const DefaultStreamUrl: string := "http://127.0.0.1:8000/video/stream"

  const Connecting: string := "connecting..."
  const Stopped: string := "stopped"
  const Live: string := "live"
  const NoFrame: string := "no frame yet or bad URL"
  const PublisherNotInitialized: string := "publisher not initialized"
  const WaitingForFrame: string := "waiting for first video frame"

  /** `normalizedStreamUrl`: the typed address without surrounding white space, or the default one. */
  function NormalizedStreamUrl(raw: string): (url: string)
    ensures url != []
  {
    var trimmed := JsTrim(raw);
    if trimmed == [] then DefaultStreamUrl else trimmed
  }

  /**
   * The address is the default exactly when the input is blank, and otherwise
   * a piece of the input with only white space around it; it never starts or
   * ends with white space, so normalising twice changes nothing.
   */
  lemma NormalizedStreamUrlSpec(raw: string)
    ensures var url := NormalizedStreamUrl(raw);
            && ((forall k :: 0 <= k < |raw| ==> IsJsSpace(raw[k])) ==> url == DefaultStreamUrl)
            && ((exists k :: 0 <= k < |raw| && !IsJsSpace(raw[k])) ==>
                  exists i :: OccursAt(raw, url, i)
                              && (forall k :: 0 <= k < i ==> IsJsSpace(raw[k]))
                              && (forall k :: i + |url| <= k < |raw| ==> IsJsSpace(raw[k])))
            && !IsJsSpace(url[0]) && !IsJsSpace(url[|url| - 1])
            && NormalizedStreamUrl(url) == url
  {
    TrimBySpec(raw, JavaScriptSpace);
    var url := NormalizedStreamUrl(raw);
    if JsTrim(raw) == [] {
      assert url == DefaultStreamUrl;
      assert !IsJsSpace(url[0]) && !IsJsSpace(url[|url| - 1]);
    }
    TrimByUnchanged(url, JavaScriptSpace);
  }

  /** The separator before the timestamp: `&` when the address already has a query, else `?`. */
  function QuerySeparator(url: string): char {
    if Contains(url, "?") then '&' else '?'
  }

  /**
   * The image source with the cache-busting timestamp `t=<now>` appended: the
   * address itself, the separator, `t=`, then the decimal timestamp, which reads
   * back as `now`.
   */
  function WithCacheBuster(url: string, now: nat): (r: string)
    ensures |r| > |url| + 3
    ensures r[..|url|] == url
    ensures r[|url|] == QuerySeparator(url) && r[|url| + 1..|url| + 3] == "t="
    ensures ParseNat(r[|url| + 3..]) == Some(now)
  {
    var r := url + [QuerySeparator(url)] + "t=" + NatToString(now);
    assert r[|url| + 3..] == NatToString(now);
    ParseNatToString(now);
    r
  }

  /** Two different timestamps never give the same image source. */
  lemma CacheBusterDistinct(url: string, a: nat, b: nat)
    requires a != b
    ensures WithCacheBuster(url, a) != WithCacheBuster(url, b)
  {
  }

  /** The characters the regular-expression `.` does not match. */
  predicate IsLineTerminator(c: char) {
    c == '\n' || c == '\r' || c == '\U{2028}' || c == '\U{2029}'
  }

  predicate NoLineTerminator(s: string) {
    forall k :: 0 <= k < |s| ==> !IsLineTerminator(s[k])
  }

  /** The pattern `/\/stream(\?.*)?$/` matches `s` from index `i` to its end. */
  predicate StreamTailAt(s: string, i: int) {
    OccursAt(s, "/stream", i)
    && (i + 7 == |s| || (s[i + 7] == '?' && NoLineTerminator(s[i + 8..])))
  }

  /** The leftmost index from `k` on where the pattern matches, as the regular-expression search finds it. */
  function FirstStreamTail(s: string, k: nat): (r: Option<nat>)
    ensures r.Some? ==> k <= r.value && StreamTailAt(s, r.value)
                        && forall j :: k <= j < r.value ==> !StreamTailAt(s, j)
    ensures r.None? ==> forall j :: k <= j ==> !StreamTailAt(s, j)
    decreases |s| - k
  {
    if k + 7 > |s| then None
    else if StreamTailAt(s, k) then Some(k)
    else FirstStreamTail(s, k + 1)
  }

  /**
   * `streamUrl.replace(/\/stream(\?.*)?$/, "/status")`: the leftmost match, a
   * `/stream` followed by nothing or by a query, is replaced by `/status`; an
   * address without a match is left as it is.
   */
  function StatusUrl(s: string): (r: string)
    ensures (forall j :: !StreamTailAt(s, j)) ==> r == s
    ensures (exists j :: StreamTailAt(s, j)) ==>
              exists i :: StreamTailAt(s, i) && (forall j :: 0 <= j < i ==> !StreamTailAt(s, j))
                          && r == s[..i] + "/status"
  {
    match FirstStreamTail(s, 0)
    case None => s
    case Some(i) => s[..i] + "/status"
  }

  /**
   * An address made of a part without `/stream`, then `/stream`, then nothing or
   * a one-line query maps to that part followed by `/status`: the query is dropped.
   */
  lemma StatusUrlOfStreamAddress(base: string, query: string)
    requires !Contains(base, "/stream")
    requires query == [] || (query[0] == '?' && NoLineTerminator(query[1..]))
    ensures StatusUrl(base + "/stream" + query) == base + "/status"
  {
    var s := base + "/stream" + query;
    assert s[|base|..|base| + 7] == "/stream";
    assert StreamTailAt(s, |base|) by {
      if query != [] {
        assert s[|base| + 7] == query[0];
        assert s[|base| + 8..] == query[1..];
      }
    }
    forall j | 0 <= j < |base|
      ensures !StreamTailAt(s, j)
    {
      if j + 7 <= |base| {
        assert base[j..j + 7] == s[j..j + 7];
        assert !OccursAt(base, "/stream", j);
      } else if j + 7 <= |s| {
        assert s[j..j + 7][|base| - j] == s[|base|] == '/';
        assert "/stream"[|base| - j] != '/';
      }
    }
    assert s[..|base|] == base;
  }

  /** Text without the letter `s` cannot contain `/stream`. */
  lemma NoStreamWithoutS(base: string)
    requires 's' !in base
    ensures !Contains(base, "/stream")
  {
    forall i | 0 <= i <= |base| - 7
      ensures !OccursAt(base, "/stream", i)
    {
      assert base[i + 1] in base;
      assert base[i..i + 7][1] == base[i + 1] != 's' == "/stream"[1];
    }
  }

  /** The default stream address maps to the default status address. */
  lemma DefaultStatusUrl(base: string)
    requires base == "http://127.0.0.1:8000/video"
    ensures DefaultStreamUrl == base + "/stream"
    ensures StatusUrl(DefaultStreamUrl) == base + "/status"
  {
    assert 's' !in base;
    NoStreamWithoutS(base);
    StatusUrlOfStreamAddress(base, "");
    assert base + "/stream" + "" == base + "/stream";
  }

  /**
   * What came back from the status endpoint: the request failed, the response
   * was not ok, the body was not JSON, or the parsed body.
   */
  datatype StatusReply = Unreachable | NotOk | NotJson | Body(payload: Json)

  /** JavaScript truthiness of a parsed JSON value: empty lists and objects are truthy. */
  predicate JsTruthy(v: Json) {
    match v
    case JNull => false
    case JBool(b) => b
    case JNum(n) => n != 0.0
    case JStr(s) => s != ""
    case JList(_) => true
    case JObj(_) => true
  }

  /** `payload.key` on a non-null payload is truthy; a missing property reads as `undefined`. */
  predicate PropertyTruthy(payload: Json, key: string) {
    payload.JObj? && key in payload.fields && JsTruthy(payload.fields[key])
  }

  /**
   * The message a status reply produces, or `None` when the current message is
   * kept: a failed request, a non-ok response, a body that is not JSON, and a
   * `null` body (reading a property of it throws, and the error is swallowed)
   * keep it; an uninitialised publisher, then a missing first frame, each have
   * their message; a ready publisher keeps it.
   */
  function StatusMessage(reply: StatusReply): (m: Option<string>)
    ensures m == Some(PublisherNotInitialized) <==>
              reply.Body? && reply.payload != JNull && !PropertyTruthy(reply.payload, "publisher_initialized")
    ensures m == Some(WaitingForFrame) <==>
              reply.Body? && reply.payload != JNull && PropertyTruthy(reply.payload, "publisher_initialized")
              && !PropertyTruthy(reply.payload, "has_frame")
    ensures m.None? <==>
              !reply.Body? || reply.payload == JNull
              || (PropertyTruthy(reply.payload, "publisher_initialized") && PropertyTruthy(reply.payload, "has_frame"))
  {
    match reply
    case Body(payload) =>
      if payload == JNull then None
      else if !PropertyTruthy(payload, "publisher_initialized") then Some(PublisherNotInitialized)
      else if !PropertyTruthy(payload, "has_frame") then Some(WaitingForFrame)
      else None
    case _ => None
  }

  /** The message shown after a reply: the new one, or the one already shown. */
  function AfterReply(reply: StatusReply, current: string): string {
    StatusMessage(reply).GetOr(current)
  }
}
