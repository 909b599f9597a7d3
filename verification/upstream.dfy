/** The upstream client's pure helpers: which headers a fetch forwards,
    how a failed response becomes the report's own error, and which path
    the match-history report fetches. */
module Upstream {
  import opened Json

  /** `_hdr`: the Authorization header is forwarded only when the caller sent
      a non-empty one; there is no default credential. */
  function Hdr(authorization: Option<string>): (h: map<string, string>)
    ensures "Authorization" in h <==> authorization.Some? && authorization.value != ""
    ensures "Authorization" in h ==> h["Authorization"] == authorization.value
    ensures forall key :: key in h ==> key == "Authorization"
  {
    if authorization.Some? && authorization.value != "" then map["Authorization" := authorization.value]
    else map[]
  }

  /** What the model keeps of an upstream HTTP response. */
  datatype UpstreamResponse = UpstreamResponse(status: int, text: string)

  /** The `requests` library's `Response.ok`: false exactly for the client
      and server error statuses 400 to 599. */
  predicate ResponseOk(status: int)
  {
    !(400 <= status < 600)
  }

  const MaxDetail: nat := 300

  /** The text between the status and the end of an error detail: at most
      the first 300 characters of the body. */
  function DetailBody(text: string): (d: string)
    ensures |d| == if |text| < MaxDetail then |text| else MaxDetail
    ensures d <= text
  {
    if text != "" then text[..if |text| < MaxDetail then |text| else MaxDetail] else ""
  }

  /** `_ensure_ok`: nothing happens on an ok response; otherwise the report
      fails with the upstream status code unchanged and a detail made of the
      url, an arrow, the status and the start of the body. */
  function EnsureOk(r: UpstreamResponse, url: string): (o: Result<()>)
    ensures o.Ok? <==> ResponseOk(r.status)
    ensures o.Err? ==> o.failure.Http? && o.failure.status == r.status
  {
    if ResponseOk(r.status) then Ok(())
    else Err(Http(r.status, url + " \U{2192} " + IntToString(r.status) + ": " + DetailBody(r.text)))
  }

  /** A failed fetch's detail starts with the failing url, then the status
      as decimal digits, and ends with the first 300 characters of the body
      (all of it when it is shorter). */
  lemma {:induction false} EnsureOkDetailShape(r: UpstreamResponse, url: string)
    requires !ResponseOk(r.status)
    ensures var o := EnsureOk(r, url);
      o.Err? && o.failure.status == r.status &&
      url <= o.failure.detail &&
      DigitsValue(o.failure.detail[|url| + 3..|url| + 3 + |IntToString(r.status)|]) == r.status &&
      exists body :: body <= r.text &&
        |body| == (if |r.text| < MaxDetail then |r.text| else MaxDetail) &&
        o.failure.detail == url + " \U{2192} " + IntToString(r.status) + ": " + body
  {
    var o := EnsureOk(r, url);
    var digits := IntToString(r.status);
    var d := o.failure.detail;
    assert d == url + " \U{2192} " + digits + ": " + DetailBody(r.text);
    assert d[|url| + 3..|url| + 3 + |digits|] == digits;
  }

  /** An upstream 404 surfaces as a 404 whose detail names the failing path. */
  lemma NotFoundNamesPath(text: string, url: string)
    ensures EnsureOk(UpstreamResponse(404, text), url).Err?
    ensures EnsureOk(UpstreamResponse(404, text), url).failure.status == 404
    ensures url <= EnsureOk(UpstreamResponse(404, text), url).failure.detail
  {
  }

  const DefaultHistoryPath := "/api/partidos/historial"

  function EndsWith(s: string, suffix: string): bool
  {
    |suffix| <= |s| && s[|s| - |suffix|..] == suffix
  }

  /** The match-history path: the configured one, unless it is empty or ends
      in "historico", in which case the default path is used. */
  function HistoryPath(configured: string): (path: string)
    ensures !EndsWith(path, "historico")
    ensures configured != "" && !EndsWith(configured, "historico") ==> path == configured
    ensures configured == "" || EndsWith(configured, "historico") ==> path == DefaultHistoryPath
  {
    var path := if configured != "" then configured else DefaultHistoryPath;
    if EndsWith(path, "historico") then DefaultHistoryPath else path
  }
}
