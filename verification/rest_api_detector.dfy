/**
 The REST API detector: finds the REST API base URL, name and description of the
 site asked for, trying the site itself first and WordPress.com second. Each stage
 reports the URLs it requested next to its outcome, in request order.
 */
module RestApiDetector {
  import opened Wrappers
  import opened Json
  import opened PhpStrings
  import opened WordPress
  import DiscoveryMarker

  /** A `RestApiDetectorError`, reduced to the code and message of the `WP_Error` it wraps. */
  datatype Error = Error(code: Json, message: Json)

  const NoJson: Error :=
    Error(JStr("no_json"), JStr("The WordPress site has an error in its REST API data."))

  const UnknownResponse: Error :=
    Error(JStr("unknown_response"), JStr("The WordPress site responded with an unexpected response."))

  function TransportFailure(code: string, message: string): Error {
    Error(JStr(code), JStr(message))
  }

  /** An outcome together with the URLs requested to reach it. */
  datatype Traced<T> = Traced(outcome: T, requests: seq<string>)

  /** What a successful index fetch writes into the detector. */
  datatype Index = Index(name: Json, description: Json, restApiUrl: string)

  /** The detector's fields after a successful detection. */
  datatype SiteInfo = SiteInfo(site: string, name: Json, description: Json, restApiUrl: string, local: bool)

  /** The index reports an error of its own: both `code` and `message` are set. */
  predicate HasError(data: Json) {
    IsSet(data, "code") && IsSet(data, "message")
  }

  /** The index describes a site: both `name` and `description` are set. */
  predicate HasSiteInfo(data: Json) {
    IsSet(data, "name") && IsSet(data, "description")
  }

  /**
   `info` is what a successful fetch of the index at `url` writes: the decoded
   name and description, verbatim, and `url` followed by `wp/v2/`.
   */
  predicate ReadFromIndex(p: Platform, url: string, info: Index) {
    && p.http(url).Body?
    && HasSiteInfo(p.decode(p.http(url).body))
    && info.name == p.decode(p.http(url).body).fields["name"]
    && info.description == p.decode(p.http(url).body).fields["description"]
    && info.restApiUrl == url + "wp/v2/"
  }

  // ---------------------------------------------------------------------------
  // The REST API index
  // ---------------------------------------------------------------------------

  function Classify(indexUrl: string, data: Json): Result<Index, Error> {
    if !IsArray(data) then Failure(NoJson)
    else if HasError(data) then Failure(Error(data.fields["code"], data.fields["message"]))
    else if HasSiteInfo(data) then
      Success(Index(data.fields["name"], data.fields["description"], indexUrl + "wp/v2/"))
    else Failure(UnknownResponse)
  }

  /** `fetchWpJsonRootInfo`: one GET of the index URL, then a four-way classification of the decoded body. */
  function FetchIndex(p: Platform, indexUrl: string): (t: Traced<Result<Index, Error>>)
    ensures t.requests == [indexUrl]
    ensures p.http(indexUrl).TransportError? ==>
      t.outcome == Failure(TransportFailure(p.http(indexUrl).code, p.http(indexUrl).message))
    ensures t.outcome.Success? ==> ReadFromIndex(p, indexUrl, t.outcome.value)
    ensures p.http(indexUrl).Body? ==>
      var data := p.decode(p.http(indexUrl).body);
      && (!IsArray(data) ==> t.outcome == Failure(NoJson))
      && (IsArray(data) && HasError(data) ==>
            t.outcome == Failure(Error(data.fields["code"], data.fields["message"])))
      && (t.outcome.Success? <==> IsArray(data) && !HasError(data) && HasSiteInfo(data))
      && (IsArray(data) && !HasError(data) && !HasSiteInfo(data) ==> t.outcome == Failure(UnknownResponse))
  {
    match p.http(indexUrl)
    case TransportError(code, message) => Traced(Failure(TransportFailure(code, message)), [indexUrl])
    case Body(body) => Traced(Classify(indexUrl, p.decode(body)), [indexUrl])
  }

  // ---------------------------------------------------------------------------
  // The self-hosted probe
  // ---------------------------------------------------------------------------

  /** What the homepage probe yields: the `false` sentinel, or the outcome the index fetch (or the probe itself) reached. */
  datatype Probe = NotSelfHosted | Probed(result: Result<Index, Error>)

  /** `getSelfHostedSiteInfo`: GET the homepage and follow its discovery marker to the index. */
  function SelfHosted(p: Platform, site: string): (t: Traced<Probe>)
    ensures 1 <= |t.requests| <= 2 && t.requests[0] == site
    ensures t.outcome.NotSelfHosted? <==>
      p.http(site).Body? && DiscoveryMarker.PregMatch(p.http(site).body).NoMatch?
    ensures t.outcome.NotSelfHosted? ==> t.requests == [site]
    ensures t.outcome.Probed? && t.outcome.result.Success? ==>
      ReadFromIndex(p, t.requests[|t.requests| - 1], t.outcome.result.value)
    ensures p.http(site).TransportError? ==>
      t == Traced(Probed(Failure(TransportFailure(p.http(site).code, p.http(site).message))), [site])
    ensures p.http(site).Body? && DiscoveryMarker.PregMatch(p.http(site).body).Matched? ==>
      var href := DiscoveryMarker.PregMatch(p.http(site).body).groups[1];
      t == Traced(Probed(FetchIndex(p, href).outcome), [site, href])
  {
    match p.http(site)
    case TransportError(code, message) =>
      Traced(Probed(Failure(TransportFailure(code, message))), [site])
    case Body(body) =>
      var m := DiscoveryMarker.PregMatch(body);
      if m.NoMatch? || |m.groups| != 2 then Traced(NotSelfHosted, [site])
      else
        var index := FetchIndex(p, m.groups[1]);
        Traced(Probed(index.outcome), [site, m.groups[1]])
  }

  // ---------------------------------------------------------------------------
  // The WordPress.com fallback
  // ---------------------------------------------------------------------------

  const WordPressComApi: string := "https://public-api.wordpress.com/rest/v1.1/sites/"

  /** The WordPress.com index URL for a site: the API prefix, then the site with `http://` and `https://` removed. */
  function WordPressComUrl(site: string): string {
    WordPressComApi + StripSchemes(site)
  }

  /** `getWordPressComSiteInfo`: delegate to the index fetch at the WordPress.com URL and return its outcome unchanged. */
  function WordPressCom(p: Platform, site: string): (t: Traced<Result<Index, Error>>)
    ensures t.requests == [WordPressComUrl(site)]
    ensures StartsWith(t.requests[0], WordPressComApi)
    ensures t.outcome == FetchIndex(p, WordPressComUrl(site)).outcome
    ensures t.outcome.Success? ==> ReadFromIndex(p, t.requests[0], t.outcome.value)
  {
    FetchIndex(p, WordPressComUrl(site))
  }

  // ---------------------------------------------------------------------------
  // Detection
  // ---------------------------------------------------------------------------

  /** The scheme test of `getSiteInfo` is a substring test, not a prefix test. */
  predicate HasScheme(s: string) {
    Contains(s, "http://") || Contains(s, "https://")
  }

  /** Adds `http://` when the input names neither scheme anywhere. */
  function AddMissingScheme(s: string): (r: string)
    ensures HasScheme(r)
    ensures HasScheme(s) ==> r == s
    ensures !HasScheme(s) ==> r == "http://" + s
  {
    if HasScheme(s) then s else "http://" + s
  }

  /** The URL the probe and the fallback are built from: sanitised and slash-terminated. */
  function ProbeUrl(p: Platform, site: string): (r: string)
    ensures |r| > 0 && r[|r| - 1] == '/'
  {
    Trailingslashit(p.sanitize(site))
  }

  function LocalInfo(local: LocalSite): SiteInfo {
    SiteInfo(local.url, JStr(local.name), JStr(local.description), local.restUrl, true)
  }

  /** A remote index outcome as the detector's fields: the stored site, what the index wrote, and `local` false. */
  function Remote(site: string, r: Result<Index, Error>): Result<SiteInfo, Error> {
    match r
    case Success(ix) => Success(SiteInfo(site, ix.name, ix.description, ix.restApiUrl, false))
    case Failure(e) => Failure(e)
  }

  /**
   `getSiteInfo` for a site the user named, once the scheme is in place: probe the
   site itself, then fall back to WordPress.com on the no-marker sentinel only.
   */
  function DetectRemote(p: Platform, stored: string): (t: Traced<Result<SiteInfo, Error>>)
    ensures var probe := ProbeUrl(p, stored);
      && 1 <= |t.requests| <= 2
      && t.requests[0] == probe
      // the stored site is neither sanitised nor slash-terminated, and the detector is not local
      && (t.outcome.Success? ==> t.outcome.value.site == stored && !t.outcome.value.local)
      // the WordPress.com fallback runs only on the no-marker sentinel, and its outcome is final
      && (SelfHosted(p, probe).outcome.NotSelfHosted? ==>
            t == Traced(Remote(stored, WordPressCom(p, probe).outcome), [probe, WordPressComUrl(probe)]))
      && (SelfHosted(p, probe).outcome.Probed? ==>
            t == Traced(Remote(stored, SelfHosted(p, probe).outcome.result), SelfHosted(p, probe).requests))
  {
    var probeUrl := ProbeUrl(p, stored);
    var probe := SelfHosted(p, probeUrl);
    match probe.outcome
    case Probed(r) => Traced(Remote(stored, r), probe.requests)
    case NotSelfHosted =>
      var fallback := WordPressCom(p, probeUrl);
      Traced(Remote(stored, fallback.outcome), probe.requests + fallback.requests)
  }

  /**
   The constructor followed by `getSiteInfo`: the fields of the detector when it
   returns, or the error it throws.
   */
  function Detect(p: Platform, site: Option<string>): (t: Traced<Result<SiteInfo, Error>>)
    // the local branch sends nothing and reports the running site
    ensures PhpEmpty(site) ==> t == Traced(Success(LocalInfo(p.local)), [])
    ensures t.outcome.Success? ==> (t.outcome.value.local <==> PhpEmpty(site))
    ensures |t.requests| <= 2
    // otherwise the scheme is added when the input names none, and the site is probed
    ensures !PhpEmpty(site) ==> t == DetectRemote(p, AddMissingScheme(site.value))
  {
    if PhpEmpty(site) then Traced(Success(LocalInfo(p.local)), [])
    else DetectRemote(p, AddMissingScheme(site.value))
  }
}
