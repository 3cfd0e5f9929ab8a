/** Properties of the detector that relate several calls or several components. */
module DetectorProperties {
  import opened Wrappers
  import opened Json
  import opened PhpStrings
  import opened WordPress
  import opened RestApiDetector
  import DiscoveryMarker

  /** Adding the missing scheme a second time changes nothing. */
  lemma AddMissingSchemeIdempotent(s: string)
    ensures AddMissingScheme(AddMissingScheme(s)) == AddMissingScheme(s)
  {
  }

  /** The error shape is checked first: an index carrying all four keys is an error, never a success. */
  lemma ErrorShapeWins(p: Platform, indexUrl: string)
    requires p.http(indexUrl).Body?
    requires HasError(p.decode(p.http(indexUrl).body)) && HasSiteInfo(p.decode(p.http(indexUrl).body))
    ensures var data := p.decode(p.http(indexUrl).body);
      FetchIndex(p, indexUrl).outcome == Failure(Error(data.fields["code"], data.fields["message"]))
  {
  }

  /** A failing homepage fetch is final: the error is the transport's, and WordPress.com is never asked. */
  lemma TransportErrorIsFinal(p: Platform, stored: string)
    ensures var probe := ProbeUrl(p, stored);
      p.http(probe).TransportError? ==>
        DetectRemote(p, stored) ==
          Traced(Failure(TransportFailure(p.http(probe).code, p.http(probe).message)), [probe])
  {
  }

  /**
   The homepage decides the route: with no discovery marker the WordPress.com index
   is fetched next, and with one, the captured href, unchanged, is.
   */
  lemma MarkerDecidesRoute(p: Platform, stored: string)
    ensures var probe := ProbeUrl(p, stored);
      p.http(probe).Body? ==>
        var m := DiscoveryMarker.PregMatch(p.http(probe).body);
        && (m.NoMatch? ==>
              DetectRemote(p, stored) ==
                Traced(Remote(stored, FetchIndex(p, WordPressComUrl(probe)).outcome), [probe, WordPressComUrl(probe)]))
        && (m.Matched? ==>
              DetectRemote(p, stored) ==
                Traced(Remote(stored, FetchIndex(p, m.groups[1]).outcome), [probe, m.groups[1]]))
  {
  }

  /**
   A remote success is read off the index requested last: that URL followed by
   `wp/v2/`, and the name and description the index itself reported.
   */
  lemma SuccessReadFromLastIndex(p: Platform, stored: string)
    ensures var t := DetectRemote(p, stored);
      t.outcome.Success? ==>
        var info := t.outcome.value;
        ReadFromIndex(p, t.requests[|t.requests| - 1], Index(info.name, info.description, info.restApiUrl))
  {
    var probe := ProbeUrl(p, stored);
    var selfHosted := SelfHosted(p, probe);
    var t := DetectRemote(p, stored);
    if t.outcome.Success? {
      if selfHosted.outcome.NotSelfHosted? {
        var fallback := WordPressCom(p, probe);
        assert t.outcome == Remote(stored, fallback.outcome);
        assert t.requests[|t.requests| - 1] == fallback.requests[0];
      } else {
        assert t.outcome == Remote(stored, selfHosted.outcome.result);
        assert t.requests == selfHosted.requests;
      }
    }
  }

  /**
   Detection depends on the network only through the URLs it requested: any other
   oracle that answers those URLs the same way yields the same detection.
   */
  lemma DependsOnlyOnRequested(p: Platform, http': string -> Response, site: Option<string>)
    requires forall u :: u in Detect(p, site).requests ==> http'(u) == p.http(u)
    ensures Detect(p.(http := http'), site) == Detect(p, site)
  {
    if !PhpEmpty(site) {
      var probe := ProbeUrl(p, AddMissingScheme(site.value));
      assert probe in Detect(p, site).requests;
      if p.http(probe).Body? {
        var m := DiscoveryMarker.PregMatch(p.http(probe).body);
        if m.Matched? {
          assert m.groups[1] in Detect(p, site).requests;
        } else {
          assert WordPressComUrl(probe) in Detect(p, site).requests;
        }
      }
    }
  }

  /** Position `j` of the prefix can only start the head literal inside the prefix, since the prefix ends its line. */
  lemma HeadInsideLine(pre: string, rest: string, j: nat)
    requires j < |pre| && pre[|pre| - 1] == '\n'
    ensures StartsWith((pre + rest)[j..], DiscoveryMarker.Head) ==> OccursAt(pre, DiscoveryMarker.Head, j)
  {
    var head := DiscoveryMarker.Head;
    var body := pre + rest;
    if StartsWith(body[j..], head) {
      assert forall k :: 0 <= k < |head| ==> head[k] != '\n';
      forall idx | j <= idx < j + |head|
        ensures body[idx] != '\n'
      {
        assert body[idx] == body[j..][..|head|][idx - j] == head[idx - j];
      }
      assert body[|pre| - 1] == '\n';
      assert j + |head| <= |pre|;
      assert pre[j..j + |head|] == body[j..][..|head|];
    }
  }

  /** A discovery link tag in the form WordPress prints it in a page head. */
  function LinkTag(href: string): string {
    "<" + DiscoveryMarker.Head + href + "' />"
  }

  lemma LinkTagShape(pre: string, href: string, post: string)
    ensures var body := pre + LinkTag(href) + post;
      && body[|pre|] == '<'
      && body[|pre| + 1..] == DiscoveryMarker.Head + href + "' />" + post
  {
    var body := pre + LinkTag(href) + post;
    assert body[|pre|..] == LinkTag(href) + post;
  }

  lemma LinkTagMatches(pre: string, href: string, post: string)
    requires '\n' !in href
    ensures DiscoveryMarker.MatchesAt(pre + LinkTag(href) + post, |pre| + 1, href)
  {
    var head, tail := DiscoveryMarker.Head, DiscoveryMarker.Tail;
    var body := pre + LinkTag(href) + post;
    LinkTagShape(pre, href, post);
    assert (head + href + "' />" + post)[..|head + href + tail|] == head + href + tail;
  }

  lemma NothingBeforeLinkTag(pre: string, href: string, post: string)
    requires !Contains(pre, DiscoveryMarker.Head)
    requires |pre| == 0 || pre[|pre| - 1] == '\n'
    ensures forall j: nat :: j <= |pre| ==> DiscoveryMarker.NoMatchAt(pre + LinkTag(href) + post, j)
  {
    var head := DiscoveryMarker.Head;
    var rest := LinkTag(href) + post;
    var body := pre + LinkTag(href) + post;
    assert body == pre + rest;
    LinkTagShape(pre, href, post);
    ContainsIffOccurs(pre, head);
    forall j: nat | j <= |pre|
      ensures DiscoveryMarker.NoMatchAt(body, j)
    {
      if j < |pre| {
        HeadInsideLine(pre, rest, j);
      } else {
        assert body[j..][0] == '<' != head[0];
      }
      DiscoveryMarker.NoHeadNoMatch(body, j);
    }
  }

  lemma NothingLongerInLinkTag(pre: string, href: string, post: string)
    requires |post| == 0 || post[0] == '\n'
    ensures forall c :: DiscoveryMarker.MatchesAt(pre + LinkTag(href) + post, |pre| + 1, c) ==> |c| <= |href|
  {
    var body := pre + LinkTag(href) + post;
    var p := |pre| + 1 + |DiscoveryMarker.Head|;
    LinkTagShape(pre, href, post);
    var after := body[p + |href|..];
    assert after == "' />" + post;
    assert body[p + |href| + 1] == ' ' && body[p + |href| + 2] == '/' && body[p + |href| + 3] == '>';
    assert |post| > 0 ==> body[p + |href| + 4] == '\n';
    forall c | DiscoveryMarker.MatchesAt(body, |pre| + 1, c)
      ensures |c| <= |href|
    {
      DiscoveryMarker.MatchShape(body, |pre| + 1, c);
      assert body[p + |c|..][0] == '\'';
    }
  }

  /**
   A homepage whose first discovery link tag stands on its own line is detected,
   and the captured href is exactly the tag's href, whatever characters it holds.
   */
  lemma DiscoveryLinkCaptured(pre: string, href: string, post: string)
    requires !Contains(pre, DiscoveryMarker.Head)
    requires |pre| == 0 || pre[|pre| - 1] == '\n'
    requires '\n' !in href
    requires |post| == 0 || post[0] == '\n'
    ensures var m := DiscoveryMarker.PregMatch(pre + LinkTag(href) + post);
      m.Matched? && m.groups[1] == href
  {
    var body := pre + LinkTag(href) + post;
    var i := |pre| + 1;
    LinkTagMatches(pre, href, post);
    NothingBeforeLinkTag(pre, href, post);
    NothingLongerInLinkTag(pre, href, post);
    assert DiscoveryMarker.LeftmostLongest(body, i, href);
    var m := DiscoveryMarker.PregMatch(body);
    assert DiscoveryMarker.IsCapture(body, m.groups[1]);
    var i' :| DiscoveryMarker.LeftmostLongest(body, i', m.groups[1]);
    DiscoveryMarker.LeftmostLongestUnique(body, i, href, i', m.groups[1]);
  }

  // ---------------------------------------------------------------------------
  // Worked examples
  // ---------------------------------------------------------------------------

  /** An index object holding just a name and a description. */
  function SiteIndex(name: Json, description: Json): Json {
    JObject(map["name" := name, "description" := description])
  }

  lemma SiteIndexShape(name: Json, description: Json)
    requires name != JNull && description != JNull
    ensures var data := SiteIndex(name, description);
      && IsArray(data) && !HasError(data) && HasSiteInfo(data)
      && data.fields["name"] == name && data.fields["description"] == description
  {
    var data := SiteIndex(name, description);
    assert "code"[0] != "name"[0] && "code"[0] != "description"[0];
    assert "code" !in data.fields;
  }

  /** A homepage that is nothing but the discovery link tag yields its href. */
  lemma LinkTagAlone(href: string)
    requires '\n' !in href
    ensures var m := DiscoveryMarker.PregMatch(LinkTag(href));
      m.Matched? && m.groups[1] == href
  {
    assert !Contains("", DiscoveryMarker.Head);
    DiscoveryLinkCaptured("", href, "");
    assert "" + LinkTag(href) + "" == LinkTag(href);
  }

  /**
   The capture is greedy: when another single-quoted tag closing in `' />` follows the
   discovery link on the same line, as in a page with its line breaks stripped, the
   captured href runs on to that tag's closing quote.
   */
  lemma GreedyCaptureSpansTags(href: string, other: string)
    requires '\n' !in href && '\n' !in other
    ensures var m := DiscoveryMarker.PregMatch(LinkTag(href) + ShortlinkOpen + other + TagClose);
      m.Matched? && m.groups[1] == href + TagClose + ShortlinkOpen + other
  {
    var spanned := href + TagClose + ShortlinkOpen + other;
    Regroup("<" + DiscoveryMarker.Head, href, TagClose + ShortlinkOpen + other, TagClose);
    assert LinkTag(href) + ShortlinkOpen + other + TagClose == LinkTag(spanned);
    LinkTagAlone(spanned);
  }

  /** The closing of a single-quoted self-closing tag, and the opening of WordPress's shortlink tag. */
  const TagClose := "' />"
  const ShortlinkOpen := "<link rel='shortlink' href='"

  lemma Regroup(a: string, b: string, c: string, d: string)
    ensures a + b + c + d == a + (b + c) + d
  {
  }

  /** A homepage that is nothing but the discovery link tag sends the probe to its href. */
  lemma ProbeFollowsLinkTag(p: Platform, home: string, href: string)
    requires '\n' !in href
    requires p.http(home) == Body(LinkTag(href))
    ensures SelfHosted(p, home) == Traced(Probed(FetchIndex(p, href).outcome), [home, href])
  {
    LinkTagAlone(href);
  }

  /** A host named without a scheme is stored with `http://` in front and probed with a slash behind. */
  lemma SchemelessHost(p: Platform, host: string)
    requires !HasScheme(host) && |host| > 0 && !IsSlash(host[|host| - 1])
    requires p.sanitize("http://" + host) == "http://" + host
    ensures AddMissingScheme(host) == "http://" + host
    ensures ProbeUrl(p, "http://" + host) == "http://" + host + "/"
  {
    var url := "http://" + host;
    assert url[|url| - 1] == host[|host| - 1];
  }

  /**
   A self-hosted site named without a scheme: the homepage's discovery link leads
   to an index with a name and a description, and the stored site keeps no trailing slash.
   */
  lemma SelfHostedScenario(p: Platform, host: string, href: string, name: Json, description: Json)
    requires !HasScheme(host) && |host| > 0 && !IsSlash(host[|host| - 1]) && host != "0"
    requires p.sanitize("http://" + host) == "http://" + host
    requires '\n' !in href
    requires p.http("http://" + host + "/") == Body(LinkTag(href))
    requires p.http(href).Body?
    requires p.decode(p.http(href).body) == SiteIndex(name, description)
    requires name != JNull && description != JNull
    ensures Detect(p, Some(host)) ==
      Traced(
        Success(SiteInfo("http://" + host, name, description, href + "wp/v2/", false)),
        ["http://" + host + "/", href])
  {
    var home := "http://" + host + "/";
    SchemelessHost(p, host);
    ProbeFollowsLinkTag(p, home, href);
    SiteIndexShape(name, description);
    var index := FetchIndex(p, href);
    assert index.outcome == Success(Index(name, description, href + "wp/v2/"));
    assert DetectRemote(p, "http://" + host) ==
      Traced(Success(SiteInfo("http://" + host, name, description, href + "wp/v2/", false)), [home, href]);
  }

  /**
   A site whose homepage has no discovery link is looked up on WordPress.com under
   its slash-terminated domain, and the index found there describes it.
   */
  lemma WordPressComScenario(p: Platform, host: string, name: Json, description: Json)
    requires !HasScheme(host) && !HasScheme(host + "/")
    requires |host| > 0 && !IsSlash(host[|host| - 1]) && host != "0"
    requires p.sanitize("http://" + host) == "http://" + host
    requires p.http("http://" + host + "/").Body?
    requires !Contains(p.http("http://" + host + "/").body, DiscoveryMarker.Head)
    requires p.http(WordPressComApi + host + "/").Body?
    requires p.decode(p.http(WordPressComApi + host + "/").body) == SiteIndex(name, description)
    requires name != JNull && description != JNull
    ensures Detect(p, Some(host)) ==
      Traced(
        Success(SiteInfo("http://" + host, name, description, WordPressComApi + host + "/" + "wp/v2/", false)),
        ["http://" + host + "/", WordPressComApi + host + "/"])
  {
    var home := "http://" + host + "/";
    SchemelessHost(p, host);
    DiscoveryMarker.NoHeadLiteralNoMarker(p.http(home).body);
    StripSchemesOfUrl(host + "/");
    assert "http://" + (host + "/") == home;
    assert WordPressComUrl(home) == WordPressComApi + host + "/";
    SiteIndexShape(name, description);
  }

  /** An index reporting its own error is forwarded verbatim, even when the homepage was found. */
  lemma RemoteErrorExample(p: Platform, indexUrl: string)
    requires p.http(indexUrl).Body?
    requires p.decode(p.http(indexUrl).body) ==
      JObject(map["code" := JStr("rest_no_route"), "message" := JStr("No route was found")])
    ensures FetchIndex(p, indexUrl).outcome == Failure(Error(JStr("rest_no_route"), JStr("No route was found")))
  {
  }

  /** A body that is not JSON (an HTML error page, say) decodes to null and is reported as `no_json`. */
  lemma NotJsonExample(p: Platform, indexUrl: string)
    requires p.http(indexUrl).Body?
    requires p.decode(p.http(indexUrl).body) == JNull
    ensures FetchIndex(p, indexUrl).outcome == Failure(NoJson)
  {
  }
}
