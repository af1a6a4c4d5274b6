/** The forwarding engine: for every request, pick the virtual host, check
    it, consult the configuration cache and the activation table, and either
    answer locally or forward to the configured backend. Also the TLS
    cold-start decision of the listener. */
module Proxy {
  import opened Base
  import opened FileSys
  import opened Crypto
  import SelfSigned
  import Cert
  import Config
  import Server

  type Header = map<string, seq<string>>
  type Body = seq<bv8>

  /** What the engine reads of an inbound request. The path and the raw
      query are the two parts of the request URL. */
  datatype Request = Request(host: string, verb: string, path: string, rawQuery: string,
                             header: Header, body: Body)

  /** The request sent to the backend. */
  datatype Outbound = Outbound(verb: string, url: string, header: Header, body: Body)

  datatype BackendResponse = BackendResponse(status: int, header: Header, body: Body)

  /** The HTTP client, kept abstract: whether http.NewRequest accepts the
      method and URL, and what client.Do returns (None for a transport
      error). */
  datatype Backend = Backend(
    newRequest: (string, string) -> bool,
    roundTrip: Outbound -> Option<BackendResponse>)

  /** The three error answers that are negotiated between HTML and JSON. */
  datatype ErrorKind = HostNotFound | ServiceUnavailable | BadGateway

  /** The terminal outcomes of one request. */
  datatype Outcome =
    | BadRequest(message: string)               // http.Error with status 400
    | ServeFile(path: string)                   // http.ServeFile of a static page
    | JsonError(status: int, json: string)      // WriteHeader(status) and a JSON body
    | Forwarded(outbound: Outbound, status: int, header: Header, body: Body)

  const InvalidHostMessage: string := "Ung\U{00FC}ltiger Host"
  const LandingPage: string := "www/index.html"
  const JsonContentType: string := "application/json"

  function StatusOf(k: ErrorKind): int
  {
    match k
    case HostNotFound => 404
    case ServiceUnavailable => 503
    case BadGateway => 502
  }

  function ErrorPage(k: ErrorKind): string
  {
    match k
    case HostNotFound => "www/404.html"
    case ServiceUnavailable => "www/503.html"
    case BadGateway => "www/502.html"
  }

  function ErrorJson(k: ErrorKind): string
  {
    match k
    case HostNotFound => "{\"error\": \"Host not found\"}"
    case ServiceUnavailable => "{\"error\": \"Service Unavailable\"}"
    case BadGateway => "{\"error\": \"Bad Gateway\"}"
  }

  /** The virtual host: everything before the first '%', if there is one. */
  function VirtualHost(host: string): (h: string)
    ensures '%' !in h
    ensures h <= host
    ensures '%' in host ==> host[|h|] == '%'
    ensures '%' !in host ==> h == host
  {
    if '%' in host then BeforeFirst(host, '%') else host
  }

  /** isValidHost: with a ':' the host must parse as an IP address, without
      one it must contain a '.'. */
  predicate IsValidHost(host: string, parseIP: string -> Option<IP>)
  {
    if ':' in host then parseIP(host).Some? else '.' in host
  }

  predicate IsLocal(host: string)
  {
    host == "localhost" || host == "127.0.0.1"
  }

  /** Header.Get("Content-Type"): the first value, or "". */
  function ContentType(h: Header): string
  {
    if "Content-Type" in h && |h["Content-Type"]| > 0 then h["Content-Type"][0] else ""
  }

  /** The JSON body is used only for the exact content type
      "application/json"; any other gets the HTML page. */
  function Negotiate(h: Header, k: ErrorKind): (o: Outcome)
    ensures o.JsonError? <==> ContentType(h) == JsonContentType
    ensures o.JsonError? ==> o == JsonError(StatusOf(k), ErrorJson(k))
    ensures o.ServeFile? ==> o == ServeFile(ErrorPage(k))
    ensures o.JsonError? || o.ServeFile?
  {
    if ContentType(h) != JsonContentType then ServeFile(ErrorPage(k)) else JsonError(StatusOf(k), ErrorJson(k))
  }

  /** The backend URL: protocol, host and decimal port of the configuration,
      then the request path. The query string is not carried over. */
  function TargetUrl(c: Config.ProxyConfig, path: string): string
  {
    c.protocol + "://" + c.host + ":" + Itoa(c.port) + path
  }

  /** The URL splits back into its parts: the port text in it reads back as
      the configured port. */
  lemma TargetUrlParts(c: Config.ProxyConfig, path: string)
    ensures var url, port := TargetUrl(c, path), Itoa(c.port);
      && url == c.protocol + "://" + c.host + ":" + port + path
      && ParseInt(port) == Some(c.port)
  {
    ItoaRoundTrip(c.port);
  }

  function Values(h: Header, key: string): seq<string>
  {
    if key in h then h[key] else []
  }

  /** Header.Add: append one value under a key. */
  function Add(h: Header, key: string, value: string): Header
  {
    h[key := Values(h, key) + [value]]
  }

  /** The header `dst` after Add of every value of `src`, key by key and in
      order. A key of `src` without values adds nothing. */
  function AddAll(dst: Header, src: Header): Header
  {
    map key | key in dst.Keys + src.Keys && (key in dst || src[key] != []) :: Values(dst, key) + Values(src, key)
  }

  /** Every key ends up with its old values followed by the source's, and
      a key is present exactly when it was before or the source has values
      for it. */
  lemma AddAllMeaning(dst: Header, src: Header)
    ensures var h := AddAll(dst, src);
      && (forall key :: Values(h, key) == Values(dst, key) + Values(src, key))
      && h.Keys == dst.Keys + (set key | key in src && src[key] != [])
  {
    var h := AddAll(dst, src);
    forall key
      ensures Values(h, key) == Values(dst, key) + Values(src, key)
    {
      if key !in h {
        assert Values(dst, key) == [] && Values(src, key) == [];
      }
    }
  }

  /** Copying into a fresh header reproduces every non-empty entry of the
      source. */
  lemma AddAllIntoEmpty(src: Header)
    ensures AddAll(map[], src) == map key | key in src && src[key] != [] :: src[key]
  {
    var l, r := AddAll(map[], src), map key | key in src && src[key] != [] :: src[key];
    assert l.Keys == r.Keys;
    forall k | k in l
      ensures l[k] == r[k]
    {
      assert l[k] == Values(l, k) == [] + src[k];
      assert [] + src[k] == src[k];
    }
  }

  lemma AddAllNothing(dst: Header)
    ensures AddAll(dst, map[]) == dst
  {
    var h := AddAll(dst, map[]);
    assert h.Keys == dst.Keys;
    forall k | k in h
      ensures h[k] == dst[k]
    {
      assert h[k] == Values(dst, k) + [];
    }
  }

  /** `h` after Add of each of `values` under `key`. */
  function Appended(h: Header, key: string, values: seq<string>): Header
  {
    if values == [] then h else h[key := Values(h, key) + values]
  }

  /** Copying one more key of the source extends the copy by that key's
      values. */
  lemma AddAllExtend(dst: Header, done: Header, key: string, values: seq<string>)
    requires key !in done
    ensures Appended(AddAll(dst, done), key, values) == AddAll(dst, done[key := values])
  {
    var m := done[key := values];
    var a := AddAll(dst, done);
    var l, r := Appended(a, key, values), AddAll(dst, m);
    forall k
      ensures k in l <==> k in r
      ensures k in l ==> l[k] == r[k]
    {
      if k == key {
        assert Values(m, k) == values && Values(done, k) == [];
        if values != [] {
          assert l[k] == Values(a, k) + values;
          assert k in r;
          assert r[k] == Values(dst, k) + values;
          if k in a {
            assert Values(a, k) == Values(dst, k) + [];
          } else {
            assert k !in dst;
          }
        } else {
          assert k in l <==> k in dst;
        }
      } else {
        assert Values(m, k) == Values(done, k);
        assert k in l <==> k in a;
      }
    }
  }

  lemma AppendedStep(h: Header, key: string, values: seq<string>, v: string)
    ensures Add(Appended(h, key, values), key, v) == Appended(h, key, values + [v])
  {
    var a := Appended(h, key, values);
    if values != [] {
      assert Values(a, key) == Values(h, key) + values;
      assert Values(h, key) + values + [v] == Values(h, key) + (values + [v]);
      assert a[key := Values(a, key) + [v]] == h[key := Values(h, key) + (values + [v])];
    } else {
      assert values + [v] == [v];
    }
  }

  /** The inner loop of the header copy: Add each value under one key. */
  method AddValues(h: Header, key: string, values: seq<string>) returns (out: Header)
    ensures out == Appended(h, key, values)
  {
    out := h;
    for j := 0 to |values|
      invariant out == Appended(h, key, values[..j])
    {
      assert values[..j + 1] == values[..j] + [values[j]];
      AppendedStep(h, key, values[..j], values[j]);
      out := Add(out, key, values[j]);
    }
    assert values[..|values|] == values;
  }

  /** The nested loop of ServeHTTP: for every key of `src`, Add each of its
      values to `dst`. */
  method CopyHeaders(dst: Header, src: Header) returns (out: Header)
    ensures out == AddAll(dst, src)
  {
    out := dst;
    var pending := src.Keys;
    assert src - pending == map[];
    AddAllNothing(dst);
    while pending != {}
      invariant pending <= src.Keys
      invariant out == AddAll(dst, src - pending)
      decreases pending
    {
      var key :| key in pending;
      ghost var done := src - pending;
      out := AddValues(out, key, src[key]);
      AddAllExtend(dst, done, key, src[key]);
      pending := pending - {key};
      assert done[key := src[key]] == src - pending;
    }
    assert src - {} == src;
  }

  /** The decision ServeHTTP takes, as a function of the request, the
      contents of the configuration cache and of the activation table, and
      the behaviour of the HTTP client. */
  function Route(r: Request, configs: map<string, Config.ProxyConfig>, active: map<string, bool>,
                 parseIP: string -> Option<IP>, backend: Backend): Outcome
  {
    var host := VirtualHost(r.host);
    if !IsValidHost(host, parseIP) then BadRequest(InvalidHostMessage)
    else if IsLocal(host) then ServeFile(LandingPage)
    else if host !in configs then Negotiate(r.header, HostNotFound)
    else if !Server.IsActive(active, host) then Negotiate(r.header, ServiceUnavailable)
    else
      var url := TargetUrl(configs[host], r.path);
      if !backend.newRequest(r.verb, url) then Negotiate(r.header, ServiceUnavailable)
      else
        var out := Outbound(r.verb, url, AddAll(map[], r.header), r.body);
        match backend.roundTrip(out)
        case None => Negotiate(r.header, BadGateway)
        case Some(resp) => Forwarded(out, resp.status, AddAll(map[], resp.header), resp.body)
  }

  /** Only the part of the host before the first '%' matters: truncating it
      beforehand changes nothing. */
  lemma RouteUsesTruncatedHost(r: Request, configs: map<string, Config.ProxyConfig>, active: map<string, bool>,
                               parseIP: string -> Option<IP>, backend: Backend)
    ensures Route(r, configs, active, parseIP, backend)
         == Route(r.(host := VirtualHost(r.host)), configs, active, parseIP, backend)
  {
  }

  /** A host with ':' is valid exactly when it parses as an IP address; one
      without ':' exactly when it contains '.'. */
  lemma ValidHostCases(host: string, parseIP: string -> Option<IP>)
    ensures ':' in host ==> (IsValidHost(host, parseIP) <==> parseIP(host).Some?)
    ensures ':' !in host ==> (IsValidHost(host, parseIP) <==> '.' in host)
  {
  }

  /** A host with a port that does not parse as an IP, such as
      "example.com:8080", gets 400. */
  lemma HostWithPortRejected(r: Request, configs: map<string, Config.ProxyConfig>, active: map<string, bool>,
                             parseIP: string -> Option<IP>, backend: Backend)
    requires ':' in VirtualHost(r.host) && parseIP(VirtualHost(r.host)).None?
    ensures Route(r, configs, active, parseIP, backend) == BadRequest(InvalidHostMessage)
  {
  }

  /** A host with neither ':' nor '.' (such as "localserver") gets 400,
      whatever the cache and the activation table hold. */
  lemma BareNameRejected(r: Request, configs: map<string, Config.ProxyConfig>, active: map<string, bool>,
                         parseIP: string -> Option<IP>, backend: Backend)
    requires ':' !in VirtualHost(r.host) && '.' !in VirtualHost(r.host)
    ensures Route(r, configs, active, parseIP, backend) == BadRequest(InvalidHostMessage)
  {
  }

  /** Validation comes before the landing-page check, so "localhost" is
      rejected ... */
  lemma LocalhostRejected(r: Request, configs: map<string, Config.ProxyConfig>, active: map<string, bool>,
                          parseIP: string -> Option<IP>, backend: Backend)
    requires r.host == "localhost"
    ensures Route(r, configs, active, parseIP, backend) == BadRequest(InvalidHostMessage)
  {
    assert forall i :: 0 <= i < |r.host| ==> r.host[i] in "lochast";
    assert '%' !in r.host && ':' !in r.host && '.' !in r.host;
    BareNameRejected(r, configs, active, parseIP, backend);
  }

  /** ... and only "127.0.0.1" reaches the landing page. */
  lemma LoopbackLanding(r: Request, configs: map<string, Config.ProxyConfig>, active: map<string, bool>,
                        parseIP: string -> Option<IP>, backend: Backend)
    requires r.host == "127.0.0.1"
    ensures Route(r, configs, active, parseIP, backend) == ServeFile(LandingPage)
  {
    assert forall i :: 0 <= i < |r.host| ==> r.host[i] in "1270.";
    assert '%' !in r.host && ':' !in r.host;
    assert r.host[3] == '.';
  }

  /** The 400 answer is given exactly to a host that fails isValidHost. */
  lemma RouteRejectsExactly(r: Request, configs: map<string, Config.ProxyConfig>, active: map<string, bool>,
                            parseIP: string -> Option<IP>, backend: Backend)
    ensures Route(r, configs, active, parseIP, backend) == BadRequest(InvalidHostMessage)
            <==> !IsValidHost(VirtualHost(r.host), parseIP)
  {
  }

  /** The landing page is served exactly when the virtual host is
      "127.0.0.1": "localhost" never passes validation, and no error page
      is the landing page. */
  lemma RouteLandsExactly(r: Request, configs: map<string, Config.ProxyConfig>, active: map<string, bool>,
                          parseIP: string -> Option<IP>, backend: Backend)
    ensures Route(r, configs, active, parseIP, backend) == ServeFile(LandingPage)
            <==> VirtualHost(r.host) == "127.0.0.1"
  {
    var host := VirtualHost(r.host);
    var loopback, local := "127.0.0.1", "localhost";
    assert loopback[3] == '.' && ':' !in loopback;
    assert forall i :: 0 <= i < |local| ==> local[i] in "lochast";
    assert '.' !in local && ':' !in local;
    assert ErrorPage(HostNotFound) != LandingPage;
    assert ErrorPage(ServiceUnavailable) != LandingPage;
    assert ErrorPage(BadGateway) != LandingPage;
  }

  /** Each negotiated error answer is given exactly in its own case: 404
      exactly for a valid, non-local host missing from the cache; 503
      exactly when it is present but inactive or the request cannot be
      built; 502 exactly when the backend cannot be reached. */
  lemma RouteErrorsExactly(r: Request, configs: map<string, Config.ProxyConfig>, active: map<string, bool>,
                           parseIP: string -> Option<IP>, backend: Backend)
    ensures var host, o := VirtualHost(r.host), Route(r, configs, active, parseIP, backend);
      var servable := IsValidHost(host, parseIP) && !IsLocal(host) && host in configs;
      var url := if host in configs then TargetUrl(configs[host], r.path) else "";
      && (o == Negotiate(r.header, HostNotFound) <==>
            IsValidHost(host, parseIP) && !IsLocal(host) && host !in configs)
      && (o == Negotiate(r.header, ServiceUnavailable) <==>
            servable && (!Server.IsActive(active, host) || !backend.newRequest(r.verb, url)))
      && (o == Negotiate(r.header, BadGateway) <==>
            servable && Server.IsActive(active, host) && backend.newRequest(r.verb, url)
            && backend.roundTrip(Outbound(r.verb, url, AddAll(map[], r.header), r.body)).None?)
  {
  }

  /** For a valid, non-local host: a cache miss gives the 404 answer and a
      present but inactive entry the 503 answer. */
  lemma RouteLookupFailures(r: Request, configs: map<string, Config.ProxyConfig>, active: map<string, bool>,
                            parseIP: string -> Option<IP>, backend: Backend)
    requires IsValidHost(VirtualHost(r.host), parseIP) && !IsLocal(VirtualHost(r.host))
    ensures VirtualHost(r.host) !in configs ==>
              Route(r, configs, active, parseIP, backend) == Negotiate(r.header, HostNotFound)
    ensures VirtualHost(r.host) in configs && !Server.IsActive(active, VirtualHost(r.host)) ==>
              Route(r, configs, active, parseIP, backend) == Negotiate(r.header, ServiceUnavailable)
  {
  }

  /** Once the host is configured and active: a request the client refuses
      to build gives 503, a transport error 502, and otherwise the request
      goes to TargetUrl with every inbound header value, and the backend's
      status, header values and body come back. `r.header` stands for
      r.Header, from which Go's server has already removed Host; the
      outbound host is the one in the URL. */
  lemma RouteForwarding(r: Request, configs: map<string, Config.ProxyConfig>, active: map<string, bool>,
                        parseIP: string -> Option<IP>, backend: Backend)
    requires var host := VirtualHost(r.host);
      IsValidHost(host, parseIP) && !IsLocal(host) && host in configs && Server.IsActive(active, host)
    ensures var host := VirtualHost(r.host);
      var url := TargetUrl(configs[host], r.path);
      var o := Route(r, configs, active, parseIP, backend);
      && (!backend.newRequest(r.verb, url) ==> o == Negotiate(r.header, ServiceUnavailable))
      && (backend.newRequest(r.verb, url) ==>
           var out := Outbound(r.verb, url, AddAll(map[], r.header), r.body);
           && (forall key :: Values(out.header, key) == Values(r.header, key))
           && (backend.roundTrip(out).None? ==> o == Negotiate(r.header, BadGateway))
           && (backend.roundTrip(out).Some? ==>
                 var resp := backend.roundTrip(out).value;
                 && o.Forwarded? && o.outbound == out && o.status == resp.status && o.body == resp.body
                 && forall key :: Values(o.header, key) == Values(resp.header, key)))
  {
  }

  /** The query string of the request never reaches the backend. */
  lemma RouteIgnoresQuery(r: Request, q: string, configs: map<string, Config.ProxyConfig>, active: map<string, bool>,
                          parseIP: string -> Option<IP>, backend: Backend)
    ensures Route(r.(rawQuery := q), configs, active, parseIP, backend) == Route(r, configs, active, parseIP, backend)
  {
  }

  /** Only requests that pass every check are forwarded. */
  lemma ForwardedOnlyWhenServable(r: Request, configs: map<string, Config.ProxyConfig>, active: map<string, bool>,
                                  parseIP: string -> Option<IP>, backend: Backend)
    requires Route(r, configs, active, parseIP, backend).Forwarded?
    ensures var host := VirtualHost(r.host);
      && IsValidHost(host, parseIP) && !IsLocal(host) && host in configs && Server.IsActive(active, host)
      && Route(r, configs, active, parseIP, backend).outbound.url == TargetUrl(configs[host], r.path)
  {
  }

  /** What a TLS or plain listener ends up serving at start. */
  datatype StartError = GenerateFailed(cause: CertError) | LoadFailed(cause: CertError)
  datatype StartResult =
    | ServingHttp(port: int)
    | ServingTls(port: int, cert: TlsCertificate)
    | StartFailed(err: StartError)

  /** The loaded pair may be served: it loaded, has a leaf, the leaf parses
      and has not expired. */
  predicate Usable(loaded: Result<TlsCertificate, CertError>, p: Platform, now: int)
  {
    && loaded.Success?
    && |loaded.value.certificate| > 0
    && p.parseCertificate(loaded.value.certificate[0]).Some?
    && now < p.parseCertificate(loaded.value.certificate[0]).value.notAfter
  }

  /** The fallback of Start: GenerateSelfSignedCert for "localhost", then
      load the pair from the reported paths. */
  function Regeneration(files: Files, faults: Faults, certDir: string, clock: SelfSigned.Clock, p: Platform)
    : (Result<TlsCertificate, StartError>, Files)
  {
    var (issued, after) := Cert.SelfSignedCert(files, faults, certDir, "localhost", clock, p);
    match issued
    case Failure(e) => (Failure(GenerateFailed(e)), after)
    case Success(i) =>
      match LoadKeyPair(after, i.certFile, i.keyFile, p)
      case Failure(e) => (Failure(LoadFailed(e)), after)
      case Success(c) => (Success(c), after)
  }

  /** The cold-start decision of Start over the outcome of the first load
      and of the fallback. */
  function ColdStart(port: int, useSSL: bool, loaded: Result<TlsCertificate, CertError>, p: Platform, now: int,
                     fallback: Result<TlsCertificate, StartError>): StartResult
  {
    if !useSSL then ServingHttp(port)
    else if Usable(loaded, p, now) then ServingTls(port, loaded.value)
    else match fallback
      case Success(c) => ServingTls(port, c)
      case Failure(e) => StartFailed(e)
  }

  /** With SSL the loaded pair is served exactly when it is usable; otherwise
      the fallback decides, and its failure is the only fatal outcome.
      Without SSL plain HTTP is served. */
  lemma ColdStartCases(port: int, useSSL: bool, loaded: Result<TlsCertificate, CertError>, p: Platform, now: int,
                       fallback: Result<TlsCertificate, StartError>)
    ensures var s := ColdStart(port, useSSL, loaded, p, now, fallback);
      && (!useSSL ==> s == ServingHttp(port))
      && (useSSL && Usable(loaded, p, now) ==> s == ServingTls(port, loaded.value))
      && (useSSL && !Usable(loaded, p, now) && fallback.Success? ==> s == ServingTls(port, fallback.value))
      && (useSSL && !Usable(loaded, p, now) && fallback.Failure? ==> s == StartFailed(fallback.error))
      && (s.StartFailed? <==> useSSL && !Usable(loaded, p, now) && fallback.Failure?)
  {
  }

  /** As written, whenever localhost.crt exists and the configured pair is
      unusable, the start serves the stored pair, or fails on it, without
      generating: the outcome is the same for every key generator and
      signer, and the files are left as they were. */
  lemma ColdStartUsesStoredPair(port: int, certFile: string, keyFile: string, files: Files, faults: Faults,
                                certDir: string, clock: SelfSigned.Clock, p: Platform, now: int)
    requires SelfSigned.CertPath(Cert.SelfDir(certDir), "localhost") in files
    requires !Usable(LoadKeyPair(files, certFile, keyFile, p), p, now)
    ensures var dir := Cert.SelfDir(certDir);
      var stored := LoadKeyPair(files, SelfSigned.CertPath(dir, "localhost"), SelfSigned.KeyPath(dir, "localhost"), p);
      var (fallback, after) := Regeneration(files, faults, certDir, clock, p);
      var s := ColdStart(port, true, LoadKeyPair(files, certFile, keyFile, p), p, now, fallback);
      && after == files
      && (stored.Success? ==> s == ServingTls(port, stored.value))
      && (stored.Failure? ==> s == StartFailed(GenerateFailed(stored.error)))
  {
    FallbackReusesExisting(files, faults, certDir, clock, p);
  }

  /** As written, the fallback asks the self-signed provider for the
      certificate, which does not generate when localhost.crt already
      exists: whatever pair is on disk is reused, whatever its expiry, and
      no file is written. */
  lemma FallbackReusesExisting(files: Files, faults: Faults, certDir: string,
                               clock: SelfSigned.Clock, p: Platform)
    requires SelfSigned.CertPath(Cert.SelfDir(certDir), "localhost") in files
    ensures var dir := Cert.SelfDir(certDir);
      var stored := LoadKeyPair(files, SelfSigned.CertPath(dir, "localhost"), SelfSigned.KeyPath(dir, "localhost"), p);
      var (fallback, after) := Regeneration(files, faults, certDir, clock, p);
      && after == files
      && (stored.Success? ==> fallback == Success(stored.value))
      && (stored.Failure? ==> fallback == Failure(GenerateFailed(stored.error)))
  {
    var dir := Cert.SelfDir(certDir);
    SelfSigned.ObtainKeepsExisting(files, faults, dir, "localhost", clock, p);
    Cert.SelfSignedCertPaths(files, faults, certDir, "localhost", clock, p);
  }

  /** The paths of the example below. */
  lemma StalePaths()
    ensures Cert.SelfDir("certs") == "certs/self"
    ensures SelfSigned.CertPath("certs/self", "localhost") == "certs/self/localhost.crt"
    ensures SelfSigned.KeyPath("certs/self", "localhost") == "certs/self/localhost.key"
  {
    JoinPathPair("certs", "self");
    assert "certs" + "/" + "self" == "certs/self";
    JoinPathPair("certs/self", "localhost.crt");
    JoinPathPair("certs/self", "localhost.key");
    assert "localhost" + ".crt" == "localhost.crt";
    assert "localhost" + ".key" == "localhost.key";
    assert "certs/self" + "/" + "localhost.crt" == "certs/self/localhost.crt";
    assert "certs/self" + "/" + "localhost.key" == "certs/self/localhost.key";
  }

  /** A broken key generator and a stored localhost pair whose leaf expired
      at time 0. */
  function StalePlatform(): Platform
  {
    Platform(
      parseIP := (s: string) => None,
      generateKey := (bits: nat) => None,
      createCertificate := (t: Template, k: PrivateKey) => None,
      marshalPKCS1 := (k: PrivateKey) => [],
      x509KeyPair := (c: FileContent, k: FileContent) => Some(TlsCertificate([[]])),
      parseCertificate := (d: Der) => Some(X509Certificate(0)),
      acmeCertificate := (h: string) => None)
  }

  function StaleFiles(): Files
  {
    map["certs/self/localhost.crt" := Pem(SelfSigned.CertificateBlock, []),
        "certs/self/localhost.key" := Pem(SelfSigned.PrivateKeyBlock, [])]
  }

  /** The concrete start: the configured pair is missing, so the fallback
      runs; it serves the stored certificate although its leaf has expired
      and although generation would have failed. */
  lemma ColdStartServesExpiredCertificate()
    ensures var p, files, clock, now := StalePlatform(), StaleFiles(), SelfSigned.Clock(10, 10), 10;
      var loaded := LoadKeyPair(files, "", "", p);
      var (fallback, after) := Regeneration(files, NoFaults, "certs", clock, p);
      && SelfSigned.Generation(files, NoFaults, Cert.SelfDir("certs"), "localhost", clock, p).0.Some?
      && after == files
      && ColdStart(443, true, loaded, p, now, fallback) == ServingTls(443, TlsCertificate([[]]))
      && !(now < p.parseCertificate([]).value.notAfter)
  {
    StalePaths();
    FallbackReusesExisting(StaleFiles(), NoFaults, "certs", SelfSigned.Clock(10, 10), StalePlatform());
  }

  /** The corrected fallback: renew (always generate) the localhost
      certificate, then load it. When it yields a certificate, a new one was
      generated and written in this start, and what is served is the pair
      loaded from the freshly written files. */
  function RenewingRegeneration(files: Files, faults: Faults, certDir: string, clock: SelfSigned.Clock, p: Platform)
    : (r: (Result<TlsCertificate, StartError>, Files))
    ensures var dir := Cert.SelfDir(certDir);
      var (err, generated) := SelfSigned.Generation(files, faults, dir, "localhost", clock, p);
      r.0.Success? ==>
        && err.None? && r.1 == generated
        && LoadKeyPair(generated, SelfSigned.CertPath(dir, "localhost"), SelfSigned.KeyPath(dir, "localhost"), p)
             == Success(r.0.value)
        && r.1[SelfSigned.CertPath(dir, "localhost")] ==
             Pem(SelfSigned.CertificateBlock,
                 p.createCertificate(SelfSigned.NewTemplate("localhost", clock, p.parseIP), p.generateKey(SelfSigned.KeyBits).value).value)
  {
    var dir := Cert.SelfDir(certDir);
    var certFile, keyFile := SelfSigned.CertPath(dir, "localhost"), SelfSigned.KeyPath(dir, "localhost");
    var (err, generated) := SelfSigned.Generation(files, faults, dir, "localhost", clock, p);
    if err.Some? then (Failure(GenerateFailed(err.value)), generated)
    else
      SelfSigned.GenerationWritesBoth(files, faults, dir, "localhost", clock, p);
      match LoadKeyPair(generated, certFile, keyFile, p)
      case Failure(e) => (Failure(LoadFailed(e)), generated)
      case Success(c) => (Success(c), generated)
  }

  class ReverseProxy {
    const configCache: Config.ConfigCache
    const certManager: Cert.CertManager
    const apiServer: Server.APIServer

    constructor (configCache: Config.ConfigCache, certManager: Cert.CertManager, apiServer: Server.APIServer)
      ensures this.configCache == configCache && this.certManager == certManager && this.apiServer == apiServer
    {
      this.configCache := configCache;
      this.certManager := certManager;
      this.apiServer := apiServer;
    }

    method ServeHTTP(r: Request, parseIP: string -> Option<IP>, backend: Backend) returns (o: Outcome)
      ensures o == Route(r, configCache.configs, apiServer.activeConfigs, parseIP, backend)
    {
      var host := r.host;
      if '%' in host {
        host := BeforeFirst(host, '%');
      }
      if !IsValidHost(host, parseIP) {
        return BadRequest(InvalidHostMessage);
      }
      if host == "localhost" || host == "127.0.0.1" {
        return ServeFile(LandingPage);
      }
      var config, found := configCache.Get(host);
      if !found {
        return Negotiate(r.header, HostNotFound);
      }
      var active := apiServer.IsActiveConfig(host);
      if !active {
        return Negotiate(r.header, ServiceUnavailable);
      }
      var url := TargetUrl(config, r.path);
      if !backend.newRequest(r.verb, url) {
        return Negotiate(r.header, ServiceUnavailable);
      }
      var outHeader := CopyHeaders(map[], r.header);
      var out := Outbound(r.verb, url, outHeader, r.body);
      var resp := backend.roundTrip(out);
      if resp.None? {
        return Negotiate(r.header, BadGateway);
      }
      var header := CopyHeaders(map[], resp.value.header);
      o := Forwarded(out, resp.value.status, header, resp.value.body);
    }

    /** Start the listener on `port`. With SSL, serve the pair at certFile
        and keyFile if it is usable at `now`; otherwise fall back to the
        self-signed localhost certificate. */
    method Start(port: int, useSSL: bool, certFile: string, keyFile: string, now: int,
                 clock: SelfSigned.Clock, p: Platform) returns (s: StartResult)
      requires certManager.Valid()
      modifies certManager.fs
      ensures var loaded := LoadKeyPair(old(certManager.fs.files), certFile, keyFile, p);
        var (fallback, after) := Regeneration(old(certManager.fs.files), certManager.fs.faults, certManager.certDir, clock, p);
        && s == ColdStart(port, useSSL, loaded, p, now, fallback)
        && certManager.fs.files == if !useSSL || Usable(loaded, p, now) then old(certManager.fs.files) else after
    {
      if !useSSL {
        return ServingHttp(port);
      }
      var loaded := certManager.LoadCert(certFile, keyFile, p);
      if loaded.Success? && |loaded.value.certificate| > 0 {
        var leaf := p.parseCertificate(loaded.value.certificate[0]);
        if leaf.Some? && now < leaf.value.notAfter {
          return ServingTls(port, loaded.value);
        }
      }
      var newCert, newKey, err := certManager.GenerateSelfSignedCert("localhost", clock, p);
      if err.Some? {
        return StartFailed(GenerateFailed(err.value));
      }
      var reloaded := certManager.LoadCert(newCert, newKey, p);
      if reloaded.Failure? {
        return StartFailed(LoadFailed(reloaded.error));
      }
      s := ServingTls(port, reloaded.value);
    }
  }
}
