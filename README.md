# SecNex reverse proxy — a Dafny model

A model of the SecNex reverse proxy, a Go HTTP reverse proxy. The model covers:

- the forwarding engine. It truncates the virtual host at '%' and validates it. It rejects `localhost` with 400, because it contains no '.', and answers `127.0.0.1` with the landing page. Otherwise it looks the host up in the configuration cache, checks the activation table and forwards to `protocol://host:port/path` of the backend. Errors are answered as HTML pages or as JSON bodies.
- the TLS cold start of the listener: serve the configured pair when it is usable, else fall back to a self-signed `localhost` certificate.
- the configuration cache: Get, Set, Delete, GetAll, Update and LoadFromDB.
- the administrative API server: the activation table, the per-address one-second rate limiter, the status handler and the refresh handler.
- the certificate manager, which dispatches to the `self` and `acme` providers.
- the self-signed provider: generate-if-missing, the template, and the write order of certificate and key.

The modules are `Base` (strings, decimal ports, `filepath.Join`), `FileSys`, `Crypto`, `SelfSigned`, `Acme`, `Cert`, `Config`, `Server` and `Proxy`, one per source file or concern.

Objects that the Go code mutates are Dafny classes with `modifies` clauses:

- `FileSystem`
- `SelfSignedProvider`
- `CertManager`
- `ConfigCache`
- `APIServer`
- `ReverseProxy`

Each method is tied to a pure specification function, and the properties are lemmas about those functions. Examples:

- `SelfSigned.Obtain` and `SelfSigned.Generation`
- `Config.ActiveConfigs`
- `Server.Replay`
- `Proxy.Route`
- `Proxy.ColdStart`

The outside world becomes parameters:

- The clock is a parameter: an `int` in nanoseconds, a `Clock` pair for the two `time.Now()` calls of the template, and `now` for the request time and the cold start.
- Cryptography, PEM decoding, `net.ParseIP` and the ACME client are the fields of a `Platform` record of functions.
- The HTTP client is a `Backend` record.
- The disk is a map from path to content, plus two sets of paths. On the first, `os.Create` fails. On the second, `os.Create` succeeds but the write that follows fails; the code ignores that error, and the file is left empty (`Raw([])`).

Where the code and its description differ, the model follows the code:

- The query string is not forwarded, because only `r.URL.Path` is appended to the URL.
- `localhost` is rejected with 400. It contains no '.', and validation runs before the landing-page check.
- The JSON error bodies have a space after the colon.
- The status endpoint lists every site of the activation table, active or not.
- `proxy/proxy.go:147` passes a second argument (an e-mail address) to `GenerateSelfSignedCert`, while its definition at `cert/certmanager.go:58` takes only the host. The model follows the definition, which `proxy/config.go:43` also uses.
- `Start` loads both the configured pair (`proxy/proxy.go:133`) and the fallback pair (`proxy/proxy.go:152`) with `tls.LoadX509KeyPair` directly. The model loads both through `LoadCert`, which performs the same load.
- The backend never receives the original `Host` header. Go's server moves it out of `r.Header` into `r.Host`, and `http.NewRequest` takes the outbound host from the URL, so `proxy/proxy.go:83-87` copies every header except `Host` and the backend sees the configured host and port. The model's `Request.header` stands for `r.Header`, which has no `Host` entry.
- The HTML error answers do not carry the status 404, 503 or 502. `http.ServeFile` sets the status itself: 200 when the page exists. Only the JSON answers carry the error status. `ServeFile(path)` names the page and leaves its status to `http.ServeFile`.

## Model

| member | source | states |
|---|---|---|
| Base.BeforeFirst | proxy/proxy.go:34-36 | the part before the first separator: has no separator, is a prefix, is followed by the separator when there is one, and is the whole string otherwise |
| Base.Itoa | proxy/proxy.go:71 | the decimal text of the port: a leading '-' exactly for negative numbers, and no leading zero except for 0 itself |
| Base.ItoaRoundTrip | proxy/proxy.go:71 | the port text in a backend URL reads back as the configured port |
| Base.NatToDecimalValue | proxy/proxy.go:71 | the digits printed for a natural number have that number as their value |
| Base.ParseNegative | proxy/proxy.go:71 | a '-' followed by digits reads back as the negated value |
| Base.JoinPath | cert/certmanager.go:25-26 | the joined path is empty exactly when every element is empty |
| Base.JoinPathPair | cert/provider/self/self.go:33-34 | two non-empty elements are joined with exactly one separator |
| Base.JoinPathNested | cert/certmanager.go:65-66 | joining the manager directory with "self" and then the file name gives the same path as joining all three |
| FileSys.FileSystem.Exists | cert/provider/self/self.go:37 | a stat succeeds exactly when the path is present |
| FileSys.FileSystem.Create | cert/provider/self/self.go:101-113 | creation fails exactly on a path where os.Create fails and then changes nothing; otherwise the file holds the content, or nothing when the ignored write failed |
| Crypto.LoadKeyPair | cert/certmanager.go:71-79 | loading succeeds only if both files exist and hold PEM data; a missing certificate file is reported before a missing key file, and a file without PEM data never loads |
| SelfSigned.SelfSignedProvider.constructor | cert/provider/self/self.go:24-30 | the provider keeps the certificate directory it is given, over the given file system |
| SelfSigned.PathsDistinct | cert/provider/self/self.go:97-98 | the certificate and the key of a host are different files |
| SelfSigned.NewTemplate | cert/provider/self/self.go:70-90 | common name is the host, NotBefore is the first clock reading, the validity is one year after the second reading, and the host goes to the IP list when it parses as an IP and to the DNS list otherwise (exactly one entry) |
| SelfSigned.TemplateConstants | cert/provider/self/self.go:71-83 | serial 1, the fixed organization, unit and country, both key usages, server authentication and basic constraints |
| SelfSigned.Generation | cert/provider/self/self.go:64-117 | the key, sign, create-certificate, create-key sequence; characterised by GenerationFrame, GenerationWritesBoth, GenerationFailsBeforeWriting and GenerationWriteOrder |
| SelfSigned.Obtain | cert/provider/self/self.go:32-50 | generate only when the certificate file is missing, then load; characterised by ObtainKeepsExisting, ObtainGeneratesWhenMissing, ValidAfterGeneration and the two stickiness lemmas |
| SelfSigned.GenerationFrame | cert/provider/self/self.go:64-117 | generation touches no file except the host's certificate and key |
| SelfSigned.GenerationWritesBoth | cert/provider/self/self.go:97-116 | a generation that reports success created both files; each holds the PEM certificate of the signed template or the PEM PKCS#1 key, or nothing when its write failed unreported |
| SelfSigned.GenerationFailsBeforeWriting | cert/provider/self/self.go:65-95 | a key-generation or signing failure leaves the files untouched and is reported |
| SelfSigned.GenerationWriteOrder | cert/provider/self/self.go:100-112 | when the key file cannot be created, key generation and signing succeeded, the certificate file has been written with the new PEM certificate (or left empty when its write failed), and every other file, the key file included, is unchanged |
| SelfSigned.ObtainKeepsExisting | cert/provider/self/self.go:36-49 | an existing certificate file is never regenerated, and a missing key file then fails the load |
| SelfSigned.ObtainGeneratesWhenMissing | cert/provider/self/self.go:37-41 | a missing certificate file triggers generation, whose error is returned without loading |
| SelfSigned.ValidAfterGeneration | cert/provider/self/self.go:56-62 | after a successful generation or GetCertificate the host validates |
| SelfSigned.KeyCreateFailureIsSticky | cert/provider/self/self.go:37-47 | a failed key-file creation leaves a certificate file behind, so every later GetCertificate skips generation and fails to read the key |
| SelfSigned.SilentWriteFailureIsSticky | cert/provider/self/self.go:37-47 | a failed write of the certificate or of the key after a successful create is not reported: the host validates, yet this and every later GetCertificate fail to load the pair and never regenerate |
| SelfSigned.SelfSignedProvider.GetCertificate | cert/provider/self/self.go:32-50 | result and files are those of generate-if-missing followed by loading |
| SelfSigned.SelfSignedProvider.RenewCertificate | cert/provider/self/self.go:52-54 | renewal always regenerates |
| SelfSigned.SelfSignedProvider.ValidateCertificate | cert/provider/self/self.go:56-62 | valid exactly when the certificate file exists |
| SelfSigned.SelfSignedProvider.GenerateCertificate | cert/provider/self/self.go:64-117 | error and files are those of the key, sign, write-certificate, write-key sequence |
| Acme.Obtain | cert/provider/acme/acme.go:33-46 | succeeds exactly when the client returns a certificate, otherwise fails with the ACME error |
| Acme.AcmeProvider.constructor | cert/provider/acme/acme.go:18-31 | the provider keeps the certificate directory it is given; the autocert.Manager it sets up (DirCache over that directory, HostWhitelist, AcceptTOS) is replaced by the ACME oracle of Platform |
| Acme.AcmeProvider.GetCertificate | cert/provider/acme/acme.go:33-46 | returns the client's certificate for the host or the ACME error |
| Acme.AcmeProvider.RenewCertificate | cert/provider/acme/acme.go:48-51 | renewal always succeeds |
| Acme.AcmeProvider.ValidateCertificate | cert/provider/acme/acme.go:53-59 | valid exactly when the cache entry named after the host exists |
| Cert.SelfSignedCert | cert/certmanager.go:58-69 | the self provider's GetCertificate with the derived paths; characterised by SelfSignedCertPaths and SelfSignedCertIsObtain |
| Cert.SelfSignedCertPaths | cert/certmanager.go:58-69 | the paths reported are the ones the self provider writes, and both exist afterwards |
| Cert.SelfSignedCertIsObtain | cert/certmanager.go:58-64 | GenerateSelfSignedCert succeeds exactly when the self provider's GetCertificate does, with the same files and error |
| Cert.CertManager.constructor | cert/certmanager.go:19-29 | exactly the "self" and "acme" providers, under the "self" and "acme" subdirectories |
| Cert.CertManager.GetCertificate | cert/certmanager.go:31-38 | an unknown provider name is an error that changes nothing; otherwise the named provider's GetCertificate |
| Cert.CertManager.RenewCertificate | cert/certmanager.go:40-47 | an unknown provider name is an error; otherwise the named provider's renewal |
| Cert.CertManager.ValidateCertificate | cert/certmanager.go:49-56 | valid exactly when the provider exists and its validation holds |
| Cert.CertManager.GenerateSelfSignedCert | cert/certmanager.go:58-69 | always uses the self provider; reports the two paths on success and empty paths with the error on failure |
| Cert.CertManager.LoadCert | cert/certmanager.go:71-79 | the pair loaded from the two files |
| Config.ActiveConfigs | proxy/config.go:73-93 | the map built from the active records in order; characterised by ActiveConfigsKeys and ActiveConfigsLastWins |
| Config.ActiveConfigsKeys | proxy/config.go:73-93 | the loaded hosts are exactly the domains of the active records |
| Config.ActiveConfigsLastWins | proxy/config.go:82-90 | each loaded host maps to the last active record with its domain |
| Config.SetPersists | proxy/config.go:32-48 | after Set(h, c), Get(h) returns c until a later call touches h |
| Config.ConfigCache.constructor | proxy/config.go:24-30 | the cache starts empty |
| Config.ConfigCache.Get | proxy/config.go:32-37 | found exactly when the host is present; the zero configuration otherwise |
| Config.ConfigCache.Set | proxy/config.go:39-48 | the entry is stored; with SSL the self-signed certificate for the host is requested first and the outcome ignored |
| Config.ConfigCache.Delete | proxy/config.go:50-54 | only the one host is removed |
| Config.ConfigCache.GetAll | proxy/config.go:56-65 | the copy equals the contents |
| Config.SnapshotIsUnaffected | proxy/config.go:56-65 | a later change to the cache does not reach the copy |
| Config.ConfigCache.Update | proxy/config.go:67-71 | the contents are replaced wholesale |
| Config.ConfigCache.LoadFromDB | proxy/config.go:73-93 | a database error leaves the cache unchanged; otherwise the contents are rebuilt from the active records |
| Server.Record | server/api.go:84-99 | one rate-limit check: only an admitted request records its time; CheckRateLimit's contract is stated with it |
| Server.Replay | server/api.go:84-99 | the limiter after a sequence of checks; characterised by RecordsLastAccepted, RecordedIsLast and AcceptedAreSpaced |
| Server.RecordsLastAccepted | server/api.go:84-99 | after an accepted request the limiter holds the time of an accepted request from that address at or after it |
| Server.RecordedIsLast | server/api.go:84-99 | that recorded request is the last accepted one from the address: no later accepted request from it comes before the end |
| Server.AcceptedAreSpaced | server/api.go:84-99 | two accepted requests from the same address are at least one second apart |
| Server.LastSetWins | server/api.go:101-111 | IsActiveConfig returns the last value set for the site, or false for a site never set |
| Server.APIServer.constructor | server/api.go:18-24 | empty activation table and limiter |
| Server.APIServer.CheckRateLimit | server/api.go:84-99 | accepted exactly when the address is new or its last accepted request is at least one second old; only acceptance moves the window |
| Server.APIServer.SetActiveConfig | server/api.go:101-105 | the site's flag is set and nothing else changes |
| Server.APIServer.IsActiveConfig | server/api.go:107-111 | true exactly when the site is present and set |
| Server.APIServer.ActiveSites | server/api.go:45-48 | every site of the table exactly once |
| Server.APIServer.HandleStatus | server/api.go:32-60 | 429 before the method check, 405 for a non-GET request, else the JSON list of all sites with the two headers |
| Server.APIServer.HandleRefresh | server/api.go:62-82 | 429 before the method check, 405 for a non-POST request, else the fixed JSON message |
| Proxy.VirtualHost | proxy/proxy.go:33-36 | the host up to the first '%', with no '%' left |
| Proxy.Negotiate | proxy/proxy.go:50-57 | JSON only for the exact content type application/json, with the status and body of the error; the HTML page otherwise |
| Proxy.TargetUrl | proxy/proxy.go:71 | protocol, host, decimal port and path of the backend; characterised by TargetUrlParts and RouteIgnoresQuery |
| Proxy.TargetUrlParts | proxy/proxy.go:71 | the backend URL is protocol, "://", host, ":", decimal port and path, and the port reads back |
| Proxy.AddAllMeaning | proxy/proxy.go:83-87 | every header key keeps its old values followed by the copied ones, in order |
| Proxy.AddAllIntoEmpty | proxy/proxy.go:83-87 | copying into a fresh header reproduces every non-empty entry |
| Proxy.AddValues | proxy/proxy.go:84-86 | the inner loop appends each value in order |
| Proxy.CopyHeaders | proxy/proxy.go:83-87 | the nested loop adds every value of every key of the source |
| Proxy.Route | proxy/proxy.go:32-111 | the routing decision of one request; characterised by RouteUsesTruncatedHost, RouteRejectsExactly, RouteLandsExactly, HostWithPortRejected, BareNameRejected, LocalhostRejected, LoopbackLanding, RouteLookupFailures, RouteErrorsExactly, RouteForwarding, RouteIgnoresQuery and ForwardedOnlyWhenServable |
| Proxy.IsValidHost | proxy/proxy.go:113-124 | isValidHost; characterised by ValidHostCases |
| Proxy.RouteUsesTruncatedHost | proxy/proxy.go:33-36 | only the part of the host before the first '%' matters for every later check |
| Proxy.ValidHostCases | proxy/proxy.go:113-124 | a host with ':' is valid exactly when it parses as IP; without ':' exactly when it contains '.' |
| Proxy.HostWithPortRejected | proxy/proxy.go:38-41 | a host with a port that does not parse as IP gets 400 |
| Proxy.BareNameRejected | proxy/proxy.go:38-41 | a host with neither ':' nor '.' gets 400 whatever the cache and activation table hold |
| Proxy.LocalhostRejected | proxy/proxy.go:38-46 | "localhost" gets 400: validation runs before the landing-page check |
| Proxy.LoopbackLanding | proxy/proxy.go:43-46 | "127.0.0.1" gets the landing page |
| Proxy.RouteLookupFailures | proxy/proxy.go:48-69 | an unknown host gets the 404 answer and an inactive one the 503 answer |
| Proxy.RouteRejectsExactly | proxy/proxy.go:38-41 | the 400 answer is given exactly when the truncated host fails isValidHost |
| Proxy.RouteLandsExactly | proxy/proxy.go:38-46 | the landing page is served exactly when the truncated host is "127.0.0.1" |
| Proxy.RouteErrorsExactly | proxy/proxy.go:48-100 | each negotiated error is given exactly in its own case: not-found exactly for a valid, non-local, unconfigured host; unavailable exactly for an inactive host or a request that cannot be built; bad-gateway exactly for a transport error |
| Proxy.RouteForwarding | proxy/proxy.go:71-110 | a refused request gets 503, a transport error 502, and otherwise every inbound header value is forwarded and the backend's status, header values and body are returned |
| Proxy.RouteIgnoresQuery | proxy/proxy.go:71 | the query string never affects the outcome |
| Proxy.ForwardedOnlyWhenServable | proxy/proxy.go:38-90 | a forwarded request had a valid, non-local, configured and active host and went to its target URL |
| Proxy.ReverseProxy.constructor | proxy/proxy.go:24-30 | the proxy holds exactly the configuration cache, certificate manager and API server it is given |
| Proxy.ReverseProxy.ServeHTTP | proxy/proxy.go:32-111 | the outcome is the routing decision for the cache and activation table at that moment |
| Proxy.ColdStart | proxy/proxy.go:126-164 | the listener chosen at start; characterised by ColdStartCases and ColdStartUsesStoredPair |
| Proxy.Regeneration | proxy/proxy.go:146-160 | the self-signed localhost fallback; characterised by FallbackReusesExisting, ColdStartUsesStoredPair and ColdStartServesExpiredCertificate |
| Proxy.ColdStartCases | proxy/proxy.go:126-164 | with SSL, the configured pair is served exactly when it loads, has a leaf, the leaf parses and is unexpired; otherwise the fallback decides and its failure is the only fatal outcome; without SSL plain HTTP |
| Proxy.ReverseProxy.Start | proxy/proxy.go:126-164 | the served listener is the cold-start decision, and the files change only when the fallback runs |
| Proxy.FallbackReusesExisting | proxy/proxy.go:146-155 | when the localhost certificate file exists, the fallback reuses the stored pair and writes nothing |
| Proxy.ColdStartUsesStoredPair | proxy/proxy.go:132-160 | when localhost.crt exists and the configured pair is unusable, the start serves the stored pair or fails on it, for every key generator, and leaves the files alone |
| Proxy.ColdStartServesExpiredCertificate | proxy/proxy.go:146-160 | a start that serves a stored certificate whose leaf has expired, without generating anything |
| Proxy.RenewingRegeneration | proxy/proxy.go:146-160 | a corrected fallback that yields a certificate only after a fresh generation in this start, serving the pair just written |

## Left out

- The database layer (`proxy/db.go`) is not modelled. `LoadFromDB` takes the result of `GetAllWebsites` as a parameter.
- The ACME client's own file effects are not modelled: its cache writes, its renewal and its host policy. The ACME client is the `acmeCertificate` function of `Platform`.
- RSA key generation, signing, PEM encoding and decoding, `x509.ParseCertificate` and `net.ParseIP` are oracles. Their bytes are not computed.
- `filepath.Join` is modelled without its cleaning step (no `..` or duplicate-separator handling).
- HTTP header key canonicalisation is not modelled. Keys are compared as given.
- Request and response bodies are opaque values, so partial copies and streaming are not modelled. `ListenAndServe` itself is not modelled. `Start` returns which listener would serve and with which certificate.
- The mutexes are not modelled. Each locked method is one atomic step.
- `os.Stat` errors other than "not found" are treated as "found", which is also how the code treats them.
- The status and content of `http.ServeFile` answers are not modelled. It answers 200 when the page exists, 400 for a URL path containing "..", and redirects a path ending in "/index.html". `ServeFile(path)` only names the page.
- A write that fails part-way is modelled as an empty file. A file is either content in which PEM decoding finds certificate or key data (`Pem`, a chain included, with the key-pair oracle deciding whether it loads) or content with no PEM data (`Raw`), which never loads.
- Config.ConfigCache.Update: maps are values in the model, so the aliasing of the caller's map in `proxy/config.go:67-71` is not captured.
- Server.APIServer.CheckRateLimit: `time.Duration` is an unbounded integer here, so the `int64` saturation of `now.Sub` is not modelled.
- The static file server (`server/static.go`), the tools and the program entry point (`main.go`) are not part of this model.
- Server.APIServer.ActiveSites: the map iteration order of Go is not fixed by the model. The contract states the set of sites, that each occurs once, and the count.

## Findings

| source | as written | input that shows it | evidently intended | confidence | as-written member | corrected member |
|---|---|---|---|---|---|---|
| proxy/proxy.go:146-160 | the fallback calls `GenerateSelfSignedCert`, which only generates when `certs/self/localhost.crt` is missing, so a stored pair is reloaded and served whatever its expiry | configured pair missing; `certs/self/localhost.crt` and `.key` exist and hold a leaf expired at time 0; `now` = 10 | the fallback should renew, so that the served certificate was freshly generated in this start | not executed | Proxy.ColdStartServesExpiredCertificate | Proxy.RenewingRegeneration |
