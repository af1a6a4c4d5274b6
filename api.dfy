/** The administrative API server: the activation table the router reads,
    the per-address rate limiter, and the status and refresh handlers. */
module Server {
  import opened Base

  /** The minimum distance between two accepted requests from one address. */
  const RateLimit: int := 1 * Second

  /** What a handler reads of a request: the remote address (host and port),
      the HTTP method (verb), and the time it was received. */
  datatype ApiRequest = ApiRequest(remoteAddr: string, verb: string, now: int)

  datatype Payload =
    | ActiveSitesPayload(activeSites: seq<string>)
    | MessagePayload(message: string)

  datatype ApiResponse =
    | ErrorResponse(status: int, message: string)
    | JsonResponse(header: map<string, seq<string>>, payload: Payload)

  const TooManyRequests: ApiResponse := ErrorResponse(429, "Zu viele Anfragen")
  const MethodNotAllowed: ApiResponse := ErrorResponse(405, "Methode nicht erlaubt")
  const JsonHeaders: map<string, seq<string>> :=
    map["Content-Type" := ["application/json"], "Access-Control-Allow-Origin" := ["*"]]
  const RefreshMessage: string := "Aktualisierung erfolgreich ausgel\U{00F6}st"

  /** An absent site reads as inactive. */
  predicate IsActive(activeConfigs: map<string, bool>, site: string)
  {
    site in activeConfigs && activeConfigs[site]
  }

  /** The rate limiter accepts an address it has never accepted before, or
      one whose last accepted request is at least RateLimit old. */
  predicate Admits(limiter: map<string, int>, addr: string, now: int)
  {
    addr !in limiter || now - limiter[addr] >= RateLimit
  }

  /** The limiter after one check: only an accepted request moves the
      window. */
  function Record(limiter: map<string, int>, addr: string, now: int): map<string, int>
  {
    if Admits(limiter, addr, now) then limiter[addr := now] else limiter
  }

  predicate Distinct(s: seq<string>)
  {
    forall i, j :: 0 <= i < j < |s| ==> s[i] != s[j]
  }

  /** The limiter after checking every request of `reqs` in order. */
  function Replay(limiter: map<string, int>, reqs: seq<ApiRequest>): map<string, int>
    decreases |reqs|
  {
    if reqs == [] then limiter
    else
      var last := reqs[|reqs| - 1];
      Record(Replay(limiter, reqs[..|reqs| - 1]), last.remoteAddr, last.now)
  }

  /** Whether request i of the sequence is accepted. */
  predicate AcceptedAt(limiter: map<string, int>, reqs: seq<ApiRequest>, i: nat)
    requires i < |reqs|
  {
    Admits(Replay(limiter, reqs[..i]), reqs[i].remoteAddr, reqs[i].now)
  }

  /** After an accepted request from `addr`, the limiter records the time of
      the last accepted request from `addr` so far. */
  lemma {:induction false} RecordsLastAccepted(limiter: map<string, int>, reqs: seq<ApiRequest>, i: nat, j: nat)
    requires i < j <= |reqs| && AcceptedAt(limiter, reqs, i)
    ensures reqs[i].remoteAddr in Replay(limiter, reqs[..j])
    ensures exists k :: i <= k < j && AcceptedAt(limiter, reqs, k) && reqs[k].remoteAddr == reqs[i].remoteAddr
              && Replay(limiter, reqs[..j])[reqs[i].remoteAddr] == reqs[k].now
    decreases j
  {
    var addr := reqs[i].remoteAddr;
    assert reqs[..j][..j - 1] == reqs[..j - 1];
    if j == i + 1 {
      assert Replay(limiter, reqs[..j])[addr] == reqs[i].now;
    } else {
      RecordsLastAccepted(limiter, reqs, i, j - 1);
      var k :| i <= k < j - 1 && AcceptedAt(limiter, reqs, k) && reqs[k].remoteAddr == addr
               && Replay(limiter, reqs[..j - 1])[addr] == reqs[k].now;
      var r := reqs[j - 1];
      if r.remoteAddr == addr && AcceptedAt(limiter, reqs, j - 1) {
        assert Replay(limiter, reqs[..j])[addr] == reqs[j - 1].now;
      } else {
        assert Replay(limiter, reqs[..j])[addr] == reqs[k].now;
      }
    }
  }

  /** The accepted request whose time the limiter holds is the last one
      from that address: no later accepted request from it comes before j. */
  lemma RecordedIsLast(limiter: map<string, int>, reqs: seq<ApiRequest>, i: nat, j: nat, k: nat, k': nat)
    requires i < j <= |reqs| && AcceptedAt(limiter, reqs, i)
    requires i <= k < j && AcceptedAt(limiter, reqs, k) && reqs[k].remoteAddr == reqs[i].remoteAddr
    requires reqs[i].remoteAddr in Replay(limiter, reqs[..j])
    requires Replay(limiter, reqs[..j])[reqs[i].remoteAddr] == reqs[k].now
    requires k < k' < j && AcceptedAt(limiter, reqs, k')
    ensures reqs[k'].remoteAddr != reqs[i].remoteAddr
  {
    if reqs[k'].remoteAddr == reqs[i].remoteAddr {
      RecordsLastAccepted(limiter, reqs, k', j);
      var k'' :| k' <= k'' < j && AcceptedAt(limiter, reqs, k'') && reqs[k''].remoteAddr == reqs[k'].remoteAddr
                 && Replay(limiter, reqs[..j])[reqs[k'].remoteAddr] == reqs[k''].now;
      AcceptedAreSpaced(limiter, reqs, k, k'');
    }
  }

  /** Two accepted requests from the same address are at least RateLimit
      apart, whatever order the clock readings come in. */
  lemma {:induction false} AcceptedAreSpaced(limiter: map<string, int>, reqs: seq<ApiRequest>, i: nat, j: nat)
    requires i < j < |reqs|
    requires reqs[i].remoteAddr == reqs[j].remoteAddr
    requires AcceptedAt(limiter, reqs, i) && AcceptedAt(limiter, reqs, j)
    ensures reqs[j].now - reqs[i].now >= RateLimit
    decreases j
  {
    RecordsLastAccepted(limiter, reqs, i, j);
    var k :| i <= k < j && AcceptedAt(limiter, reqs, k) && reqs[k].remoteAddr == reqs[i].remoteAddr
             && Replay(limiter, reqs[..j])[reqs[i].remoteAddr] == reqs[k].now;
    if k > i {
      AcceptedAreSpaced(limiter, reqs, i, k);
    }
  }

  /** The activation table after SetActiveConfig was called with each pair
      of `sets` in order. */
  function ActivationAfter(activeConfigs: map<string, bool>, sets: seq<(string, bool)>): map<string, bool>
    decreases |sets|
  {
    if sets == [] then activeConfigs
    else
      var last := sets[|sets| - 1];
      ActivationAfter(activeConfigs, sets[..|sets| - 1])[last.0 := last.1]
  }

  /** The last value `sets` gives `site`, if any. */
  function LastSetting(sets: seq<(string, bool)>, site: string): Option<bool>
    decreases |sets|
  {
    if sets == [] then None
    else if sets[|sets| - 1].0 == site then Some(sets[|sets| - 1].1)
    else LastSetting(sets[..|sets| - 1], site)
  }

  /** IsActiveConfig returns the last value set for the site, or the old
      answer (false for a site never set) when none was. */
  lemma {:induction false} LastSetWins(activeConfigs: map<string, bool>, sets: seq<(string, bool)>, site: string)
    ensures IsActive(ActivationAfter(activeConfigs, sets), site) ==
              match LastSetting(sets, site)
              case Some(b) => b
              case None => IsActive(activeConfigs, site)
    decreases |sets|
  {
    if sets != [] {
      LastSetWins(activeConfigs, sets[..|sets| - 1], site);
    }
  }

  class APIServer {
    var activeConfigs: map<string, bool>
    var rateLimiter: map<string, int>

    constructor ()
      ensures activeConfigs == map[] && rateLimiter == map[]
    {
      activeConfigs := map[];
      rateLimiter := map[];
    }

    method CheckRateLimit(remoteAddr: string, now: int) returns (accepted: bool)
      modifies this
      ensures accepted <==> Admits(old(rateLimiter), remoteAddr, now)
      ensures rateLimiter == Record(old(rateLimiter), remoteAddr, now)
      ensures activeConfigs == old(activeConfigs)
    {
      if remoteAddr in rateLimiter && now - rateLimiter[remoteAddr] < RateLimit {
        return false;
      }
      rateLimiter := rateLimiter[remoteAddr := now];
      accepted := true;
    }

    method SetActiveConfig(site: string, active: bool)
      modifies this
      ensures activeConfigs == old(activeConfigs)[site := active]
      ensures rateLimiter == old(rateLimiter)
    {
      activeConfigs := activeConfigs[site := active];
    }

    method IsActiveConfig(site: string) returns (active: bool)
      ensures active <==> IsActive(activeConfigs, site)
    {
      active := site in activeConfigs && activeConfigs[site];
    }

    /** Every site of the table once, active or not, in map order. */
    method ActiveSites() returns (sites: seq<string>)
      ensures Distinct(sites)
      ensures forall s :: s in sites <==> s in activeConfigs
      ensures |sites| == |activeConfigs|
    {
      sites := [];
      var pending := activeConfigs.Keys;
      while pending != {}
        invariant pending <= activeConfigs.Keys
        invariant Distinct(sites)
        invariant forall s :: s in sites <==> s in activeConfigs.Keys - pending
        invariant |sites| + |pending| == |activeConfigs|
        decreases pending
      {
        var site :| site in pending;
        assert site !in sites;
        assert forall i :: 0 <= i < |sites| ==> sites[i] != site;
        sites := sites + [site];
        pending := pending - {site};
      }
    }

    method HandleStatus(req: ApiRequest) returns (resp: ApiResponse)
      modifies this
      ensures rateLimiter == Record(old(rateLimiter), req.remoteAddr, req.now)
      ensures activeConfigs == old(activeConfigs)
      ensures !Admits(old(rateLimiter), req.remoteAddr, req.now) ==> resp == TooManyRequests
      ensures Admits(old(rateLimiter), req.remoteAddr, req.now) && req.verb != "GET" ==> resp == MethodNotAllowed
      ensures Admits(old(rateLimiter), req.remoteAddr, req.now) && req.verb == "GET" ==>
                && resp.JsonResponse? && resp.header == JsonHeaders && resp.payload.ActiveSitesPayload?
                && Distinct(resp.payload.activeSites)
                && (forall s :: s in resp.payload.activeSites <==> s in activeConfigs)
    {
      var accepted := CheckRateLimit(req.remoteAddr, req.now);
      if !accepted {
        return TooManyRequests;
      }
      if req.verb != "GET" {
        return MethodNotAllowed;
      }
      var sites := ActiveSites();
      resp := JsonResponse(JsonHeaders, ActiveSitesPayload(sites));
    }

    method HandleRefresh(req: ApiRequest) returns (resp: ApiResponse)
      modifies this
      ensures rateLimiter == Record(old(rateLimiter), req.remoteAddr, req.now)
      ensures activeConfigs == old(activeConfigs)
      ensures resp ==
                if !Admits(old(rateLimiter), req.remoteAddr, req.now) then TooManyRequests
                else if req.verb != "POST" then MethodNotAllowed
                else JsonResponse(JsonHeaders, MessagePayload(RefreshMessage))
    {
      var accepted := CheckRateLimit(req.remoteAddr, req.now);
      if !accepted {
        return TooManyRequests;
      }
      if req.verb != "POST" {
        return MethodNotAllowed;
      }
      resp := JsonResponse(JsonHeaders, MessagePayload(RefreshMessage));
    }
  }
}
