/** The per-host routing configuration and the cache that holds it. */
module Config {
  import opened Base
  import opened FileSys
  import opened Crypto
  import SelfSigned
  import Cert

  /** Where requests for one virtual host are forwarded. */
  datatype ProxyConfig = ProxyConfig(protocol: string, host: string, port: int, ssl: bool)

  /** The zero value Get returns for an absent host. */
  const ZeroConfig: ProxyConfig := ProxyConfig("", "", 0, false)

  /** A website record as the database returns it. */
  datatype Website = Website(domain: string, protocol: string, host: string, port: int,
                             ssl: bool, active: bool, email: string)

  datatype DbError = DbError(message: string)

  function ToConfig(w: Website): ProxyConfig
  {
    ProxyConfig(w.protocol, w.host, w.port, w.ssl)
  }

  /** The cache contents LoadFromDB builds from `websites`: a fresh map into
      which every active record is inserted in order. */
  function ActiveConfigs(websites: seq<Website>): map<string, ProxyConfig>
  {
    if websites == [] then map[]
    else
      var m, w := ActiveConfigs(websites[..|websites| - 1]), websites[|websites| - 1];
      if w.active then m[w.domain := ToConfig(w)] else m
  }

  /** The hosts of the loaded cache are exactly the domains of the active
      records. */
  lemma {:induction false} ActiveConfigsKeys(websites: seq<Website>)
    ensures ActiveConfigs(websites).Keys == set i | 0 <= i < |websites| && websites[i].active :: websites[i].domain
  {
    if websites != [] {
      var init := websites[..|websites| - 1];
      ActiveConfigsKeys(init);
      var n := |websites| - 1;
      assert (set i | 0 <= i < |websites| && websites[i].active :: websites[i].domain)
          == (set i | 0 <= i < |init| && init[i].active :: init[i].domain)
             + (if websites[n].active then {websites[n].domain} else {});
    }
  }

  /** Each loaded host maps to the last active record with that domain: a
      later record overwrites an earlier one. */
  lemma {:induction false} ActiveConfigsLastWins(websites: seq<Website>, d: string)
    requires d in ActiveConfigs(websites)
    ensures exists i :: 0 <= i < |websites| && websites[i].active && websites[i].domain == d
              && ActiveConfigs(websites)[d] == ToConfig(websites[i])
              && forall j :: i < j < |websites| ==> !(websites[j].active && websites[j].domain == d)
  {
    var n := |websites| - 1;
    var init := websites[..n];
    if websites[n].active && websites[n].domain == d {
      assert ActiveConfigs(websites)[d] == ToConfig(websites[n]);
    } else {
      assert ActiveConfigs(websites)[d] == ActiveConfigs(init)[d];
      ActiveConfigsLastWins(init, d);
      var i :| 0 <= i < |init| && init[i].active && init[i].domain == d
               && ActiveConfigs(init)[d] == ToConfig(init[i])
               && forall j :: i < j < |init| ==> !(init[j].active && init[j].domain == d);
      assert websites[i] == init[i];
      assert forall j :: i < j < |websites| ==> !(websites[j].active && websites[j].domain == d) by {
        forall j | i < j < |websites| ensures !(websites[j].active && websites[j].domain == d) {
          if j < n { assert websites[j] == init[j]; }
        }
      }
    }
  }

  /** One administrative call on the cache, as a value: the trace
      vocabulary of the persistence lemma below. */
  datatype CacheOp =
    | SetOp(host: string, config: ProxyConfig)
    | DeleteOp(host: string)
    | UpdateOp(configs: map<string, ProxyConfig>)
    | LoadOp(websites: Result<seq<Website>, DbError>)

  /** The contents after one call, as the method contracts below state it. */
  function ApplyOp(m: map<string, ProxyConfig>, op: CacheOp): map<string, ProxyConfig>
  {
    match op
    case SetOp(h, c) => m[h := c]
    case DeleteOp(h) => m - {h}
    case UpdateOp(configs) => configs
    case LoadOp(Failure(_)) => m
    case LoadOp(Success(websites)) => ActiveConfigs(websites)
  }

  function ApplyOps(m: map<string, ProxyConfig>, ops: seq<CacheOp>): map<string, ProxyConfig>
    decreases |ops|
  {
    if ops == [] then m else ApplyOps(ApplyOp(m, ops[0]), ops[1..])
  }

  /** Whether a call may change what Get(h) returns. */
  predicate Touches(op: CacheOp, h: string)
  {
    match op
    case SetOp(h', _) => h' == h
    case DeleteOp(h') => h' == h
    case UpdateOp(_) => true
    case LoadOp(_) => true
  }

  /** After Set(h, c), Get(h) returns c until a later call touches h. */
  lemma {:induction false} SetPersists(m: map<string, ProxyConfig>, h: string, c: ProxyConfig, ops: seq<CacheOp>)
    requires forall i :: 0 <= i < |ops| ==> !Touches(ops[i], h)
    ensures h in ApplyOps(m[h := c], ops) && ApplyOps(m[h := c], ops)[h] == c
    decreases |ops|
  {
    if ops != [] {
      var next := ApplyOp(m[h := c], ops[0]);
      assert !Touches(ops[0], h);
      assert next == next[h := c];
      SetPersists(next, h, c, ops[1..]);
    }
  }

  class ConfigCache {
    var configs: map<string, ProxyConfig>
    const certManager: Cert.CertManager

    ghost predicate Valid()
      reads this, certManager
    {
      certManager.Valid()
    }

    constructor (certManager: Cert.CertManager)
      ensures this.certManager == certManager
      ensures configs == map[]
    {
      this.certManager := certManager;
      configs := map[];
    }

    /** An absent host gives the zero configuration and false. */
    method Get(host: string) returns (config: ProxyConfig, found: bool)
      ensures found <==> host in configs
      ensures config == if found then configs[host] else ZeroConfig
    {
      found := host in configs;
      config := if found then configs[host] else ZeroConfig;
    }

    /** Stores the configuration; with SSL set it first asks for a
        self-signed certificate for the host and ignores the outcome. */
    method Set(host: string, config: ProxyConfig, clock: SelfSigned.Clock, p: Platform)
      requires Valid()
      modifies this, certManager.fs
      ensures Valid()
      ensures configs == old(configs)[host := config]
      ensures certManager.fs.files ==
                if config.ssl
                then Cert.SelfSignedCert(old(certManager.fs.files), certManager.fs.faults,
                                         certManager.certDir, host, clock, p).1
                else old(certManager.fs.files)
    {
      if config.ssl {
        var _, _, _ := certManager.GenerateSelfSignedCert(host, clock, p);
      }
      configs := configs[host := config];
    }

    /** Removes one host and leaves every other entry alone. */
    method Delete(host: string)
      modifies this
      ensures configs == old(configs) - {host}
      ensures forall h :: h != host ==> (h in configs <==> h in old(configs))
      ensures forall h :: h in configs ==> configs[h] == old(configs)[h]
    {
      configs := configs - {host};
    }

    /** A copy of the contents, built entry by entry. Maps are values here,
        so later changes to the cache cannot reach the copy. */
    method GetAll() returns (snapshot: map<string, ProxyConfig>)
      ensures snapshot == configs
    {
      snapshot := map[];
      var pending := configs.Keys;
      while pending != {}
        invariant pending <= configs.Keys
        invariant snapshot.Keys == configs.Keys - pending
        invariant forall h :: h in snapshot ==> snapshot[h] == configs[h]
        decreases pending
      {
        var h :| h in pending;
        snapshot := snapshot[h := configs[h]];
        pending := pending - {h};
      }
    }

    /** Replaces the contents wholesale. */
    method Update(newConfigs: map<string, ProxyConfig>)
      modifies this
      ensures configs == newConfigs
    {
      configs := newConfigs;
    }

    /** Rebuilds the contents from the database records, keeping only the
        active ones; a database error leaves the cache as it was. */
    method LoadFromDB(websites: Result<seq<Website>, DbError>) returns (err: Option<DbError>)
      modifies this
      ensures websites.Failure? ==> err == Some(websites.error) && configs == old(configs)
      ensures websites.Success? ==> err == None && configs == ActiveConfigs(websites.value)
    {
      if websites.Failure? {
        return Some(websites.error);
      }
      var records := websites.value;
      configs := map[];
      for i := 0 to |records|
        invariant configs == ActiveConfigs(records[..i])
      {
        assert records[..i + 1][..i] == records[..i];
        if records[i].active {
          configs := configs[records[i].domain := ToConfig(records[i])];
        }
      }
      assert records[..|records|] == records;
      err := None;
    }
  }

  /** GetAll's result is a snapshot: changing the cache afterwards leaves it
      as it was. */
  method SnapshotIsUnaffected(cache: ConfigCache, host: string) returns (snapshot: map<string, ProxyConfig>)
    modifies cache
    ensures snapshot == old(cache.configs)
    ensures cache.configs == old(cache.configs) - {host}
  {
    snapshot := cache.GetAll();
    cache.Delete(host);
  }
}
