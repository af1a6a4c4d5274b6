/** The certificate manager: a registry of named providers to which the
    certificate lifecycle calls are dispatched by name. */
module Cert {
  import opened Base
  import opened FileSys
  import opened Crypto
  import SelfSigned
  import Acme

  /** A registered provider: one of the two implementations of the
      provider interface. */
  datatype Provider =
    | ViaSelfSigned(selfSigned: SelfSigned.SelfSignedProvider)
    | ViaAcme(acme: Acme.AcmeProvider)

  /** Where GetCertificate of each provider leaves the result and the files. */
  function ObtainVia(prov: Provider, files: Files, faults: Faults, host: string,
                     clock: SelfSigned.Clock, p: Platform): (Result<TlsCertificate, CertError>, Files)
  {
    match prov
    case ViaSelfSigned(s) => SelfSigned.Obtain(files, faults, s.certDir, host, clock, p)
    case ViaAcme(_) => (Acme.Obtain(host, p), files)
  }

  /** RenewCertificate of each provider: the self-signed one regenerates, the
      ACME one does nothing and succeeds. */
  function RenewVia(prov: Provider, files: Files, faults: Faults, host: string,
                    clock: SelfSigned.Clock, p: Platform): (Option<CertError>, Files)
  {
    match prov
    case ViaSelfSigned(s) => SelfSigned.Generation(files, faults, s.certDir, host, clock, p)
    case ViaAcme(_) => (None, files)
  }

  predicate ValidateVia(prov: Provider, files: Files, host: string)
  {
    match prov
    case ViaSelfSigned(s) => SelfSigned.Validate(files, s.certDir, host)
    case ViaAcme(a) => Acme.Validate(files, a.certDir, host)
  }

  function SelfDir(certDir: string): string { JoinPath([certDir, "self"]) }
  function AcmeDir(certDir: string): string { JoinPath([certDir, "acme"]) }

  /** The pair of paths GenerateSelfSignedCert reports. */
  datatype Issued = Issued(certFile: string, keyFile: string)

  /** The effect of GenerateSelfSignedCert: GetCertificate on the "self"
      provider, then the two paths derived from the manager's directory. */
  function SelfSignedCert(files: Files, faults: Faults, certDir: string, host: string,
                          clock: SelfSigned.Clock, p: Platform): (Result<Issued, CertError>, Files)
  {
    var (r, after) := SelfSigned.Obtain(files, faults, SelfDir(certDir), host, clock, p);
    match r
    case Failure(e) => (Failure(e), after)
    case Success(_) =>
      (Success(Issued(JoinPath([certDir, "self", host + ".crt"]), JoinPath([certDir, "self", host + ".key"]))), after)
  }

  /** The paths GenerateSelfSignedCert reports are the ones the self-signed
      provider writes and loads, and both files exist afterwards. */
  lemma SelfSignedCertPaths(files: Files, faults: Faults, certDir: string, host: string,
                            clock: SelfSigned.Clock, p: Platform)
    ensures var (r, after) := SelfSignedCert(files, faults, certDir, host, clock, p);
      r.Success? ==>
        && r.value.certFile == SelfSigned.CertPath(SelfDir(certDir), host)
        && r.value.keyFile == SelfSigned.KeyPath(SelfDir(certDir), host)
        && r.value.certFile in after && r.value.keyFile in after
  {
    JoinPathNested(certDir, "self", host + ".crt");
    JoinPathNested(certDir, "self", host + ".key");
  }

  /** GenerateSelfSignedCert succeeds exactly when the self-signed
      GetCertificate does, and changes the files exactly as it does. */
  lemma SelfSignedCertIsObtain(files: Files, faults: Faults, certDir: string, host: string,
                               clock: SelfSigned.Clock, p: Platform)
    ensures var (r, after) := SelfSignedCert(files, faults, certDir, host, clock, p);
      var (r', after') := SelfSigned.Obtain(files, faults, SelfDir(certDir), host, clock, p);
      && after == after'
      && (r.Success? <==> r'.Success?)
      && (r.Failure? ==> r.error == r'.error)
  {
  }

  class CertManager {
    const certDir: string
    const fs: FileSystem
    var providers: map<string, Provider>

    /** Exactly the two providers the constructor registers, sharing the
        manager's file system. */
    ghost predicate Valid()
      reads this
    {
      && providers.Keys == {"self", "acme"}
      && providers["self"].ViaSelfSigned?
      && providers["self"].selfSigned.certDir == SelfDir(certDir)
      && providers["self"].selfSigned.fs == fs
      && providers["acme"].ViaAcme?
      && providers["acme"].acme.certDir == AcmeDir(certDir)
      && providers["acme"].acme.fs == fs
    }

    constructor (certDir: string, fs: FileSystem)
      ensures this.certDir == certDir && this.fs == fs
      ensures Valid()
    {
      this.certDir := certDir;
      this.fs := fs;
      new;
      var s := new SelfSigned.SelfSignedProvider(SelfDir(certDir), fs);
      var a := new Acme.AcmeProvider(AcmeDir(certDir), fs);
      providers := map[];
      providers := providers["self" := ViaSelfSigned(s)];
      providers := providers["acme" := ViaAcme(a)];
    }

    method GetCertificate(host: string, providerType: string, clock: SelfSigned.Clock, p: Platform)
      returns (r: Result<TlsCertificate, CertError>)
      requires Valid()
      modifies fs
      ensures providerType !in providers ==>
                r == Failure(ProviderNotFound(providerType)) && fs.files == old(fs.files)
      ensures providerType in providers ==>
                (r, fs.files) == ObtainVia(providers[providerType], old(fs.files), fs.faults, host, clock, p)
    {
      if providerType !in providers {
        return Failure(ProviderNotFound(providerType));
      }
      match providers[providerType]
      case ViaSelfSigned(s) =>
        r := s.GetCertificate(host, clock, p);
      case ViaAcme(a) =>
        r := a.GetCertificate(host, p);
    }

    method RenewCertificate(host: string, providerType: string, clock: SelfSigned.Clock, p: Platform)
      returns (err: Option<CertError>)
      requires Valid()
      modifies fs
      ensures providerType !in providers ==>
                err == Some(ProviderNotFound(providerType)) && fs.files == old(fs.files)
      ensures providerType in providers ==>
                (err, fs.files) == RenewVia(providers[providerType], old(fs.files), fs.faults, host, clock, p)
    {
      if providerType !in providers {
        return Some(ProviderNotFound(providerType));
      }
      match providers[providerType]
      case ViaSelfSigned(s) =>
        err := s.RenewCertificate(host, clock, p);
      case ViaAcme(a) =>
        err := a.RenewCertificate(host);
    }

    method ValidateCertificate(host: string, providerType: string) returns (valid: bool)
      requires Valid()
      ensures valid <==> providerType in providers && ValidateVia(providers[providerType], fs.files, host)
    {
      if providerType !in providers {
        return false;
      }
      match providers[providerType]
      case ViaSelfSigned(s) =>
        valid := s.ValidateCertificate(host);
      case ViaAcme(a) =>
        valid := a.ValidateCertificate(host);
    }

    /** Always uses the "self" provider, whatever provider the host is
        configured with; reports empty paths on failure. */
    method GenerateSelfSignedCert(host: string, clock: SelfSigned.Clock, p: Platform)
      returns (certFile: string, keyFile: string, err: Option<CertError>)
      requires Valid()
      modifies fs
      ensures var (r, after) := SelfSignedCert(old(fs.files), fs.faults, certDir, host, clock, p);
        && fs.files == after
        && (r.Success? ==> certFile == r.value.certFile && keyFile == r.value.keyFile && err == None)
        && (r.Failure? ==> certFile == "" && keyFile == "" && err == Some(r.error))
    {
      var r := GetCertificate(host, "self", clock, p);
      if r.Failure? {
        return "", "", Some(r.error);
      }
      certFile := JoinPath([certDir, "self", host + ".crt"]);
      keyFile := JoinPath([certDir, "self", host + ".key"]);
      err := None;
    }

    method LoadCert(certFile: string, keyFile: string, p: Platform) returns (r: Result<TlsCertificate, CertError>)
      ensures r == LoadKeyPair(fs.files, certFile, keyFile, p)
    {
      r := LoadKeyPair(fs.files, certFile, keyFile, p);
    }
  }
}
