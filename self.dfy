/** The self-signed certificate provider. It keeps one certificate and one
    private key per host, as the PEM files <dir>/<host>.crt and
    <dir>/<host>.key, and creates them with a fresh 2048-bit RSA key.

    The functions Generation and Obtain state what each operation does to
    the files. The class SelfSignedProvider carries out the same operations
    step by step on a FileSystem, and its method contracts tie each method
    to those functions. */
module SelfSigned {
  import opened Base
  import opened FileSys
  import opened Crypto

  const KeyBits: nat := 2048
  /** One year: 365 * 24 hours. */
  const Validity: int := 365 * 24 * Hour
  const CertificateBlock: string := "CERTIFICATE"
  const PrivateKeyBlock: string := "RSA PRIVATE KEY"
  const Organization: string := "SecNex Reverse Proxy"
  const OrganizationalUnit: string := "Self Signed Certificate"
  const Country: string := "DE"

  /** The two readings of the wall clock that one generation takes: the
      first becomes NotBefore, the second plus a year becomes NotAfter. */
  datatype Clock = Clock(first: int, second: int)

  function CertPath(dir: string, host: string): string { JoinPath([dir, host + ".crt"]) }
  function KeyPath(dir: string, host: string): string { JoinPath([dir, host + ".key"]) }

  /** The certificate and the key of a host never share a file. */
  lemma PathsDistinct(dir: string, host: string)
    ensures CertPath(dir, host) != KeyPath(dir, host)
  {
    var c, k := CertPath(dir, host), KeyPath(dir, host);
    assert [dir, host + ".crt"][..1] == [dir];
    assert [dir, host + ".key"][..1] == [dir];
    assert c[|c| - 1] == 't';
    assert k[|k| - 1] == 'y';
  }

  /** The certificate template for `host`; the subject alternative name is
      appended to the IP list when the host parses as an IP address and to
      the DNS list otherwise. */
  function NewTemplate(host: string, clock: Clock, parseIP: string -> Option<IP>): (t: Template)
    ensures t.subject.commonName == host
    ensures t.notBefore == clock.first
    ensures t.notAfter - t.notBefore == Validity + (clock.second - clock.first)
    ensures parseIP(host).Some? ==> t.ipAddresses == [parseIP(host).value] && t.dnsNames == []
    ensures parseIP(host).None? ==> t.ipAddresses == [] && t.dnsNames == [host]
    ensures |t.ipAddresses| + |t.dnsNames| == 1
  {
    var base := Template(
      serialNumber := 1,
      subject := Name([Organization], [OrganizationalUnit], host, [Country]),
      notBefore := clock.first,
      notAfter := clock.second + Validity,
      keyUsage := {KeyEncipherment, DigitalSignature},
      extKeyUsage := [ServerAuth],
      basicConstraintsValid := true,
      ipAddresses := [],
      dnsNames := []);
    match parseIP(host)
    case Some(ip) => base.(ipAddresses := base.ipAddresses + [ip])
    case None => base.(dnsNames := base.dnsNames + [host])
  }

  /** The fixed fields of every template. */
  lemma TemplateConstants(host: string, clock: Clock, parseIP: string -> Option<IP>)
    ensures var t := NewTemplate(host, clock, parseIP);
      && t.serialNumber == 1
      && t.subject == Name([Organization], [OrganizationalUnit], host, [Country])
      && t.keyUsage == {KeyEncipherment, DigitalSignature}
      && t.extKeyUsage == [ServerAuth]
      && t.basicConstraintsValid
  {
  }

  /** The effect of generateCertificate: the error it returns, if any, and
      the resulting files. The certificate file is written before the key
      file, and a failure stops the sequence where it happens. */
  function Generation(files: Files, faults: Faults, dir: string, host: string, clock: Clock, p: Platform)
    : (Option<CertError>, Files)
  {
    match p.generateKey(KeyBits)
    case None => (Some(KeyGenerationFailed), files)
    case Some(priv) =>
      match p.createCertificate(NewTemplate(host, clock, p.parseIP), priv)
      case None => (Some(SigningFailed), files)
      case Some(der) =>
        var certFile, keyFile := CertPath(dir, host), KeyPath(dir, host);
        if certFile in faults.createFails then (Some(CreateFailed(certFile)), files)
        else
          var written := files[certFile := Stored(faults, certFile, Pem(CertificateBlock, der))];
          if keyFile in faults.createFails then (Some(CreateFailed(keyFile)), written)
          else (None, written[keyFile := Stored(faults, keyFile, Pem(PrivateKeyBlock, p.marshalPKCS1(priv)))])
  }

  /** The effect of GetCertificate: generate only when the certificate file
      is missing, then load the pair from the files. */
  function Obtain(files: Files, faults: Faults, dir: string, host: string, clock: Clock, p: Platform)
    : (Result<TlsCertificate, CertError>, Files)
  {
    var certFile, keyFile := CertPath(dir, host), KeyPath(dir, host);
    if certFile !in files then
      var (err, generated) := Generation(files, faults, dir, host, clock, p);
      if err.Some? then (Failure(err.value), generated)
      else (LoadKeyPair(generated, certFile, keyFile, p), generated)
    else (LoadKeyPair(files, certFile, keyFile, p), files)
  }

  /** ValidateCertificate: the certificate file exists. */
  predicate Validate(files: Files, dir: string, host: string)
  {
    CertPath(dir, host) in files
  }

  /** Generation touches no file but the host's certificate and key. */
  lemma GenerationFrame(files: Files, faults: Faults, dir: string, host: string, clock: Clock, p: Platform)
    ensures var after := Generation(files, faults, dir, host, clock, p).1;
      forall path :: path != CertPath(dir, host) && path != KeyPath(dir, host) ==>
        (path in after <==> path in files) && (path in files ==> after[path] == files[path])
  {
  }

  /** A generation that reports success has created (or truncated) both
      files, whatever was there before. Each holds the new certificate or
      key, except that a file whose write failed holds no PEM block: that
      failure is not reported. */
  lemma GenerationWritesBoth(files: Files, faults: Faults, dir: string, host: string, clock: Clock, p: Platform)
    requires Generation(files, faults, dir, host, clock, p).0.None?
    ensures p.generateKey(KeyBits).Some?
    ensures p.createCertificate(NewTemplate(host, clock, p.parseIP), p.generateKey(KeyBits).value).Some?
    ensures var after, priv := Generation(files, faults, dir, host, clock, p).1, p.generateKey(KeyBits).value;
      var crt, key := CertPath(dir, host), KeyPath(dir, host);
      && crt in after && key in after
      && after[crt] == (if crt in faults.writeFails then Raw([])
                        else Pem(CertificateBlock, p.createCertificate(NewTemplate(host, clock, p.parseIP), priv).value))
      && after[key] == (if key in faults.writeFails then Raw([]) else Pem(PrivateKeyBlock, p.marshalPKCS1(priv)))
  {
    PathsDistinct(dir, host);
  }

  /** Key generation and signing come before any write: when either fails
      the files are untouched. */
  lemma GenerationFailsBeforeWriting(files: Files, faults: Faults, dir: string, host: string, clock: Clock, p: Platform)
    requires p.generateKey(KeyBits).None? ||
             p.createCertificate(NewTemplate(host, clock, p.parseIP), p.generateKey(KeyBits).value).None?
    ensures Generation(files, faults, dir, host, clock, p).0.Some?
    ensures Generation(files, faults, dir, host, clock, p).1 == files
  {
  }

  /** Write order: when the key file cannot be created, the new certificate
      file has already been written (or truncated, if its write failed) and
      every other file, the key file included, is left as it was. */
  lemma GenerationWriteOrder(files: Files, faults: Faults, dir: string, host: string, clock: Clock, p: Platform)
    requires Generation(files, faults, dir, host, clock, p).0 == Some(CreateFailed(KeyPath(dir, host)))
    ensures p.generateKey(KeyBits).Some?
    ensures p.createCertificate(NewTemplate(host, clock, p.parseIP), p.generateKey(KeyBits).value).Some?
    ensures var der := p.createCertificate(NewTemplate(host, clock, p.parseIP), p.generateKey(KeyBits).value).value;
      Generation(files, faults, dir, host, clock, p).1 ==
        files[CertPath(dir, host) := Stored(faults, CertPath(dir, host), Pem(CertificateBlock, der))]
    ensures CertPath(dir, host) in Generation(files, faults, dir, host, clock, p).1
    ensures KeyPath(dir, host) in Generation(files, faults, dir, host, clock, p).1 <==> KeyPath(dir, host) in files
  {
    PathsDistinct(dir, host);
  }

  /** An existing certificate file is never regenerated, even when the key
      file is missing; the load then fails on the key. */
  lemma ObtainKeepsExisting(files: Files, faults: Faults, dir: string, host: string, clock: Clock, p: Platform)
    requires CertPath(dir, host) in files
    ensures Obtain(files, faults, dir, host, clock, p).1 == files
    ensures Obtain(files, faults, dir, host, clock, p).0 == LoadKeyPair(files, CertPath(dir, host), KeyPath(dir, host), p)
    ensures KeyPath(dir, host) !in files ==>
              Obtain(files, faults, dir, host, clock, p).0 == Failure(ReadFailed(KeyPath(dir, host)))
  {
  }

  /** When the certificate file is missing, generation runs first; if it
      fails, its error is returned and no load is attempted. */
  lemma ObtainGeneratesWhenMissing(files: Files, faults: Faults, dir: string, host: string, clock: Clock, p: Platform)
    requires CertPath(dir, host) !in files
    ensures Obtain(files, faults, dir, host, clock, p).1 == Generation(files, faults, dir, host, clock, p).1
    ensures var err := Generation(files, faults, dir, host, clock, p).0;
      err.Some? ==> Obtain(files, faults, dir, host, clock, p).0 == Failure(err.value)
  {
  }

  /** Validation holds after every successful generation, and therefore
      after every successful GetCertificate. */
  lemma ValidAfterGeneration(files: Files, faults: Faults, dir: string, host: string, clock: Clock, p: Platform)
    ensures Generation(files, faults, dir, host, clock, p).0.None? ==>
              Validate(Generation(files, faults, dir, host, clock, p).1, dir, host)
    ensures Obtain(files, faults, dir, host, clock, p).0.Success? ==>
              Validate(Obtain(files, faults, dir, host, clock, p).1, dir, host)
  {
    PathsDistinct(dir, host);
  }

  /** A failed key-file creation is sticky: the certificate file it left
      behind makes every later GetCertificate skip generation and fail to
      read the key. */
  lemma KeyCreateFailureIsSticky(files: Files, faults: Faults, dir: string, host: string,
                                 clock: Clock, p: Platform, clock': Clock, p': Platform)
    requires CertPath(dir, host) !in files && KeyPath(dir, host) !in files
    requires Obtain(files, faults, dir, host, clock, p).0 == Failure(CreateFailed(KeyPath(dir, host)))
    ensures var after := Obtain(files, faults, dir, host, clock, p).1;
      && Obtain(after, faults, dir, host, clock', p').1 == after
      && Obtain(after, faults, dir, host, clock', p').0 == Failure(ReadFailed(KeyPath(dir, host)))
  {
    PathsDistinct(dir, host);
    var (err, after) := Generation(files, faults, dir, host, clock, p);
    assert err == Some(CreateFailed(KeyPath(dir, host)));
    GenerationWriteOrder(files, faults, dir, host, clock, p);
  }

  /** A write that fails after its file was created, for the certificate
      or for the key, goes unnoticed: generation reports success and the
      host validates, yet the pair does not load, and since the certificate
      file now exists every later GetCertificate skips generation and fails
      the same way. */
  lemma SilentWriteFailureIsSticky(files: Files, faults: Faults, dir: string, host: string,
                                   clock: Clock, p: Platform, clock': Clock, p': Platform)
    requires CertPath(dir, host) !in files
    requires CertPath(dir, host) in faults.writeFails || KeyPath(dir, host) in faults.writeFails
    requires Generation(files, faults, dir, host, clock, p).0.None?
    ensures var (r, after) := Obtain(files, faults, dir, host, clock, p);
      && r == Failure(InvalidKeyPair)
      && Validate(after, dir, host)
      && Obtain(after, faults, dir, host, clock', p') == (Failure(InvalidKeyPair), after)
  {
    GenerationWritesBoth(files, faults, dir, host, clock, p);
  }

  class SelfSignedProvider {
    const certDir: string
    const fs: FileSystem

    constructor (certDir: string, fs: FileSystem)
      ensures this.certDir == certDir && this.fs == fs
    {
      this.certDir := certDir;
      this.fs := fs;
    }

    method GetCertificate(host: string, clock: Clock, p: Platform) returns (r: Result<TlsCertificate, CertError>)
      modifies fs
      ensures (r, fs.files) == Obtain(old(fs.files), fs.faults, certDir, host, clock, p)
    {
      var certFile := CertPath(certDir, host);
      var keyFile := KeyPath(certDir, host);
      var present := fs.Exists(certFile);
      if !present {
        var err := GenerateCertificate(host, clock, p);
        if err.Some? {
          return Failure(err.value);
        }
      }
      r := LoadKeyPair(fs.files, certFile, keyFile, p);
    }

    method RenewCertificate(host: string, clock: Clock, p: Platform) returns (err: Option<CertError>)
      modifies fs
      ensures (err, fs.files) == Generation(old(fs.files), fs.faults, certDir, host, clock, p)
    {
      err := GenerateCertificate(host, clock, p);
    }

    method ValidateCertificate(host: string) returns (valid: bool)
      ensures valid <==> Validate(fs.files, certDir, host)
    {
      valid := fs.Exists(CertPath(certDir, host));
    }

    method GenerateCertificate(host: string, clock: Clock, p: Platform) returns (err: Option<CertError>)
      modifies fs
      ensures (err, fs.files) == Generation(old(fs.files), fs.faults, certDir, host, clock, p)
    {
      var priv := p.generateKey(KeyBits);
      if priv.None? {
        return Some(KeyGenerationFailed);
      }
      var template := NewTemplate(host, clock, p.parseIP);
      var der := p.createCertificate(template, priv.value);
      if der.None? {
        return Some(SigningFailed);
      }
      var certFile := CertPath(certDir, host);
      var keyFile := KeyPath(certDir, host);
      var ok := fs.Create(certFile, Pem(CertificateBlock, der.value));
      if !ok {
        return Some(CreateFailed(certFile));
      }
      ok := fs.Create(keyFile, Pem(PrivateKeyBlock, p.marshalPKCS1(priv.value)));
      if !ok {
        return Some(CreateFailed(keyFile));
      }
      err := None;
    }
  }
}
