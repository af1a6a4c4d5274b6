/** The ACME provider: a thin wrapper over an automated certificate client
    whose cache lives in its directory. The client itself is the
    Platform's acmeCertificate oracle. */
module Acme {
  import opened Base
  import opened FileSys
  import opened Crypto

  /** ValidateCertificate: the client's cache holds an entry named after the
      host. */
  predicate Validate(files: Files, dir: string, host: string)
  {
    JoinPath([dir, host]) in files
  }

  /** GetCertificate: ask the client for the host's certificate and wrap a
      failure as an ACME error. */
  function Obtain(host: string, p: Platform): (r: Result<TlsCertificate, CertError>)
    ensures r.Success? <==> p.acmeCertificate(host).Some?
    ensures r.Success? ==> r.value == p.acmeCertificate(host).value
    ensures r.Failure? ==> r.error == AcmeFailed
  {
    match p.acmeCertificate(host)
    case Some(c) => Success(c)
    case None => Failure(AcmeFailed)
  }

  class AcmeProvider {
    const certDir: string
    const fs: FileSystem

    constructor (certDir: string, fs: FileSystem)
      ensures this.certDir == certDir && this.fs == fs
    {
      this.certDir := certDir;
      this.fs := fs;
    }

    method GetCertificate(host: string, p: Platform) returns (r: Result<TlsCertificate, CertError>)
      ensures r == Obtain(host, p)
    {
      r := Obtain(host, p);
    }

    /** The client renews on its own, so renewal always succeeds. */
    method RenewCertificate(host: string) returns (err: Option<CertError>)
      ensures err == None
    {
      err := None;
    }

    method ValidateCertificate(host: string) returns (valid: bool)
      ensures valid <==> Validate(fs.files, certDir, host)
    {
      valid := fs.Exists(JoinPath([certDir, host]));
    }
  }
}
