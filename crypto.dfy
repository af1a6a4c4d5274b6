/** The cryptographic and parsing library calls the certificate code relies
    on, kept abstract: each is a possibly failing oracle gathered in a
    Platform record. Passing a different record to two calls models two
    calls that get different answers (fresh randomness, a changed file). */
module Crypto {
  import opened Base
  import opened FileSys

  /** DER-encoded bytes (a certificate or a marshalled private key). */
  type Der = seq<bv8>
  /** A parsed IP address, as net.IP holds it. */
  type IP = seq<bv8>

  datatype PrivateKey = PrivateKey(modulusBits: nat, secret: seq<bv8>)

  datatype Name = Name(
    organization: seq<string>,
    organizationalUnit: seq<string>,
    commonName: string,
    country: seq<string>)

  datatype KeyUsage = DigitalSignature | KeyEncipherment
  datatype ExtKeyUsage = ServerAuth

  /** The fields of an x509.Certificate template that the self-signed
      provider fills in. */
  datatype Template = Template(
    serialNumber: int,
    subject: Name,
    notBefore: int,
    notAfter: int,
    keyUsage: set<KeyUsage>,
    extKeyUsage: seq<ExtKeyUsage>,
    basicConstraintsValid: bool,
    ipAddresses: seq<IP>,
    dnsNames: seq<string>)

  /** A parsed leaf certificate; NotAfter is the only field read. */
  datatype X509Certificate = X509Certificate(notAfter: int)

  /** A tls.Certificate: the DER chain, leaf first. */
  datatype TlsCertificate = TlsCertificate(certificate: seq<Der>)

  /** The error kinds the certificate code can return. */
  datatype CertError =
    | ProviderNotFound(name: string)   // "provider <name> not found"
    | KeyGenerationFailed              // rsa.GenerateKey
    | SigningFailed                    // x509.CreateCertificate
    | CreateFailed(path: string)       // os.Create
    | ReadFailed(path: string)         // reading a file for tls.LoadX509KeyPair
    | InvalidKeyPair                   // PEM decoding, parsing or key mismatch
    | AcmeFailed                       // "error getting certificate: ...", wrapping the client error

  datatype Platform = Platform(
    /** net.ParseIP */
    parseIP: string -> Option<IP>,
    /** rsa.GenerateKey(rand.Reader, bits) */
    generateKey: nat -> Option<PrivateKey>,
    /** x509.CreateCertificate(rand.Reader, template, template, pub, priv) */
    createCertificate: (Template, PrivateKey) -> Option<Der>,
    /** x509.MarshalPKCS1PrivateKey */
    marshalPKCS1: PrivateKey -> Der,
    /** tls.X509KeyPair on the contents of the two files */
    x509KeyPair: (FileContent, FileContent) -> Option<TlsCertificate>,
    /** x509.ParseCertificate */
    parseCertificate: Der -> Option<X509Certificate>,
    /** autocert.Manager.GetCertificate for a server name */
    acmeCertificate: string -> Option<TlsCertificate>)

  /** tls.LoadX509KeyPair(certFile, keyFile): read the certificate file, then
      the key file, then decode and match the pair. A file without a PEM
      block never decodes. */
  function LoadKeyPair(files: Files, certFile: string, keyFile: string, p: Platform)
    : (r: Result<TlsCertificate, CertError>)
    ensures r.Success? ==> certFile in files && keyFile in files
    ensures certFile !in files ==> r == Failure(ReadFailed(certFile))
    ensures certFile in files && keyFile !in files ==> r == Failure(ReadFailed(keyFile))
    ensures r.Success? ==> files[certFile].Pem? && files[keyFile].Pem?
    ensures certFile in files && keyFile in files && (files[certFile].Raw? || files[keyFile].Raw?) ==>
              r == Failure(InvalidKeyPair)
  {
    if certFile !in files then Failure(ReadFailed(certFile))
    else if keyFile !in files then Failure(ReadFailed(keyFile))
    else if files[certFile].Raw? || files[keyFile].Raw? then Failure(InvalidKeyPair)
    else match p.x509KeyPair(files[certFile], files[keyFile])
      case Some(c) => Success(c)
      case None => Failure(InvalidKeyPair)
  }
}
