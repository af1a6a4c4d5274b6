/** The part of the operating system's file system the certificate providers
    touch: a map from path to contents, plus the faults a write can meet. */
module FileSys {

  /** A file is either content in which PEM decoding finds certificate or
      key data (one block as pem.Encode writes it, or a chain; whether a
      pair of them loads is decided by the x509KeyPair oracle), or bytes
      with no PEM data (such as the empty or partial data a failed write
      leaves behind). */
  datatype FileContent = Pem(blockType: string, bytes: seq<bv8>) | Raw(data: seq<bv8>)

  type Files = map<string, FileContent>

  /** Where writing goes wrong. On a path of `createFails`, os.Create
      returns an error (missing directory, no permission, ...). On a path of
      `writeFails`, os.Create succeeds but the write that follows fails
      (disk full, an I/O error); the caller ignores that error and the file
      is left without its PEM block. */
  datatype Faults = Faults(createFails: set<string>, writeFails: set<string>)

  const NoFaults: Faults := Faults({}, {})

  /** What a file holds after os.Create succeeded and `content` was
      written to it. */
  function Stored(faults: Faults, path: string, content: FileContent): (c: FileContent)
    ensures path in faults.writeFails ==> c == Raw([])
    ensures path !in faults.writeFails ==> c == content
  {
    if path in faults.writeFails then Raw([]) else content
  }

  class FileSystem {
    var files: Files
    const faults: Faults

    constructor (files: Files, faults: Faults)
      ensures this.files == files && this.faults == faults
    {
      this.files := files;
      this.faults := faults;
    }

    /** os.Stat followed by os.IsNotExist: does a file exist at `path`? */
    method Exists(path: string) returns (b: bool)
      ensures b <==> path in files
    {
      b := path in files;
    }

    /** os.Create followed by one write of `content` whose error is not
        looked at: creates or truncates the file unless creating it fails;
        a failing write leaves it without the content, and `ok` still holds. */
    method Create(path: string, content: FileContent) returns (ok: bool)
      modifies this
      ensures ok <==> path !in faults.createFails
      ensures ok ==> files == old(files)[path := Stored(faults, path, content)]
      ensures !ok ==> files == old(files)
    {
      ok := path !in faults.createFails;
      if ok {
        files := files[path := Stored(faults, path, content)];
      }
    }
  }
}
