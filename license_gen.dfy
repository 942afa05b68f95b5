/** The license issuer of license_gen.go: the license record, the signing
    pipeline that turns it into a license key, the generator object whose
    private key is loaded from disk, and the command-line front end.

    RSA, SHA-256, x509, PEM, encoding/json, base64, time.AddDate and
    fmt.Sscanf are library code: they are the function-valued fields of a
    `Library` record passed in by the caller, so the model says nothing about
    how they compute, only which bytes are given to which of them and what
    happens when one of them fails. The laws that the model assumes of them
    (decoding undoes encoding, a signature verifies under the matching public
    key) are named predicates that lemmas require explicitly. */
module LicenseGen {
  import opened Base

  /** A wall-clock instant in nanoseconds; Go's monotonic reading is not kept. */
  type Instant = int

  /** LicenseData (license_gen.go), the signed payload; license.go's License
      has the same fields and JSON names. */
  datatype LicenseData = LicenseData(
    companyName: string,
    email: string,
    maxUsers: int,
    expiryDate: Instant,
    domain: string,
    version: string,
    issueDate: Instant,
    licenseType: string)

  /** The value of an RSA private / public key (its numbers), named by an
      index; two keys are equal when their values are. */
  datatype PrivateKey = PrivateKey(id: nat)
  datatype PublicKey = PublicKey(id: nat)

  /** A pem.Block: its type line and its DER bytes. */
  datatype PemBlock = PemBlock(blockType: string, bytes: Bytes)

  /** The anonymous {data, signature} struct that is serialized into the key. */
  datatype Envelope = Envelope(data: Bytes, signature: Bytes)

  /** The library calls the issuer makes, as uninterpreted functions. */
  datatype Library = Library(
    marshalLicense: LicenseData -> Result<Bytes>,     // json.Marshal(*LicenseData)
    unmarshalLicense: Bytes -> Result<LicenseData>,   // json.Unmarshal into LicenseData
    marshalEnvelope: Envelope -> Result<Bytes>,       // json.Marshal of the envelope
    unmarshalEnvelope: Bytes -> Result<Envelope>,     // json.Unmarshal of the envelope
    base64Encode: Bytes -> string,                    // base64.StdEncoding.EncodeToString
    base64Decode: string -> Result<Bytes>,            // base64.StdEncoding.DecodeString
    sha256: Bytes -> Bytes,                           // sha256.Sum256
    signPKCS1v15: (PrivateKey, Bytes) -> Result<Bytes>,      // rsa.SignPKCS1v15 with crypto.SHA256
    verifyPKCS1v15: (PublicKey, Bytes, Bytes) -> bool,       // rsa.VerifyPKCS1v15 succeeds
    publicKeyOf: PrivateKey -> PublicKey,             // &key.PublicKey
    marshalPKCS1: PrivateKey -> Bytes,                // x509.MarshalPKCS1PrivateKey
    parsePKCS1: Bytes -> Result<PrivateKey>,          // x509.ParsePKCS1PrivateKey
    marshalPKIX: PublicKey -> Result<Bytes>,          // x509.MarshalPKIXPublicKey
    pemEncode: PemBlock -> Bytes,                     // pem.EncodeToMemory
    pemDecode: Bytes -> Option<PemBlock>,             // the block returned by pem.Decode
    addDate: (Instant, int, int, int) -> Instant,     // t.AddDate(years, months, days)
    scanInt: string -> Option<int>,                   // fmt.Sscanf(s, "%d", &n)
    zoneOffset: Instant -> int)                       // seconds east of UTC of time.Local at an instant

  /** Every string field of the record is valid UTF-8. encoding/json writes
      each invalid byte of a string as U+FFFD, so only such a record can come
      back unchanged from its JSON text. */
  predicate TextValid(l: LicenseData) {
    ValidUtf8(l.companyName) && ValidUtf8(l.email) && ValidUtf8(l.domain) &&
    ValidUtf8(l.version) && ValidUtf8(l.licenseType)
  }

  /** The local zone's offset at `t` is a whole number of minutes. time.Time's
      JSON form writes the offset as RFC 3339 does, in hours and minutes, so
      an instant in a period whose offset has seconds (local mean time) reads
      back shifted by those seconds. */
  predicate WholeMinuteOffset(lib: Library, t: Instant) {
    lib.zoneOffset(t) % 60 == 0
  }

  /** A record that JSON carries unchanged: valid UTF-8 text, and both
      instants at a whole-minute offset. */
  predicate JsonFaithful(lib: Library, l: LicenseData) {
    TextValid(l) && WholeMinuteOffset(lib, l.expiryDate) && WholeMinuteOffset(lib, l.issueDate)
  }

  /** The envelope codec is invertible, the JSON encoding of a record that
      JSON carries unchanged is invertible, and a PKCS#1 v1.5 signature made
      with a key verifies under its public key. */
  ghost predicate EnvelopeLaws(lib: Library) {
    (forall b :: lib.base64Decode(lib.base64Encode(b)) == Ok(b)) &&
    (forall e, j :: lib.marshalEnvelope(e) == Ok(j) ==> lib.unmarshalEnvelope(j) == Ok(e)) &&
    (forall l, d :: JsonFaithful(lib, l) && lib.marshalLicense(l) == Ok(d) ==> lib.unmarshalLicense(d) == Ok(l)) &&
    (forall k, h, s :: lib.signPKCS1v15(k, h) == Ok(s) ==> lib.verifyPKCS1v15(lib.publicKeyOf(k), h, s))
  }

  /** A PEM type line pem.Decode reads back as written: non-empty, upper-case
      ASCII letters and spaces, not ending in a space. pem.Decode takes the
      type from the BEGIN line up to its line break and drops trailing
      blanks, so a type holding a '\n' or ending in a blank does not survive
      the round trip. */
  predicate PlainBlockType(t: string) {
    |t| > 0 && t[|t| - 1] != ' ' && forall i :: 0 <= i < |t| ==> 'A' <= t[i] <= 'Z' || t[i] == ' '
  }

  /** pem.Decode undoes pem.EncodeToMemory for a plain type line, and the
      PKCS#1 parser undoes the PKCS#1 marshaller. */
  ghost predicate KeyCodecLaws(lib: Library) {
    (forall blk: PemBlock :: PlainBlockType(blk.blockType) ==> lib.pemDecode(lib.pemEncode(blk)) == Some(blk)) &&
    (forall k :: lib.parsePKCS1(lib.marshalPKCS1(k)) == Ok(k))
  }

  // ---------------------------------------------------------------------------
  // License records

  /** The record built by GenerateTrialLicense. `time.Now()` is called once for
      the expiry and once for the issue date; the two instants are parameters. */
  function TrialLicense(lib: Library, companyName: string, email: string, days: int,
                        nowForExpiry: Instant, nowForIssue: Instant): (r: LicenseData)
    ensures r.companyName == companyName && r.email == email
    ensures r.maxUsers == 3 && r.domain == "*" && r.version == "1.0" && r.licenseType == "trial"
    ensures r.expiryDate == lib.addDate(nowForExpiry, 0, 0, days) && r.issueDate == nowForIssue
    ensures TextValid(r) <==> ValidUtf8(companyName) && ValidUtf8(email)
  {
    AsciiIsValidUtf8("*");
    AsciiIsValidUtf8("1.0");
    AsciiIsValidUtf8("trial");
    LicenseData(companyName, email, 3, lib.addDate(nowForExpiry, 0, 0, days), "*", "1.0", nowForIssue, "trial")
  }

  /** The record built by GeneratePermanentLicense. */
  function PermanentLicense(lib: Library, companyName: string, email: string, domain: string,
                            maxUsers: int, months: int,
                            nowForExpiry: Instant, nowForIssue: Instant): (r: LicenseData)
    ensures r.companyName == companyName && r.email == email
    ensures r.maxUsers == maxUsers && r.domain == domain
    ensures r.version == "1.0" && r.licenseType == "permanent"
    ensures r.expiryDate == lib.addDate(nowForExpiry, 0, months, 0) && r.issueDate == nowForIssue
    ensures TextValid(r) <==> ValidUtf8(companyName) && ValidUtf8(email) && ValidUtf8(domain)
  {
    AsciiIsValidUtf8("1.0");
    AsciiIsValidUtf8("permanent");
    LicenseData(companyName, email, maxUsers, lib.addDate(nowForExpiry, 0, months, 0), domain, "1.0", nowForIssue, "permanent")
  }

  // ---------------------------------------------------------------------------
  // Signing pipeline

  /** GenerateLicense's (string, error) result. */
  datatype Issued = Issued(licenseKey: string, err: Option<Error>)

  /** The signature the pipeline computes over serialized bytes `data`. */
  function SignData(lib: Library, key: PrivateKey, data: Bytes): Result<Bytes> {
    lib.signPKCS1v15(key, lib.sha256(data))
  }

  /** `licenseKey` is the base64 text of a serialized envelope whose `data` is
      exactly the serialization of `license` and whose `signature` was made over
      the SHA-256 digest of those same bytes. */
  ghost predicate ShipsSigned(lib: Library, key: PrivateKey, license: LicenseData, licenseKey: string) {
    exists data, signature, json ::
      lib.marshalLicense(license) == Ok(data) &&
      SignData(lib, key, data) == Ok(signature) &&
      lib.marshalEnvelope(Envelope(data, signature)) == Ok(json) &&
      licenseKey == lib.base64Encode(json)
  }

  /** The body of GenerateLicense with the generator's key as a parameter:
      serialize, hash, sign, wrap, serialize the wrapper, base64-encode. Each
      failing step returns "" with that step's error. */
  function Issue(lib: Library, key: PrivateKey, license: LicenseData): (r: Issued)
    ensures r.err.Some? ==> r.licenseKey == ""
    ensures lib.marshalLicense(license).Err? ==>
              r.err == Some(lib.marshalLicense(license).error)
    ensures lib.marshalLicense(license).Ok? && SignData(lib, key, lib.marshalLicense(license).value).Err? ==>
              r.err == Some(SignData(lib, key, lib.marshalLicense(license).value).error)
    ensures lib.marshalLicense(license).Ok? && SignData(lib, key, lib.marshalLicense(license).value).Ok? ==>
              var env := Envelope(lib.marshalLicense(license).value, SignData(lib, key, lib.marshalLicense(license).value).value);
              (lib.marshalEnvelope(env).Err? ==> r.err == Some(lib.marshalEnvelope(env).error)) &&
              (lib.marshalEnvelope(env).Ok? ==> r.err.None?)
    ensures r.err.None? ==> ShipsSigned(lib, key, license, r.licenseKey)
  {
    match lib.marshalLicense(license)
    case Err(e) => Issued("", Some(e))
    case Ok(data) =>
      match SignData(lib, key, data)
      case Err(e) => Issued("", Some(e))
      case Ok(signature) =>
        match lib.marshalEnvelope(Envelope(data, signature))
        case Err(e) => Issued("", Some(e))
        case Ok(json) => Issued(lib.base64Encode(json), None)
  }

  /** The inverse of the last two pipeline steps: base64-decode the key and
      deserialize the envelope.
      It does not interpret `data`. */
  function OpenEnvelope(lib: Library, licenseKey: string): Result<Envelope> {
    match lib.base64Decode(licenseKey)
    case Err(e) => Err(e)
    case Ok(json) => lib.unmarshalEnvelope(json)
  }

  /** `licenseKey` opens to an envelope whose signature verifies under `pub`
      over the digest of its data, and whose data deserializes to `license`. */
  ghost predicate OpensTo(lib: Library, pub: PublicKey, licenseKey: string, license: LicenseData) {
    OpenEnvelope(lib, licenseKey).Ok? &&
    var env := OpenEnvelope(lib, licenseKey).value;
    lib.verifyPKCS1v15(pub, lib.sha256(env.data), env.signature) &&
    lib.unmarshalLicense(env.data) == Ok(license)
  }

  /** Round trip: what GenerateLicense ships opens to exactly the bytes that
      were hashed and signed, the signature verifies under the generator's
      public key, and, when JSON carries the record unchanged, the data
      deserializes to the record that was issued. */
  lemma IssueOpens(lib: Library, key: PrivateKey, license: LicenseData)
    ensures EnvelopeLaws(lib) && Issue(lib, key, license).err.None? ==>
              OpenEnvelope(lib, Issue(lib, key, license).licenseKey) ==
                Ok(Envelope(lib.marshalLicense(license).value, SignData(lib, key, lib.marshalLicense(license).value).value)) &&
              lib.verifyPKCS1v15(lib.publicKeyOf(key), lib.sha256(lib.marshalLicense(license).value),
                                 SignData(lib, key, lib.marshalLicense(license).value).value)
    ensures EnvelopeLaws(lib) && JsonFaithful(lib, license) && Issue(lib, key, license).err.None? ==>
              OpensTo(lib, lib.publicKeyOf(key), Issue(lib, key, license).licenseKey, license)
  {
    if EnvelopeLaws(lib) && Issue(lib, key, license).err.None? {
      var data := lib.marshalLicense(license).value;
      var signature := SignData(lib, key, data).value;
      var json := lib.marshalEnvelope(Envelope(data, signature)).value;
      assert lib.base64Decode(lib.base64Encode(json)) == Ok(json);
      assert lib.unmarshalEnvelope(json) == Ok(Envelope(data, signature));
    }
  }

  /** A key that shipped under one record opens to that record only: two
      records that JSON carries unchanged cannot share a license key. */
  lemma IssueInjective(lib: Library, key: PrivateKey, a: LicenseData, b: LicenseData)
    requires EnvelopeLaws(lib)
    requires JsonFaithful(lib, a) && JsonFaithful(lib, b)
    requires Issue(lib, key, a).err.None? && Issue(lib, key, b).err.None?
    requires Issue(lib, key, a).licenseKey == Issue(lib, key, b).licenseKey
    ensures a == b
  {
    IssueOpens(lib, key, a);
    IssueOpens(lib, key, b);
  }

  // ---------------------------------------------------------------------------
  // Files

  /** A file: its contents and its permission bits. */
  datatype FileEntry = FileEntry(contents: Bytes, perm: bv32)

  /** The part of the operating system the issuer touches: named files; the
      names that exist but cannot be read (no permission, a directory); the
      names where opening for writing is refused; the names where the write
      after the open stops early (disk full, I/O error) after the given number
      of bytes; the names where closing the written file reports an error
      (a deferred write-back failure); and the process umask. */
  class FileSystem {
    var files: map<string, FileEntry>
    var unreadable: set<string>
    var unwritable: set<string>
    var writeLimit: map<string, nat>
    var closeFails: set<string>
    var umask: bv32

    constructor (files: map<string, FileEntry>, unreadable: set<string>, unwritable: set<string>,
                 writeLimit: map<string, nat>, closeFails: set<string>, umask: bv32)
      ensures this.files == files && this.unreadable == unreadable && this.unwritable == unwritable
      ensures this.writeLimit == writeLimit && this.closeFails == closeFails && this.umask == umask
    {
      this.files := files;
      this.unreadable := unreadable;
      this.unwritable := unwritable;
      this.writeLimit := writeLimit;
      this.closeFails := closeFails;
      this.umask := umask;
    }

    /** os.ReadFile: the contents of a readable file; an error for a missing
        name or one that cannot be read. */
    function ReadFile(name: string): (r: Result<Bytes>)
      reads this
      ensures r.Ok? <==> name in files && name !in unreadable
      ensures r.Ok? ==> r.value == files[name].contents
    {
      if name !in files then Err(Error("open " + name + ": no such file or directory"))
      else if name in unreadable then Err(Error("open " + name + ": permission denied"))
      else Ok(files[name].contents)
    }

    /** Whether the write of `data` at `name` stops before all of it is out. */
    predicate ShortWrite(name: string, data: Bytes)
      reads this
    {
      name in writeLimit && writeLimit[name] < |data|
    }

    /** Whether os.WriteFile of `data` at `name` returns an error: the open
        is refused, the write stops early, or the close reports an error. */
    predicate WriteFails(name: string, data: Bytes)
      reads this
    {
      name in unwritable || ShortWrite(name, data) || name in closeFails
    }

    /** os.WriteFile. A refused open changes nothing. Otherwise the file is
        opened with O_TRUNC (created with `perm` masked by the umask, or
        keeping its own mode) and then written; a write that stops early
        leaves the truncated file holding only a proper prefix of `data`, and
        an error from the close comes after all of `data` was written. */
    method WriteFile(name: string, data: Bytes, perm: bv32) returns (err: Option<Error>)
      modifies this
      ensures err.Some? <==> old(WriteFails(name, data))
      ensures unreadable == old(unreadable) && unwritable == old(unwritable)
      ensures writeLimit == old(writeLimit) && closeFails == old(closeFails) && umask == old(umask)
      ensures name in old(unwritable) ==> files == old(files)
      ensures name !in old(unwritable) ==>
                name in files && files == old(files)[name := files[name]] &&
                files[name].contents <= data &&
                (files[name].contents == data <==> !old(ShortWrite(name, data))) &&
                files[name].perm == if name in old(files) then old(files)[name].perm else perm & !old(umask)
    {
      if name in unwritable {
        return Some(Error("open " + name + ": permission denied"));
      }
      var mode := if name in files then files[name].perm else perm & !umask;
      if name in writeLimit && writeLimit[name] < |data| {
        files := files[name := FileEntry(data[..writeLimit[name]], mode)];
        return Some(Error("write " + name + ": no space left on device"));
      }
      files := files[name := FileEntry(data, mode)];
      if name in closeFails {
        return Some(Error("close " + name + ": input/output error"));
      }
      return None;
    }
  }

  /** The bytes SavePrivateKey writes for `key`: a PEM block of type
      "RSA PRIVATE KEY" holding the PKCS#1 DER encoding. */
  function PrivateKeyPem(lib: Library, key: PrivateKey): Bytes {
    lib.pemEncode(PemBlock("RSA PRIVATE KEY", lib.marshalPKCS1(key)))
  }

  /** What LoadPrivateKeyFromFile makes of the result of reading the file: the
      read error, "Failed to parse PEM block" when no PEM block is found, the
      PKCS#1 parser's error, or the key. The block's type line is not checked. */
  function KeyFromFile(lib: Library, read: Result<Bytes>): (r: Result<PrivateKey>)
    ensures read.Err? ==> r == Err(read.error)
    ensures read.Ok? && lib.pemDecode(read.value).None? ==> r == Err(Error("Failed to parse PEM block"))
    ensures r.Ok? ==> read.Ok? && lib.pemDecode(read.value).Some? &&
                      lib.parsePKCS1(lib.pemDecode(read.value).value.bytes) == Ok(r.value)
  {
    match read
    case Err(e) => Err(e)
    case Ok(keyData) =>
      match lib.pemDecode(keyData)
      case None => Err(Error("Failed to parse PEM block"))
      case Some(block) => lib.parsePKCS1(block.bytes)
  }

  /** Saving a key and loading it back gives the same key. */
  lemma SavedKeyLoads(lib: Library, key: PrivateKey)
    requires KeyCodecLaws(lib)
    ensures KeyFromFile(lib, Ok(PrivateKeyPem(lib, key))) == Ok(key)
  {
    var block := PemBlock("RSA PRIVATE KEY", lib.marshalPKCS1(key));
    assert PlainBlockType("RSA PRIVATE KEY");
    assert lib.pemDecode(lib.pemEncode(block)) == Some(block);
    assert lib.parsePKCS1(lib.marshalPKCS1(key)) == Ok(key);
  }

  /** The text GetPublicKeyPEM returns for `key`: "" when its public key
      cannot be marshalled, else a "PUBLIC KEY" PEM block of the PKIX encoding,
      which decodes back to that encoding. */
  function PublicKeyPem(lib: Library, key: PrivateKey): (pem: string)
    ensures lib.marshalPKIX(lib.publicKeyOf(key)).Err? ==> pem == ""
    ensures forall i :: 0 <= i < |pem| ==> pem[i] as int < 256
    ensures KeyCodecLaws(lib) && lib.marshalPKIX(lib.publicKeyOf(key)).Ok? ==>
              lib.pemDecode(StringToBytes(pem)) == Some(PemBlock("PUBLIC KEY", lib.marshalPKIX(lib.publicKeyOf(key)).value))
  {
    match lib.marshalPKIX(lib.publicKeyOf(key))
    case Err(_) => ""
    case Ok(der) =>
      var encoded := lib.pemEncode(PemBlock("PUBLIC KEY", der));
      assert PlainBlockType("PUBLIC KEY");
      BytesStringRoundTrip(encoded);
      BytesToString(encoded)
  }

  const PrivateKeyPerm: bv32 := 0x180  // 0600: owner read and write

  // ---------------------------------------------------------------------------
  // The generator object

  class LicenseGenerator {
    var privateKey: PrivateKey

    /** NewLicenseGenerator; the key that rsa.GenerateKey draws from
        crypto/rand arrives as a parameter. */
    constructor (generated: PrivateKey)
      ensures privateKey == generated
    {
      privateKey := generated;
    }

    /** Reads, PEM-decodes and parses the key file, and replaces the key only
        when all three succeed; on any failure the key is left as it was. */
    method LoadPrivateKeyFromFile(lib: Library, fs: FileSystem, filename: string) returns (err: Option<Error>)
      modifies this
      ensures err.None? <==> KeyFromFile(lib, fs.ReadFile(filename)).Ok?
      ensures err.Some? ==> err.value == KeyFromFile(lib, fs.ReadFile(filename)).error
      ensures privateKey == if err.None? then KeyFromFile(lib, fs.ReadFile(filename)).value else old(privateKey)
    {
      var keyData := fs.ReadFile(filename);
      if keyData.Err? {
        return Some(keyData.error);
      }
      var block := lib.pemDecode(keyData.value);
      if block.None? {
        return Some(Error("Failed to parse PEM block"));
      }
      var parsed := lib.parsePKCS1(block.value.bytes);
      if parsed.Err? {
        return Some(parsed.error);
      }
      privateKey := parsed.value;
      return None;
    }

    /** Writes the key as a PKCS#1 PEM block with mode 0600. */
    method SavePrivateKey(lib: Library, fs: FileSystem, filename: string) returns (err: Option<Error>)
      modifies fs
      ensures err.Some? <==> old(fs.WriteFails(filename, PrivateKeyPem(lib, privateKey)))
      ensures fs.unreadable == old(fs.unreadable) && fs.unwritable == old(fs.unwritable)
      ensures fs.writeLimit == old(fs.writeLimit) && fs.closeFails == old(fs.closeFails) && fs.umask == old(fs.umask)
      ensures filename in old(fs.unwritable) ==> fs.files == old(fs.files)
      ensures filename !in old(fs.unwritable) ==>
                filename in fs.files && fs.files == old(fs.files)[filename := fs.files[filename]] &&
                fs.files[filename].contents <= PrivateKeyPem(lib, privateKey) &&
                (fs.files[filename].contents == PrivateKeyPem(lib, privateKey) <==>
                   !old(fs.ShortWrite(filename, PrivateKeyPem(lib, privateKey))))
      // 0600 applies only to a file the write creates; an existing file keeps its mode.
      ensures filename !in old(fs.unwritable) ==>
                fs.files[filename].perm == if filename in old(fs.files) then old(fs.files)[filename].perm
                                           else PrivateKeyPerm & !old(fs.umask)
    {
      err := fs.WriteFile(filename, PrivateKeyPem(lib, privateKey), PrivateKeyPerm);
    }

    /** GetPublicKeyPEM: the public-key PEM of this generator's key. */
    function GetPublicKeyPEM(lib: Library): (pem: string)
      reads this
      ensures pem == PublicKeyPem(lib, privateKey)
      ensures lib.marshalPKIX(lib.publicKeyOf(privateKey)).Err? ==> pem == ""
    {
      PublicKeyPem(lib, privateKey)
    }

    /** GenerateLicense: the signing pipeline with this generator's key. */
    function GenerateLicense(lib: Library, license: LicenseData): (r: Issued)
      reads this
      ensures r == Issue(lib, privateKey, license)
      ensures r.err.Some? ==> r.licenseKey == ""
      ensures r.err.None? ==> ShipsSigned(lib, privateKey, license, r.licenseKey)
      ensures EnvelopeLaws(lib) && JsonFaithful(lib, license) && r.err.None? ==>
                OpensTo(lib, lib.publicKeyOf(privateKey), r.licenseKey, license)
    {
      IssueOpens(lib, privateKey, license);
      Issue(lib, privateKey, license)
    }

    /** GenerateTrialLicense: a successfully issued trial key opens to a
        three-seat, any-domain, version 1.0 trial record for the given company
        and email that expires `days` calendar days after the first instant. */
    function GenerateTrialLicense(lib: Library, companyName: string, email: string, days: int,
                                  nowForExpiry: Instant, nowForIssue: Instant): (r: Issued)
      reads this
      ensures r == Issue(lib, privateKey, TrialLicense(lib, companyName, email, days, nowForExpiry, nowForIssue))
      ensures r.err.Some? ==> r.licenseKey == ""
      ensures EnvelopeLaws(lib) && ValidUtf8(companyName) && ValidUtf8(email) &&
              WholeMinuteOffset(lib, lib.addDate(nowForExpiry, 0, 0, days)) &&
              WholeMinuteOffset(lib, nowForIssue) && r.err.None? ==>
                OpensTo(lib, lib.publicKeyOf(privateKey), r.licenseKey,
                        LicenseData(companyName, email, 3, lib.addDate(nowForExpiry, 0, 0, days),
                                    "*", "1.0", nowForIssue, "trial"))
    {
      GenerateLicense(lib, TrialLicense(lib, companyName, email, days, nowForExpiry, nowForIssue))
    }

    /** GeneratePermanentLicense: a successfully issued permanent key opens to a
        version 1.0 permanent record with the given seats and domain that
        expires `months` calendar months after the first instant. */
    function GeneratePermanentLicense(lib: Library, companyName: string, email: string, domain: string,
                                      maxUsers: int, months: int,
                                      nowForExpiry: Instant, nowForIssue: Instant): (r: Issued)
      reads this
      ensures r == Issue(lib, privateKey, PermanentLicense(lib, companyName, email, domain, maxUsers, months,
                                                           nowForExpiry, nowForIssue))
      ensures r.err.Some? ==> r.licenseKey == ""
      ensures EnvelopeLaws(lib) && ValidUtf8(companyName) && ValidUtf8(email) && ValidUtf8(domain) &&
              WholeMinuteOffset(lib, lib.addDate(nowForExpiry, 0, months, 0)) &&
              WholeMinuteOffset(lib, nowForIssue) && r.err.None? ==>
                OpensTo(lib, lib.publicKeyOf(privateKey), r.licenseKey,
                        LicenseData(companyName, email, maxUsers, lib.addDate(nowForExpiry, 0, months, 0),
                                    domain, "1.0", nowForIssue, "permanent"))
    {
      GenerateLicense(lib, PermanentLicense(lib, companyName, email, domain, maxUsers, months, nowForExpiry, nowForIssue))
    }
  }

  // ---------------------------------------------------------------------------
  // Command line

  const KeyFileName := "private.key"

  /** What one run of GenerateLicenseCLI ends with. `Fatal` stands for
      log.Fatal, which ends the process. */
  datatype CliOutcome =
    | Usage                      // fewer than two arguments
    | Fatal(message: string, err: Error)
    | KeyGen(publicKeyPem: string)
    | TrialUsage                 // "trial" without exactly five arguments
    | TrialIssued(companyName: string, email: string, days: int, licenseKey: string)
    | PermanentUsage             // "permanent" without exactly seven arguments
    | PermanentIssued(companyName: string, email: string, domain: string, maxUsers: int, months: int, licenseKey: string)
    | UnknownCommand(command: string)

  /** The outcome, and whether the freshly generated key was written over
      private.key. */
  datatype CliRun = CliRun(newKeySaved: bool, outcome: CliOutcome)

  /** The inputs a run takes from outside: the libraries, the result of
      rsa.GenerateKey, and the two readings of the clock. */
  datatype CliEnv = CliEnv(lib: Library, generated: Result<PrivateKey>,
                           nowForExpiry: Instant, nowForIssue: Instant)

  /** fmt.Sscanf with "%d": the parsed number, or 0 when nothing is parsed. */
  function ScanIntOrZero(lib: Library, s: string): int {
    match lib.scanInt(s)
    case Some(n) => n
    case None => 0
  }

  /** The key the generator signs with after start-up: the one in the file if
      it loads, else the freshly generated one. */
  function ActiveKey(lib: Library, generated: PrivateKey, keyFile: Result<Bytes>): PrivateKey {
    match KeyFromFile(lib, keyFile)
    case Ok(k) => k
    case Err(_) => generated
  }

  /** Whether start-up got past key generation and key bootstrap without a
      fatal error: the generated key is written only when the key file does
      not load, and then that write must succeed. */
  predicate StartsUp(args: seq<string>, env: CliEnv, fs: FileSystem)
    reads fs
  {
    |args| >= 2 && env.generated.Ok? &&
    (KeyFromFile(env.lib, fs.ReadFile(KeyFileName)).Err? ==>
       !fs.WriteFails(KeyFileName, PrivateKeyPem(env.lib, env.generated.value)))
  }

  method GenerateLicenseCLI(args: seq<string>, env: CliEnv, fs: FileSystem) returns (run: CliRun)
    modifies fs
    ensures |args| < 2 ==> run == CliRun(false, Usage) && fs.files == old(fs.files)
    ensures |args| >= 2 && env.generated.Err? ==>
              run.outcome.Fatal? && !run.newKeySaved && fs.files == old(fs.files)
    // Any load failure, not only a missing file, makes the new key overwrite private.key.
    ensures |args| >= 2 && env.generated.Ok? ==>
              (run.newKeySaved <==> KeyFromFile(env.lib, old(fs.ReadFile(KeyFileName))).Err? &&
                                    !old(fs.WriteFails(KeyFileName, PrivateKeyPem(env.lib, env.generated.value))))
    ensures run.newKeySaved ==>
              KeyFileName in fs.files &&
              fs.files == old(fs.files)[KeyFileName := fs.files[KeyFileName]] &&
              fs.files[KeyFileName].contents == PrivateKeyPem(env.lib, env.generated.value) &&
              fs.files[KeyFileName].perm == if KeyFileName in old(fs.files) then old(fs.files)[KeyFileName].perm
                                            else PrivateKeyPerm & !old(fs.umask)
    // A failed save may leave private.key holding a prefix of the new key, or all of it.
    ensures |args| >= 2 && env.generated.Ok? && KeyFromFile(env.lib, old(fs.ReadFile(KeyFileName))).Err? &&
            old(fs.WriteFails(KeyFileName, PrivateKeyPem(env.lib, env.generated.value))) ==>
              run.outcome.Fatal? &&
              (KeyFileName in old(fs.unwritable) ==> fs.files == old(fs.files)) &&
              (KeyFileName !in old(fs.unwritable) ==>
                 KeyFileName in fs.files &&
                 fs.files == old(fs.files)[KeyFileName := fs.files[KeyFileName]] &&
                 fs.files[KeyFileName].contents <= PrivateKeyPem(env.lib, env.generated.value))
    ensures (|args| < 2 || env.generated.Err? || KeyFromFile(env.lib, old(fs.ReadFile(KeyFileName))).Ok?) ==>
              fs.files == old(fs.files)
    ensures old(StartsUp(args, env, fs)) ==>
              var key := ActiveKey(env.lib, env.generated.value, old(fs.ReadFile(KeyFileName)));
              (args[1] == "keygen" ==> run.outcome == KeyGen(PublicKeyPem(env.lib, key))) &&
              (args[1] == "trial" && |args| != 5 ==> run.outcome == TrialUsage) &&
              (args[1] == "trial" && |args| == 5 ==>
                var days := ScanIntOrZero(env.lib, args[4]);
                var issued := Issue(env.lib, key, TrialLicense(env.lib, args[2], args[3], days, env.nowForExpiry, env.nowForIssue));
                run.outcome == if issued.err.Some? then Fatal("Failed to generate trial license:", issued.err.value)
                               else TrialIssued(args[2], args[3], days, issued.licenseKey)) &&
              (args[1] == "permanent" && |args| != 7 ==> run.outcome == PermanentUsage) &&
              (args[1] == "permanent" && |args| == 7 ==>
                var maxUsers := ScanIntOrZero(env.lib, args[5]);
                var months := ScanIntOrZero(env.lib, args[6]);
                var issued := Issue(env.lib, key, PermanentLicense(env.lib, args[2], args[3], args[4], maxUsers, months, env.nowForExpiry, env.nowForIssue));
                run.outcome == if issued.err.Some? then Fatal("Failed to generate permanent license:", issued.err.value)
                               else PermanentIssued(args[2], args[3], args[4], maxUsers, months, issued.licenseKey)) &&
              (args[1] !in {"keygen", "trial", "permanent"} ==> run.outcome == UnknownCommand(args[1]))
  {
    if |args| < 2 {
      return CliRun(false, Usage);
    }
    if env.generated.Err? {
      return CliRun(false, Fatal("Failed to create license generator", env.generated.error));
    }
    var generator := new LicenseGenerator(env.generated.value);

    var saved := false;
    var loadErr := generator.LoadPrivateKeyFromFile(env.lib, fs, KeyFileName);
    if loadErr.Some? {
      var saveErr := generator.SavePrivateKey(env.lib, fs, KeyFileName);
      if saveErr.Some? {
        return CliRun(false, Fatal("Failed to save private key:", saveErr.value));
      }
      saved := true;
    }

    var command := args[1];
    var outcome: CliOutcome;
    if command == "keygen" {
      outcome := KeyGen(generator.GetPublicKeyPEM(env.lib));
    } else if command == "trial" {
      if |args| != 5 {
        return CliRun(saved, TrialUsage);
      }
      var company, email := args[2], args[3];
      var days := ScanIntOrZero(env.lib, args[4]);
      var issued := generator.GenerateTrialLicense(env.lib, company, email, days, env.nowForExpiry, env.nowForIssue);
      if issued.err.Some? {
        return CliRun(saved, Fatal("Failed to generate trial license:", issued.err.value));
      }
      outcome := TrialIssued(company, email, days, issued.licenseKey);
    } else if command == "permanent" {
      if |args| != 7 {
        return CliRun(saved, PermanentUsage);
      }
      var company, email, domain := args[2], args[3], args[4];
      var maxUsers := ScanIntOrZero(env.lib, args[5]);
      var months := ScanIntOrZero(env.lib, args[6]);
      var issued := generator.GeneratePermanentLicense(env.lib, company, email, domain, maxUsers, months,
                                                       env.nowForExpiry, env.nowForIssue);
      if issued.err.Some? {
        return CliRun(saved, Fatal("Failed to generate permanent license:", issued.err.value));
      }
      outcome := PermanentIssued(company, email, domain, maxUsers, months, issued.licenseKey);
    } else {
      outcome := UnknownCommand(command);
    }
    return CliRun(saved, outcome);
  }
}
