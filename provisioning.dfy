/**
 * Provisioning of the server's TLS material (`create_certificates`): the
 * configuration is reconciled, three paths are derived under the certificate
 * directory, an existing private key is reused (or a new one is written), a
 * self-signed certificate and a PKCS#12 bundle are always written, and a
 * summary naming the files written is returned. An owner string that does not
 * parse as an RFC 4514 name stops the run, with a message, before the
 * certificate is written.
 *
 * The cryptography library is not modelled: its operations are the fields of
 * a `Backend` value, total functions over abstract key, name and certificate
 * types. The freshly generated key, the clock and the random serial number are
 * parameters.
 */
module Provisioning {
  import opened Wrappers
  import opened Paths
  import opened Config

  type Bytes = seq<bv8>

  /** The certificate directory's files: path to contents. */
  type Files = map<string, Bytes>

  /** An RSA private key, an X.509 distinguished name and a signed certificate. */
  type PrivateKey
  type Name
  type Certificate

  datatype Hash = Sha1 | Sha256

  /** The PKCS#12 key and certificate encryption: PBES1 with SHA-1 and three-key triple DES in CBC mode. */
  datatype Pbes = PbesV1Sha1And3KeyTripleDesCbc

  /** What the certificate builder is given before it signs. */
  datatype CertificateRequest = CertificateRequest(
    subject: Name, issuer: Name, notBefore: int, notAfter: int, serial: nat, digest: Hash)

  datatype Pkcs12Encryption = Pkcs12Encryption(
    kdfRounds: nat, keyCertAlgorithm: Pbes, hmacHash: Hash, password: Bytes)

  /** The arguments of `pkcs12.serialize_key_and_certificates` (no extra CA certificates). */
  datatype Pkcs12Request = Pkcs12Request(
    friendlyName: Bytes, key: PrivateKey, cert: Certificate, encryption: Pkcs12Encryption)

  /** The operations the cryptography library performs for the provisioner. */
  datatype Backend = Backend(
    loadPemPrivateKey: Bytes -> Option<PrivateKey>,
    privateKeyPem: PrivateKey -> Bytes,
    parseRfc4514: string -> Option<Name>,
    sign: (CertificateRequest, PrivateKey) -> Certificate,
    certificatePem: Certificate -> Bytes,
    serializePkcs12: Pkcs12Request -> Bytes,
    encodeUtf8: string -> Bytes)

  const ValidityDays := 365
  const SecondsPerDay := 86400
  const KdfRounds := 50000

  /** The bundle's friendly name, the ASCII bytes of "server". */
  const FriendlyName: Bytes := [0x73, 0x65, 0x72, 0x76, 0x65, 0x72]

  const CreatedPrefix := "certificates created: "

  /** The fixed tail of the message returned when the owner setting does not make a valid name. */
  const InvalidOwnerAdvice :=
    "' not a valid RFC 4514 string!  Are you upgrading?  See https://pypi.org/project/omero-certificates/ for help."

  function InvalidOwnerMessage(owner: string): string
  {
    "'" + OwnerKey + "' configuration setting '" + owner + InvalidOwnerAdvice
  }

  /** The distinguished name handed to the RFC 4514 parser: the owner, then the common name. */
  function SubjectString(owner: string, commonName: string): string
  {
    owner + ",CN=" + commonName
  }

  /** `"certificates created: " + " ".join(created_files)`. */
  function Summary(created: seq<string>): string
  {
    CreatedPrefix + JoinWords(created)
  }

  /** The settings `create_certificates` reads from the reconciled map. */
  predicate HasCertificateSettings(cfg: Config)
  {
    && DefaultDirKey in cfg && CommonNameKey in cfg && OwnerKey in cfg && KeyFileKey in cfg
    && CertFileKey in cfg && CAsKey in cfg && PasswordKey in cfg
  }

  /** The values of those settings. */
  datatype Settings = Settings(
    certDir: string, keyFile: string, certFile: string, caFile: string, password: string,
    commonName: string, owner: string)

  function SettingsOf(cfg: Config): Settings
    requires HasCertificateSettings(cfg)
  {
    Settings(cfg[DefaultDirKey], cfg[KeyFileKey], cfg[CertFileKey], cfg[CAsKey], cfg[PasswordKey],
             cfg[CommonNameKey], cfg[OwnerKey])
  }

  /** The certificate directory and the three files written in it. */
  datatype Layout = Layout(certDir: string, keyPath: string, certPath: string, bundlePath: string)

  /** The key and the certificate go to the files named by their settings, the bundle to the IceSSL certificate file. */
  function LayoutOf(s: Settings): Layout
  {
    Layout(s.certDir, JoinPath(s.certDir, s.keyFile), JoinPath(s.certDir, s.caFile), JoinPath(s.certDir, s.certFile))
  }

  datatype ProvisionError = KeyLoadError(path: string)

  /** A run either returns a string (the summary or the invalid-owner message) or raises. */
  datatype Outcome = Returned(message: string) | Raised(error: ProvisionError)

  /** The files after a run, and what the run returned. */
  datatype Run = Run(files: Files, outcome: Outcome)

  /** The key step: the key to sign with, the files after it, and the paths it created. */
  datatype KeyStep = KeyReady(key: PrivateKey, files: Files, created: seq<string>) | KeyUnreadable

  /** Reuse the key file when it exists; otherwise write the generated key there and list it. */
  function ObtainKey(files: Files, keyPath: string, b: Backend, generated: PrivateKey): KeyStep
  {
    if keyPath in files then
      match b.loadPemPrivateKey(files[keyPath])
      case Some(key) => KeyReady(key, files, [])
      case None => KeyUnreadable
    else
      KeyReady(generated, files[keyPath := b.privateKeyPem(generated)], [keyPath])
  }

  /** A certificate whose subject is its issuer, valid for 365 days from now, signed with SHA-256. */
  function SelfSignedRequest(name: Name, utcNow: int, serial: nat): CertificateRequest
  {
    CertificateRequest(name, name, utcNow, utcNow + ValidityDays * SecondsPerDay, serial, Sha256)
  }

  /** The legacy-compatible bundle encryption under the configured password. */
  function BundleEncryption(b: Backend, password: string): Pkcs12Encryption
  {
    Pkcs12Encryption(KdfRounds, PbesV1Sha1And3KeyTripleDesCbc, Sha1, b.encodeUtf8(password))
  }

  /**
   * What `create_certificates` does to the files and returns, given the
   * reconciled configuration, the files before the run, the backend, the key
   * a generation would produce, the clock and the serial number.
   */
  function Provision(s: Settings, files: Files, b: Backend, generated: PrivateKey, utcNow: int, serial: nat): Run
  {
    var l := LayoutOf(s);
    match ObtainKey(files, l.keyPath, b, generated)
    case KeyUnreadable => Run(files, Raised(KeyLoadError(l.keyPath)))
    case KeyReady(key, keyFiles, created) =>
      match b.parseRfc4514(SubjectString(s.owner, s.commonName))
      case None => Run(keyFiles, Returned(InvalidOwnerMessage(s.owner)))
      case Some(name) =>
        var cert := b.sign(SelfSignedRequest(name, utcNow, serial), key);
        var bundle := b.serializePkcs12(
          Pkcs12Request(FriendlyName, key, cert, BundleEncryption(b, s.password)));
        Run(keyFiles[l.certPath := b.certificatePem(cert)][l.bundlePath := bundle],
            Returned(Summary(created + [l.certPath, l.bundlePath])))
  }

  /** Reconciliation always supplies every setting provisioning reads. */
  lemma ReconciledHasSettings(snapshot: Config)
    ensures HasCertificateSettings(Reconciled(snapshot))
  {
    RecognisedMembers();
  }

  /** The summary spelled out: the key path only when the key was created, then the certificate, then the bundle. */
  lemma SummaryOfRun(keyPath: string, certPath: string, bundlePath: string)
    ensures Summary([keyPath, certPath, bundlePath]) == CreatedPrefix + keyPath + " " + certPath + " " + bundlePath
    ensures Summary([certPath, bundlePath]) == CreatedPrefix + certPath + " " + bundlePath
  {
    JoinWordsAppend([keyPath], certPath);
    JoinWordsAppend([keyPath, certPath], bundlePath);
    JoinWordsAppend([certPath], bundlePath);
    assert [keyPath] + [certPath] == [keyPath, certPath];
    assert [keyPath, certPath] + [bundlePath] == [keyPath, certPath, bundlePath];
    assert [certPath] + [bundlePath] == [certPath, bundlePath];
  }

  /** The invalid-owner message can never be mistaken for a summary. */
  lemma InvalidOwnerIsNotSummary(owner: string, created: seq<string>)
    ensures InvalidOwnerMessage(owner) != Summary(created)
  {
    assert |CreatedPrefix| == 22 && CreatedPrefix[0] == 'c';
    var rest := OwnerKey + "' configuration setting '" + owner + InvalidOwnerAdvice;
    assert InvalidOwnerMessage(owner) == "'" + rest;
    assert Summary(created)[0] == CreatedPrefix[0];
  }

  /**
   * A run changes at most the key, certificate and bundle paths, and never
   * removes a file.
   */
  lemma OnlyLayoutPathsChange(s: Settings, files: Files, b: Backend, generated: PrivateKey, utcNow: int, serial: nat)
    ensures var l := LayoutOf(s);
      var run := Provision(s, files, b, generated, utcNow, serial);
      && files.Keys <= run.files.Keys <= files.Keys + {l.keyPath, l.certPath, l.bundlePath}
      && forall q :: q in files && q != l.keyPath && q != l.certPath && q != l.bundlePath ==>
           run.files[q] == files[q]
  {
  }

  /**
   * An existing key file is read, never rewritten (unless the certificate or
   * bundle shares its path) and never listed; the generated key plays no part.
   */
  lemma ExistingKeyReused(s: Settings, files: Files, b: Backend, generated: PrivateKey, other: PrivateKey,
                          utcNow: int, serial: nat)
    requires LayoutOf(s).keyPath in files
    ensures var l := LayoutOf(s);
      var run := Provision(s, files, b, generated, utcNow, serial);
      && Provision(s, files, b, other, utcNow, serial) == run
      && (l.keyPath != l.certPath && l.keyPath != l.bundlePath ==>
            l.keyPath in run.files && run.files[l.keyPath] == files[l.keyPath])
      && run.outcome ==
           if b.loadPemPrivateKey(files[l.keyPath]).None? then Raised(KeyLoadError(l.keyPath))
           else if b.parseRfc4514(SubjectString(s.owner, s.commonName)).None? then
             Returned(InvalidOwnerMessage(s.owner))
           else Returned(CreatedPrefix + l.certPath + " " + l.bundlePath)
  {
    var l := LayoutOf(s);
    SummaryOfRun(l.keyPath, l.certPath, l.bundlePath);
    assert [] + [l.certPath, l.bundlePath] == [l.certPath, l.bundlePath];
  }

  /**
   * A missing key file is created from the generated key and listed first;
   * such a run never raises.
   */
  lemma MissingKeyCreated(s: Settings, files: Files, b: Backend, generated: PrivateKey, utcNow: int, serial: nat)
    requires LayoutOf(s).keyPath !in files
    ensures var l := LayoutOf(s);
      var run := Provision(s, files, b, generated, utcNow, serial);
      && l.keyPath in run.files
      && (l.keyPath != l.certPath && l.keyPath != l.bundlePath ==>
            run.files[l.keyPath] == b.privateKeyPem(generated))
      && run.outcome ==
           if b.parseRfc4514(SubjectString(s.owner, s.commonName)).None? then
             Returned(InvalidOwnerMessage(s.owner))
           else Returned(CreatedPrefix + l.keyPath + " " + l.certPath + " " + l.bundlePath)
  {
    var l := LayoutOf(s);
    SummaryOfRun(l.keyPath, l.certPath, l.bundlePath);
    assert [l.keyPath] + [l.certPath, l.bundlePath] == [l.keyPath, l.certPath, l.bundlePath];
  }

  /**
   * An owner that does not parse stops the run with the invalid-owner message:
   * the only file touched is a key file the run itself created, so neither the
   * certificate nor the bundle is written.
   */
  lemma InvalidOwnerWritesNoCertificate(s: Settings, files: Files, b: Backend, generated: PrivateKey,
                                        utcNow: int, serial: nat)
    requires b.parseRfc4514(SubjectString(s.owner, s.commonName)).None?
    requires var keyPath := LayoutOf(s).keyPath;
      keyPath in files ==> b.loadPemPrivateKey(files[keyPath]).Some?
    ensures var l := LayoutOf(s);
      var run := Provision(s, files, b, generated, utcNow, serial);
      && run.outcome == Returned(InvalidOwnerMessage(s.owner))
      && run.files == (if l.keyPath in files then files else files[l.keyPath := b.privateKeyPem(generated)])
      && (l.certPath != l.keyPath ==>
            (l.certPath in run.files <==> l.certPath in files)
            && (l.certPath in files ==> run.files[l.certPath] == files[l.certPath]))
      && (l.bundlePath != l.keyPath ==>
            (l.bundlePath in run.files <==> l.bundlePath in files)
            && (l.bundlePath in files ==> run.files[l.bundlePath] == files[l.bundlePath]))
  {
  }

  /**
   * A run whose key step succeeds and whose owner parses writes the PEM of a
   * self-signed certificate (subject equal to issuer, 365 days, SHA-256) made
   * with that key, then a bundle holding that key and that certificate under
   * the name "server", encrypted with the legacy parameters and the password.
   */
  lemma SuccessfulRunWrites(s: Settings, files: Files, b: Backend, generated: PrivateKey, utcNow: int, serial: nat,
                            name: Name)
    requires b.parseRfc4514(SubjectString(s.owner, s.commonName)) == Some(name)
    requires var keyPath := LayoutOf(s).keyPath;
      keyPath in files ==> b.loadPemPrivateKey(files[keyPath]).Some?
    ensures var l := LayoutOf(s);
      var run := Provision(s, files, b, generated, utcNow, serial);
      var key := if l.keyPath in files then b.loadPemPrivateKey(files[l.keyPath]).value else generated;
      var request := SelfSignedRequest(name, utcNow, serial);
      var cert := b.sign(request, key);
      && request.subject == request.issuer == name
      && request.notAfter - request.notBefore == 365 * 24 * 60 * 60 && request.digest == Sha256
      && l.bundlePath in run.files && l.certPath in run.files
      && run.files[l.bundlePath] == b.serializePkcs12(Pkcs12Request(FriendlyName, key, cert,
           Pkcs12Encryption(50000, PbesV1Sha1And3KeyTripleDesCbc, Sha1, b.encodeUtf8(s.password))))
      && (l.certPath != l.bundlePath ==> run.files[l.certPath] == b.certificatePem(cert))
      && run.outcome.Returned? && run.outcome.message[..|CreatedPrefix|] == CreatedPrefix
  {
  }

  /**
   * Running twice keeps the server's identity: after a run that got past the
   * key step, a second run leaves the key file as the first left it, does not
   * list it, and does not depend on the key a generation would produce.
   */
  lemma {:induction false} KeyPersistsAcrossRuns(s: Settings, files: Files, b: Backend, first: PrivateKey,
                                                 second: PrivateKey, utcNow: int, later: int, serial: nat,
                                                 serial2: nat)
    requires var l := LayoutOf(s); l.keyPath != l.certPath && l.keyPath != l.bundlePath
    requires Provision(s, files, b, first, utcNow, serial).outcome.Returned?
    ensures var l := LayoutOf(s);
      var run1 := Provision(s, files, b, first, utcNow, serial);
      var run2 := Provision(s, run1.files, b, second, later, serial2);
      && l.keyPath in run1.files && l.keyPath in run2.files
      && run2.files[l.keyPath] == run1.files[l.keyPath]
      && run2 == Provision(s, run1.files, b, first, later, serial2)
      && run2.outcome != Returned(CreatedPrefix + l.keyPath + " " + l.certPath + " " + l.bundlePath)
  {
    var l := LayoutOf(s);
    var run1 := Provision(s, files, b, first, utcNow, serial);
    if l.keyPath in files {
      ExistingKeyReused(s, files, b, first, first, utcNow, serial);
    } else {
      MissingKeyCreated(s, files, b, first, utcNow, serial);
    }
    ExistingKeyReused(s, run1.files, b, second, first, later, serial2);
    var run2 := Provision(s, run1.files, b, second, later, serial2);
    if run2.outcome.Returned? && b.loadPemPrivateKey(run1.files[l.keyPath]).Some? {
      var name := SubjectString(s.owner, s.commonName);
      if b.parseRfc4514(name).Some? {
        KeyPathNotInShortSummary(l.keyPath, l.certPath, l.bundlePath);
      } else {
        InvalidOwnerIsNotSummary(s.owner, [l.keyPath, l.certPath, l.bundlePath]);
        SummaryOfRun(l.keyPath, l.certPath, l.bundlePath);
      }
    }
  }

  /** A summary of two paths differs from a summary of three that ends with the same two. */
  lemma KeyPathNotInShortSummary(keyPath: string, certPath: string, bundlePath: string)
    ensures CreatedPrefix + certPath + " " + bundlePath != CreatedPrefix + keyPath + " " + certPath + " " + bundlePath
  {
    var short := CreatedPrefix + certPath + " " + bundlePath;
    var long := CreatedPrefix + keyPath + " " + certPath + " " + bundlePath;
    assert |long| == |short| + |keyPath| + 1;
  }

  /**
   * A store holding nothing but a data directory `d`: the file settings come
   * from the defaults, and the certificate directory is `d` joined with "certs".
   */
  lemma ReconcileWithDataDir(d: string)
    ensures HasCertificateSettings(Reconciled(map[DataDirKey := d]))
    ensures var st := SettingsOf(Reconciled(map[DataDirKey := d]));
      && st.certDir == JoinPath(d, "certs") && st.keyFile == "server.key"
      && st.caFile == "server.pem" && st.certFile == "server.p12"
  {
    var s := map[DataDirKey := d];
    ReconciledHasSettings(s);
    DataDirAndVersionUntouched(s);
    assert DataDir(s) == d;
    DefaultTableRows(s);
    assert forall i :: 0 <= i < |RecognisedKeys| ==> RecognisedKeys[i] !in s by {
      forall i | 0 <= i < |RecognisedKeys|
        ensures RecognisedKeys[i] !in s
      {
        assert RecognisedKeys[i] in Recognised;
      }
    }
    assert RecognisedKeys[0] == DefaultDirKey && RecognisedKeys[3] == KeyFileKey;
    assert RecognisedKeys[4] == CertFileKey && RecognisedKeys[5] == CAsKey;
  }

  /**
   * With a data directory `d` (non-empty, no trailing slash) and no recognised
   * settings, the files go to `d/certs/server.key`, `d/certs/server.pem` and
   * `d/certs/server.p12`.
   */
  lemma LayoutUnderDataDir(d: string)
    requires d != "" && d[|d| - 1] != '/'
    ensures HasCertificateSettings(Reconciled(map[DataDirKey := d]))
    ensures var dir := d + "/" + "certs";
      LayoutOf(SettingsOf(Reconciled(map[DataDirKey := d]))) ==
        Layout(dir, dir + "/" + "server.key", dir + "/" + "server.pem", dir + "/" + "server.p12")
  {
    ReconcileWithDataDir(d);
    JoinPathUnder(d, "certs");
    var dir := d + "/" + "certs";
    assert dir[|dir| - 1] == 's';
    JoinPathUnder(dir, "server.key");
    JoinPathUnder(dir, "server.pem");
    JoinPathUnder(dir, "server.p12");
  }

  /** The certificate directory's files. */
  class FileSystem {
    var files: Files

    constructor (initial: Files)
      ensures files == initial
    {
      files := initial;
    }

    /** `os.path.exists(path)`. */
    method Exists(path: string) returns (b: bool)
      ensures b <==> path in files
    {
      b := path in files;
    }

    /** Read a whole file. */
    method Read(path: string) returns (data: Bytes)
      requires path in files
      ensures data == files[path]
    {
      data := files[path];
    }

    /** Create or overwrite a whole file. */
    method Write(path: string, data: Bytes)
      modifies this
      ensures files == old(files)[path := data]
    {
      files := files[path := data];
    }
  }

  /**
   * `create_certificates`: reconcile the store, read the settings, then
   * provision the files as `Provision` describes.
   */
  method CreateCertificates(store: ConfigStore, fs: FileSystem, backend: Backend, generated: PrivateKey,
                            utcNow: int, serial: nat) returns (out: Outcome)
    modifies store, fs
    ensures store.entries == Reconciled(old(store.entries))
    ensures store.writes == old(store.writes) + Writes(old(store.entries))
    ensures HasCertificateSettings(store.entries)
    ensures Run(fs.files, out) == Provision(SettingsOf(store.entries), old(fs.files), backend, generated, utcNow, serial)
  {
    var cfgmap := UpdateConfig(store);
    ReconciledHasSettings(old(store.entries));
    var settings := Settings(
      cfgmap[DefaultDirKey], cfgmap[KeyFileKey], cfgmap[CertFileKey], cfgmap[CAsKey], cfgmap[PasswordKey],
      cfgmap[CommonNameKey], cfgmap[OwnerKey]);
    out := WriteCertificates(fs, settings, backend, generated, utcNow, serial);
  }

  /**
   * The file-writing part of `create_certificates`, from the path computations
   * to the returned summary.
   */
  method WriteCertificates(fs: FileSystem, settings: Settings, backend: Backend, generated: PrivateKey,
                           utcNow: int, serial: nat) returns (out: Outcome)
    modifies fs
    ensures Run(fs.files, out) == Provision(settings, old(fs.files), backend, generated, utcNow, serial)
  {
    var certdir := settings.certDir;
    var cn := settings.commonName;
    var owner := settings.owner;
    var days := ValidityDays;
    var pkcs12path := JoinPath(certdir, settings.certFile);
    var keypath := JoinPath(certdir, settings.keyFile);
    var certpath := JoinPath(certdir, settings.caFile);
    var password := settings.password;
    ghost var filesBefore := fs.files;

    var createdFiles: seq<string> := [];
    var key: PrivateKey;
    var keyExists := fs.Exists(keypath);
    if keyExists {
      var pem := fs.Read(keypath);
      var loaded := backend.loadPemPrivateKey(pem);
      if loaded.None? {
        return Raised(KeyLoadError(keypath));
      }
      key := loaded.value;
    } else {
      key := generated;
      fs.Write(keypath, backend.privateKeyPem(key));
      createdFiles := createdFiles + [keypath];
    }
    assert ObtainKey(filesBefore, keypath, backend, generated) == KeyReady(key, fs.files, createdFiles);
    ghost var keyCreated := createdFiles;

    var subject := backend.parseRfc4514(SubjectString(owner, cn));
    if subject.None? {
      return Returned(InvalidOwnerMessage(owner));
    }
    var cert := backend.sign(
      CertificateRequest(subject.value, subject.value, utcNow, utcNow + days * SecondsPerDay, serial, Sha256), key);
    fs.Write(certpath, backend.certificatePem(cert));
    createdFiles := createdFiles + [certpath];

    var encryption := Pkcs12Encryption(KdfRounds, PbesV1Sha1And3KeyTripleDesCbc, Sha1, backend.encodeUtf8(password));
    fs.Write(pkcs12path, backend.serializePkcs12(Pkcs12Request(FriendlyName, key, cert, encryption)));
    createdFiles := createdFiles + [pkcs12path];
    assert createdFiles == keyCreated + [certpath, pkcs12path];

    out := Returned(CreatedPrefix + JoinWords(createdFiles));
  }
}
