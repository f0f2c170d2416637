# omero-certificates in Dafny

A model of the two functions at the heart of omero-certificates, the OMERO
plugin that sets up the TLS material for the Glacier2 router.

- `update_config` reconciles the server's configuration store. It takes one
  snapshot of the string-to-string map. It then walks ten recognised settings
  in a fixed order (certificate directory, common name, owner, key file,
  PKCS#12 bundle file, CA file, password, ciphers, maximum protocol version and
  protocols). A setting gets its default only when the snapshot has it
  missing or empty. The certificate directory defaults to `omero.data.dir`
  (or `/OMERO`) joined with `certs`.
- `create_certificates` reconciles the store, then works in the certificate
  directory. It derives the key, certificate and bundle paths, and reuses an
  existing private key or writes a freshly generated one. It builds the
  subject `owner,CN=commonname` and returns an explanatory message when that
  is not a valid RFC 4514 name. Otherwise it writes a self-signed certificate
  and a PKCS#12 bundle and returns `certificates created: ` followed by the
  written paths.

The project has four files:

- `wrappers.dfy` holds `Option`.
- `paths.dfy` holds `os.path.join` for POSIX with two arguments, and `" ".join`.
- `config.dfy` holds the configuration store, `ConfigStore`, with its
  `as_map` and item assignment. It also holds the `set_if_empty` step, the
  reconciliation method `UpdateConfig`, and the specification functions
  `Reconciled` (the map afterwards) and `Writes` (the assignments made, in
  order).
- `provisioning.dfy` holds the file system, `FileSystem`, a map from path to
  bytes. It also holds the provisioning method `CreateCertificates` and its
  specification function `Provision`.

The cryptography library appears only through a `Backend` value. Its fields
are total functions over abstract key, name and certificate types:

- load a PEM key, which may fail;
- dump a key as PEM;
- parse an RFC 4514 name, which may fail;
- sign a certificate request;
- dump a certificate as PEM;
- serialise a PKCS#12 bundle;
- encode a string as UTF-8.

Three inputs are parameters: the key that generation would produce, the
current time in seconds, and the random serial number.

The ten `set_if_empty` calls are written out one after another in the
source. Here they are a `for` loop over the ordered table `DefaultTable`,
which has the same keys, defaults and order. Each test is made on the
snapshot taken before the first write, as in the source. A failure to load an
existing key is an exception in the source. Here it is the outcome
`Raised(KeyLoadError(path))`.

## Model

| member | source | states |
|---|---|---|
| Config.DefaultTable | omero_certificates/certificates.py:38-51 | the ten settings, in call order, with distinct keys and non-empty defaults; its keys are exactly the recognised set |
| Config.DefaultTableRows | omero_certificates/certificates.py:38-51 | each row's key and default, the certificate directory's being the data directory (or "/OMERO") joined with "certs" |
| Config.FillKeys | omero_certificates/certificates.py:33-35 | filling from a table adds exactly the table's keys to the snapshot's |
| Config.FillKeeps | omero_certificates/certificates.py:33-35 | a key set in the snapshot, or not in the table, keeps its snapshot value |
| Config.FillDefaults | omero_certificates/certificates.py:33-35 | a table key that is missing or empty in the snapshot receives its default |
| Config.PendingSpec | omero_certificates/certificates.py:33-36 | the assignments made are exactly the table rows whose key is unset, no more than there are rows, and none exactly when every key is set |
| Config.FillPrefix | omero_certificates/certificates.py:38-51 | one more call extends the map and the assignment list by that call's effect alone |
| Config.Reconciled | omero_certificates/certificates.py:31-53 | the result holds the snapshot's keys plus the ten; every recognised key is non-empty; set keys and unrecognised keys keep their value; unset keys get their row's default; the directory default is built from the snapshot's data directory |
| Config.Writes | omero_certificates/certificates.py:33-51 | a key is written exactly when it is recognised and unset; nothing is written exactly when all ten are set |
| Config.DataDirAndVersionUntouched | omero_certificates/certificates.py:38-51 | omero.data.dir and omero.config.version are never written and keep their presence and value |
| Config.ReconcileIdempotent | omero_certificates/certificates.py:33-53 | reconciling the result again writes nothing and returns the same map |
| Config.NoWritesWhenComplete | omero_certificates/certificates.py:33-35 | a store with all ten keys set is neither written nor changed |
| Config.UnchangedIffNoWrites | omero_certificates/certificates.py:33-53 | the map is unchanged exactly when no assignment is made |
| Config.RecognisedKeysDistinct | omero_certificates/certificates.py:38-51 | the ten setting names are pairwise distinct |
| Config.ReconcileFromTable | omero_certificates/certificates.py:38-51 | from a store holding at most the common name and owner, exactly the ten keys come out, each set value kept and every other key defaulted |
| Config.ReconcileWithoutDataDir | tests/unit/test_certificates.py:23-64 | for the empty store and for one with only a common name and owner: directory "/OMERO/certs", names kept when non-empty whatever their syntax, defaults otherwise |
| Config.ReconcileConstantDefaults | tests/unit/test_certificates.py:30-41 | for such a store, the seven settings with constant defaults get exactly those defaults |
| Config.FallbackCertDir | omero_certificates/certificates.py:40 | with no data directory the certificate directory is "/OMERO/certs" |
| Config.ConfigStore.AsMap | omero_certificates/certificates.py:31 | the snapshot is the store's current contents |
| Config.ConfigStore.Set | omero_certificates/certificates.py:35 | item assignment updates one key and records the assignment |
| Config.SetIfEmpty | omero_certificates/certificates.py:33-36 | assigns the default exactly when the snapshot has the key missing or empty |
| Config.SetAllIfEmpty | omero_certificates/certificates.py:38-51 | after the calls the store equals the fill of the snapshot and the assignments are the pending rows, in order |
| Config.UpdateConfig | omero_certificates/certificates.py:25-55 | the store ends as `Reconciled` of its old contents, the assignments made are `Writes`, and the returned map is the new contents |
| Paths.JoinPathShape | omero_certificates/certificates.py:65-67 | a joined path ends with the file name, starts with the directory when the name is relative with at most one separator added, and is empty only when both parts are |
| Paths.JoinPathUnder | omero_certificates/certificates.py:65-67 | a relative name under a directory without a trailing separator is joined with exactly one "/" |
| Paths.JoinWordsAppend | omero_certificates/certificates.py:145 | appending a path to the list appends one space and that path to the joined string |
| Provisioning.ReconciledHasSettings | omero_certificates/certificates.py:59-68 | after reconciliation every setting read by create_certificates is present |
| Provisioning.SummaryOfRun | omero_certificates/certificates.py:143-145 | the summary of three and of two written paths, spelled out with single spaces |
| Provisioning.InvalidOwnerIsNotSummary | omero_certificates/certificates.py:102-106 | the invalid-owner message never equals a summary |
| Provisioning.OnlyLayoutPathsChange | omero_certificates/certificates.py:74-143 | a run never removes a file and changes none but the key, certificate and bundle paths |
| Provisioning.ExistingKeyReused | omero_certificates/certificates.py:74-80 | an existing key file is kept as it was and left out of the summary; the run ignores the generated key; the outcome is the load error, the invalid-owner message or the two-path summary |
| Provisioning.MissingKeyCreated | omero_certificates/certificates.py:81-93 | a missing key file receives the PEM of the generated key; the run cannot raise; on success the key path comes first in the summary, then the certificate and the bundle |
| Provisioning.InvalidOwnerWritesNoCertificate | omero_certificates/certificates.py:99-106 | an owner that does not parse yields the message; the only file written is a key this run created; the certificate and bundle paths are untouched |
| Provisioning.SuccessfulRunWrites | omero_certificates/certificates.py:107-143 | the certificate is self-signed over the parsed name, valid for 365 days, SHA-256; the bundle holds that key and certificate under "server" with 50000 rounds, PBES1 3DES and an HMAC-SHA1 over the UTF-8 password; the result starts with the summary prefix |
| Provisioning.KeyPersistsAcrossRuns | omero_certificates/certificates.py:74-93 | after a run that got past the key step, a second run keeps the key file, does not list it and does not depend on the generated key |
| Provisioning.KeyPathNotInShortSummary | omero_certificates/certificates.py:145 | the two-path summary differs from any three-path summary ending in the same two paths |
| Provisioning.ReconcileWithDataDir | tests/unit/test_certificates.py:87-99 | with only a data directory d set, the certificate directory is d joined with "certs" and the file names are the defaults |
| Provisioning.LayoutUnderDataDir | tests/unit/test_certificates.py:99-102 | with only a data directory d set, the files are d/certs/server.key, d/certs/server.pem and d/certs/server.p12 |
| Provisioning.FileSystem.Exists | omero_certificates/certificates.py:74 | true exactly when the path holds a file |
| Provisioning.FileSystem.Read | omero_certificates/certificates.py:76-78 | returns the file's contents |
| Provisioning.FileSystem.Write | omero_certificates/certificates.py:85-86 | replaces or creates one file and nothing else |
| Provisioning.CreateCertificates | omero_certificates/certificates.py:58-145 | the store ends reconciled with the assignments of `Writes`; the files and the outcome are those of `Provision` over the reconciled settings |
| Provisioning.WriteCertificates | omero_certificates/certificates.py:60-145 | the files and the outcome are those of `Provision` |

## Left out

- Cryptography is not modelled: RSA key generation, PEM and PKCS#1 encoding,
  X.509 building and signing, RFC 4514 parsing, PKCS#12 serialisation and
  UTF-8 encoding. Each is an uninterpreted field of `Backend`. The constants
  passed to them are modelled: 365 days, SHA-256, 50000 rounds, PBES1 with
  3DES, HMAC-SHA1 and the friendly name "server".
- The clock (`datetime.utcnow`) and `x509.random_serial_number` are
  parameters. Time is a whole number of seconds.
- Key generation always happens in the source when the key file is missing.
  The model takes the key it would produce as a parameter and uses it only
  in that case.
- `os.makedirs` for the certificate directory is not modelled. Directories
  are not modelled at all: `os.path.exists` is membership in the file map.
  File handles and partial writes are not modelled either.
- Logging is not modelled.
- The XML persistence of `ConfigXml`, its `close()` and the
  `omero.config.version` entry that it maintains itself are not modelled.
  The store is a map with a snapshot and item assignment.
- Config.ReconcileWithoutDataDir and Config.ReconcileConstantDefaults: these
  take a snapshot holding at most the common name and the owner. The tests
  also see `omero.config.version` in the store, which they pop. By
  `DataDirAndVersionUntouched` that key plays no part.
- The 0.2.0 upgrade test (tests/unit/test_certificates.py:107-127) sets the
  owner `/L=OMERO/O=OMERO.server` and expects a success summary. The code has
  no conversion for that form. Its outcome depends on the abstract parser: if
  the parser rejects the string, the model, like the code, returns the
  invalid-owner message.
- The ten straight-line `set_if_empty` calls are a loop over `DefaultTable`.
  The keys, defaults, order and snapshot semantics are the same.
- The command-line plugin (omero/plugins/certificates.py) is not modelled.
  It only registers `create_certificates` as a CLI command.
