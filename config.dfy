/**
 * Reconciliation of the OMERO configuration store (`update_config`): one
 * snapshot of the string-to-string store is taken, then a fixed ordered table
 * of ten (key, default) pairs is walked and the default is written wherever
 * the snapshot holds no value or the empty string. The fresh map read back
 * after the writes is returned.
 */
module Config {
  import opened Paths

  type Config = map<string, string>

  /** One row of the defaults table, and one write made to the store. */
  datatype Setting = Setting(key: string, default: string)

  const DataDirKey := "omero.data.dir"
  const DefaultDirKey := "omero.glacier2.IceSSL.DefaultDir"
  const CommonNameKey := "omero.certificates.commonname"
  const OwnerKey := "omero.certificates.owner"
  const KeyFileKey := "omero.certificates.key"
  const CertFileKey := "omero.glacier2.IceSSL.CertFile"
  const CAsKey := "omero.glacier2.IceSSL.CAs"
  const PasswordKey := "omero.glacier2.IceSSL.Password"
  const CiphersKey := "omero.glacier2.IceSSL.Ciphers"
  const ProtocolVersionMaxKey := "omero.glacier2.IceSSL.ProtocolVersionMax"
  const ProtocolsKey := "omero.glacier2.IceSSL.Protocols"

  /** Written by the store itself; not part of the certificate settings. */
  const ConfigVersionKey := "omero.config.version"

  /** The data directory used when the store does not name one. */
  const FallbackDataDir := "/OMERO"

  /** The ten keys reconciliation recognises, in the order they are visited. */
  const RecognisedKeys: seq<string> :=
    [DefaultDirKey, CommonNameKey, OwnerKey, KeyFileKey, CertFileKey,
     CAsKey, PasswordKey, CiphersKey, ProtocolVersionMaxKey, ProtocolsKey]

  /** The recognised keys as a set. */
  const Recognised: set<string> := set i | 0 <= i < |RecognisedKeys| :: RecognisedKeys[i]

  /** No key appears twice in the table: the lengths differ, or one character does. */
  lemma RecognisedKeysDistinct()
    ensures forall i, j :: 0 <= i < j < |RecognisedKeys| ==> RecognisedKeys[i] != RecognisedKeys[j]
  {
    assert |DefaultDirKey| == 32 && |CommonNameKey| == 29 && |OwnerKey| == 24;
    assert |KeyFileKey| == 22 && |CertFileKey| == 30 && |CAsKey| == 25;
    assert |PasswordKey| == 30 && |CiphersKey| == 29 && |ProtocolVersionMaxKey| == 40;
    assert |ProtocolsKey| == 31;
    assert CommonNameKey[6] == 'c' && CiphersKey[6] == 'g';
    assert CertFileKey[22] == 'C' && PasswordKey[22] == 'P';
  }

  /** Python truthiness of `cfgdict.get(key)`: present and not the empty string. */
  predicate IsSet(snapshot: Config, key: string)
  {
    key in snapshot && snapshot[key] != ""
  }

  /** `cfgdict.get("omero.data.dir", "/OMERO")`: a present but empty value is kept. */
  function DataDir(snapshot: Config): string
  {
    if DataDirKey in snapshot then snapshot[DataDirKey] else FallbackDataDir
  }

  function KeysOf(t: seq<Setting>): set<string>
  {
    set i | 0 <= i < |t| :: t[i].key
  }

  predicate DistinctKeys(t: seq<Setting>)
  {
    forall i, j :: 0 <= i < j < |t| ==> t[i].key != t[j].key
  }

  /**
   * The defaults, in the order `update_config` applies them. Only the
   * certificate directory depends on the snapshot (through its data directory).
   */
  function DefaultTable(snapshot: Config): (t: seq<Setting>)
    ensures |t| == |RecognisedKeys|
    ensures forall i :: 0 <= i < |t| ==> t[i].key == RecognisedKeys[i] && t[i].default != ""
    ensures DistinctKeys(t) && KeysOf(t) == Recognised
  {
    RecognisedKeysDistinct();
    var t := [
      Setting(DefaultDirKey, JoinPath(DataDir(snapshot), "certs")),
      Setting(CommonNameKey, "localhost"),
      Setting(OwnerKey, "L=OMERO,O=OMERO.server"),
      Setting(KeyFileKey, "server.key"),
      Setting(CertFileKey, "server.p12"),
      Setting(CAsKey, "server.pem"),
      Setting(PasswordKey, "secret"),
      Setting(CiphersKey, "HIGH"),
      Setting(ProtocolVersionMaxKey, "TLS1_2"),
      Setting(ProtocolsKey, "TLS1_0,TLS1_1,TLS1_2")
    ];
    assert forall i :: 0 <= i < |t| ==> t[i].key == RecognisedKeys[i];
    t
  }

  /** What `set_if_empty(s.key, s.default)` does to the store, given the snapshot. */
  function Step(snapshot: Config, cfg: Config, s: Setting): Config
  {
    if IsSet(snapshot, s.key) then cfg else cfg[s.key := s.default]
  }

  /**
   * The store after `set_if_empty` has run for every row of `t`, in order,
   * starting from the snapshot itself.
   */
  function Fill(snapshot: Config, t: seq<Setting>): Config
    decreases |t|
  {
    if t == [] then snapshot
    else Step(snapshot, Fill(snapshot, t[..|t| - 1]), t[|t| - 1])
  }

  /** Filling never removes a key and adds exactly the table's keys. */
  lemma {:induction false} FillKeys(snapshot: Config, t: seq<Setting>)
    ensures Fill(snapshot, t).Keys == snapshot.Keys + KeysOf(t)
    decreases |t|
  {
    if t != [] {
      var init := t[..|t| - 1];
      assert KeysOf(t) == KeysOf(init) + {t[|t| - 1].key};
      FillKeys(snapshot, init);
    }
  }

  /** Filling keeps every value the snapshot set, and every key outside the table. */
  lemma {:induction false} FillKeeps(snapshot: Config, t: seq<Setting>, k: string)
    requires k in snapshot && (IsSet(snapshot, k) || k !in KeysOf(t))
    ensures k in Fill(snapshot, t) && Fill(snapshot, t)[k] == snapshot[k]
    decreases |t|
  {
    if t != [] {
      var init := t[..|t| - 1];
      assert KeysOf(init) <= KeysOf(t);
      FillKeeps(snapshot, init, k);
    }
  }

  /** Filling gives each table key that the snapshot left missing or empty its default. */
  lemma {:induction false} FillDefaults(snapshot: Config, t: seq<Setting>, i: nat)
    requires DistinctKeys(t) && i < |t| && !IsSet(snapshot, t[i].key)
    ensures t[i].key in Fill(snapshot, t) && Fill(snapshot, t)[t[i].key] == t[i].default
    decreases |t|
  {
    if i < |t| - 1 {
      var init := t[..|t| - 1];
      FillDefaults(snapshot, init, i);
    }
  }

  /** The three lemmas above, for every key at once. */
  lemma FillSpec(snapshot: Config, t: seq<Setting>)
    requires DistinctKeys(t)
    ensures var r := Fill(snapshot, t);
      && r.Keys == snapshot.Keys + KeysOf(t)
      && (forall k :: k in snapshot && (IsSet(snapshot, k) || k !in KeysOf(t)) ==> r[k] == snapshot[k])
      && (forall i :: 0 <= i < |t| && !IsSet(snapshot, t[i].key) ==> r[t[i].key] == t[i].default)
  {
    FillKeys(snapshot, t);
    forall k | k in snapshot && (IsSet(snapshot, k) || k !in KeysOf(t)) {
      FillKeeps(snapshot, t, k);
    }
    forall i | 0 <= i < |t| && !IsSet(snapshot, t[i].key) {
      FillDefaults(snapshot, t, i);
    }
  }

  /** The writes `set_if_empty` makes for the rows of `t`, in order. */
  function Pending(snapshot: Config, t: seq<Setting>): seq<Setting>
    decreases |t|
  {
    if t == [] then []
    else
      var last := t[|t| - 1];
      Pending(snapshot, t[..|t| - 1]) + (if IsSet(snapshot, last.key) then [] else [last])
  }

  /** The pending writes are exactly the rows whose key the snapshot does not set, and none is repeated. */
  lemma {:induction false} PendingSpec(snapshot: Config, t: seq<Setting>)
    ensures var w := Pending(snapshot, t);
      && |w| <= |t|
      && (forall s :: s in w <==> s in t && !IsSet(snapshot, s.key))
      && (w == [] <==> forall i :: 0 <= i < |t| ==> IsSet(snapshot, t[i].key))
    decreases |t|
  {
    if t != [] {
      var init := t[..|t| - 1];
      assert t == init + [t[|t| - 1]];
      PendingSpec(snapshot, init);
    }
  }

  /** One more row of the table is one more `set_if_empty` step. */
  lemma FillPrefix(snapshot: Config, t: seq<Setting>, i: nat)
    requires i < |t|
    ensures Fill(snapshot, t[..i + 1]) == Step(snapshot, Fill(snapshot, t[..i]), t[i])
    ensures Pending(snapshot, t[..i + 1]) ==
      Pending(snapshot, t[..i]) + (if IsSet(snapshot, t[i].key) then [] else [t[i]])
  {
    assert t[..i + 1][..i] == t[..i];
  }

  /** The map `update_config` returns for a store whose contents were `snapshot`. */
  function Reconciled(snapshot: Config): (r: Config)
    ensures r.Keys == snapshot.Keys + Recognised
    ensures forall k :: k in Recognised ==> r[k] != ""
    ensures forall k :: IsSet(snapshot, k) ==> r[k] == snapshot[k]
    ensures forall k :: k in snapshot && k !in Recognised ==> r[k] == snapshot[k]
    ensures forall i :: 0 <= i < |RecognisedKeys| && !IsSet(snapshot, RecognisedKeys[i]) ==>
      r[RecognisedKeys[i]] == DefaultTable(snapshot)[i].default
    ensures !IsSet(snapshot, DefaultDirKey) ==>
      DefaultDirKey in r && r[DefaultDirKey] == JoinPath(DataDir(snapshot), "certs")
  {
    var t := DefaultTable(snapshot);
    var r := Fill(snapshot, t);
    FillSpec(snapshot, t);
    assert forall k :: k in Recognised ==> r[k] != "" by {
      forall k | k in Recognised ensures r[k] != "" {
        var i :| 0 <= i < |t| && t[i].key == k;
        if IsSet(snapshot, k) { assert r[k] == snapshot[k]; }
      }
    }
    assert t[0].key == DefaultDirKey;
    r
  }

  /** The writes `update_config` makes for a store whose contents were `snapshot`. */
  function Writes(snapshot: Config): (w: seq<Setting>)
    ensures forall s :: s in w ==> s.key in Recognised && !IsSet(snapshot, s.key)
    ensures forall k :: k in Recognised && !IsSet(snapshot, k) ==> exists s :: s in w && s.key == k
    ensures w == [] <==> forall k :: k in Recognised ==> IsSet(snapshot, k)
  {
    var t := DefaultTable(snapshot);
    var w := Pending(snapshot, t);
    PendingSpec(snapshot, t);
    assert forall k :: k in Recognised && !IsSet(snapshot, k) ==> exists s :: s in w && s.key == k by {
      forall k | k in Recognised && !IsSet(snapshot, k) ensures exists s :: s in w && s.key == k {
        var i :| 0 <= i < |t| && t[i].key == k;
        assert t[i] in w;
      }
    }
    w
  }

  /**
   * The data directory and the store's schema version are not recognised
   * keys: reconciliation never writes them and returns them as they were.
   */
  lemma DataDirAndVersionUntouched(snapshot: Config)
    ensures DataDirKey !in Recognised && ConfigVersionKey !in Recognised
    ensures forall s :: s in Writes(snapshot) ==> s.key != DataDirKey && s.key != ConfigVersionKey
    ensures DataDirKey in Reconciled(snapshot) <==> DataDirKey in snapshot
    ensures ConfigVersionKey in Reconciled(snapshot) <==> ConfigVersionKey in snapshot
    ensures DataDirKey in snapshot ==> Reconciled(snapshot)[DataDirKey] == snapshot[DataDirKey]
    ensures ConfigVersionKey in snapshot ==> Reconciled(snapshot)[ConfigVersionKey] == snapshot[ConfigVersionKey]
  {
    assert |DefaultDirKey| == 32 && |CommonNameKey| == 29 && |OwnerKey| == 24;
    assert |KeyFileKey| == 22 && |CertFileKey| == 30 && |CAsKey| == 25;
    assert |PasswordKey| == 30 && |CiphersKey| == 29 && |ProtocolVersionMaxKey| == 40;
    assert |ProtocolsKey| == 31;
    assert forall k :: k in Recognised ==> |k| >= 22;
    assert |DataDirKey| == 14 && |ConfigVersionKey| == 20;
  }

  /** Reconciling reconciled contents again writes nothing and changes nothing. */
  lemma ReconcileIdempotent(snapshot: Config)
    ensures Writes(Reconciled(snapshot)) == []
    ensures Reconciled(Reconciled(snapshot)) == Reconciled(snapshot)
  {
    var r := Reconciled(snapshot);
    NoWritesWhenComplete(r);
  }

  /** A store that already holds every recognised key with a value gets no writes. */
  lemma NoWritesWhenComplete(snapshot: Config)
    requires forall k :: k in Recognised ==> IsSet(snapshot, k)
    ensures Writes(snapshot) == []
    ensures Reconciled(snapshot) == snapshot
  {
    var r := Reconciled(snapshot);
    assert r.Keys == snapshot.Keys;
    assert forall k :: k in r ==> r[k] == snapshot[k];
  }

  /** Reconciliation leaves the contents as they were exactly when it writes nothing. */
  lemma UnchangedIffNoWrites(snapshot: Config)
    ensures Reconciled(snapshot) == snapshot <==> Writes(snapshot) == []
  {
    if Writes(snapshot) == [] {
      assert forall k :: k in Recognised ==> IsSet(snapshot, k);
      NoWritesWhenComplete(snapshot);
    }
    if Reconciled(snapshot) == snapshot {
      assert forall k :: k in Recognised ==> IsSet(snapshot, k);
      NoWritesWhenComplete(snapshot);
    }
  }

  /** The rows of the defaults table, one by one. */
  lemma DefaultTableRows(snapshot: Config)
    ensures var t := DefaultTable(snapshot);
      && t[0] == Setting(DefaultDirKey, JoinPath(DataDir(snapshot), "certs"))
      && t[1] == Setting(CommonNameKey, "localhost")
      && t[2] == Setting(OwnerKey, "L=OMERO,O=OMERO.server")
      && t[3] == Setting(KeyFileKey, "server.key")
      && t[4] == Setting(CertFileKey, "server.p12")
      && t[5] == Setting(CAsKey, "server.pem")
      && t[6] == Setting(PasswordKey, "secret")
      && t[7] == Setting(CiphersKey, "HIGH")
      && t[8] == Setting(ProtocolVersionMaxKey, "TLS1_2")
      && t[9] == Setting(ProtocolsKey, "TLS1_0,TLS1_1,TLS1_2")
  {
  }

  /** Each named key is one of the recognised ones. */
  lemma RecognisedMembers()
    ensures DefaultDirKey in Recognised && CommonNameKey in Recognised && OwnerKey in Recognised
    ensures KeyFileKey in Recognised && CertFileKey in Recognised && CAsKey in Recognised
    ensures PasswordKey in Recognised && CiphersKey in Recognised
    ensures ProtocolVersionMaxKey in Recognised && ProtocolsKey in Recognised
  {
    assert RecognisedKeys[0] == DefaultDirKey && RecognisedKeys[1] == CommonNameKey;
    assert RecognisedKeys[2] == OwnerKey && RecognisedKeys[3] == KeyFileKey;
    assert RecognisedKeys[4] == CertFileKey && RecognisedKeys[5] == CAsKey;
    assert RecognisedKeys[6] == PasswordKey && RecognisedKeys[7] == CiphersKey;
    assert RecognisedKeys[8] == ProtocolVersionMaxKey && RecognisedKeys[9] == ProtocolsKey;
  }

  /** A store holding at most a common name and an owner holds no other recognised key and no data directory. */
  lemma OnlyNamesPresent(s: Config)
    requires s.Keys <= {CommonNameKey, OwnerKey}
    ensures DataDirKey !in s && DataDir(s) == FallbackDataDir
    ensures forall i :: 0 <= i < |RecognisedKeys| && i != 1 && i != 2 ==> RecognisedKeys[i] !in s
  {
    assert |DataDirKey| == 14 && |CommonNameKey| == 29 && |OwnerKey| == 24;
    RecognisedKeysDistinct();
  }

  /** The value a key holds after reconciliation when the store does not set it to the empty string. */
  function ValueOr(s: Config, key: string, default: string): string
  {
    if IsSet(s, key) then s[key] else default
  }

  /**
   * Reconciling a store that holds nothing but, perhaps, a common name and an
   * owner (the empty store included): every recognised key is taken from the
   * store when set there and from the defaults otherwise.
   */
  lemma ReconcileFromTable(s: Config)
    requires s.Keys <= {CommonNameKey, OwnerKey}
    ensures Reconciled(s).Keys == Recognised
    ensures forall i :: 0 <= i < |RecognisedKeys| ==>
      Reconciled(s)[RecognisedKeys[i]] == ValueOr(s, RecognisedKeys[i], DefaultTable(s)[i].default)
  {
    RecognisedMembers();
  }

  /**
   * Reconciling a store that holds nothing but, perhaps, a common name and an
   * owner: exactly the ten recognised keys come out; the common name and
   * owner survive when non-empty, whatever their syntax; the certificate
   * directory is "/OMERO/certs".
   */
  lemma ReconcileWithoutDataDir(s: Config)
    requires s.Keys <= {CommonNameKey, OwnerKey}
    ensures Reconciled(s).Keys == Recognised
    ensures DefaultDirKey in Recognised && CommonNameKey in Recognised && OwnerKey in Recognised
    ensures var r := Reconciled(s);
      && r[DefaultDirKey] == "/OMERO/certs"
      && r[CommonNameKey] == ValueOr(s, CommonNameKey, "localhost")
      && r[OwnerKey] == ValueOr(s, OwnerKey, "L=OMERO,O=OMERO.server")
  {
    ReconcileFromTable(s);
    RecognisedMembers();
    FallbackCertDir();
    OnlyNamesPresent(s);
    assert RecognisedKeys[1] == CommonNameKey && RecognisedKeys[2] == OwnerKey;
    DefaultTableRows(s);
  }

  /** Without a data directory the certificates go to "/OMERO/certs". */
  lemma FallbackCertDir()
    ensures JoinPath(FallbackDataDir, "certs") == "/OMERO/certs"
  {
    JoinPathUnder(FallbackDataDir, "certs");
    assert FallbackDataDir + "/" + "certs" == "/OMERO/certs";
  }

  /** The same store: the seven remaining keys get their constant defaults. */
  lemma ReconcileConstantDefaults(s: Config)
    requires s.Keys <= {CommonNameKey, OwnerKey}
    ensures KeyFileKey in Recognised && CertFileKey in Recognised && CAsKey in Recognised
    ensures PasswordKey in Recognised && CiphersKey in Recognised
    ensures ProtocolVersionMaxKey in Recognised && ProtocolsKey in Recognised
    ensures Reconciled(s).Keys == Recognised
    ensures var r := Reconciled(s);
      && r[KeyFileKey] == "server.key" && r[CertFileKey] == "server.p12"
      && r[CAsKey] == "server.pem" && r[PasswordKey] == "secret" && r[CiphersKey] == "HIGH"
      && r[ProtocolVersionMaxKey] == "TLS1_2" && r[ProtocolsKey] == "TLS1_0,TLS1_1,TLS1_2"
  {
    ReconcileFromTable(s);
    RecognisedMembers();
    OnlyNamesPresent(s);
    DefaultTableRows(s);
    assert RecognisedKeys[3] == KeyFileKey && RecognisedKeys[4] == CertFileKey;
    assert RecognisedKeys[5] == CAsKey && RecognisedKeys[6] == PasswordKey;
    assert RecognisedKeys[7] == CiphersKey && RecognisedKeys[8] == ProtocolVersionMaxKey;
    assert RecognisedKeys[9] == ProtocolsKey;
  }

  /**
   * The configuration store (`ConfigXml`): a string map with get, set and
   * as_map. `writes` records every `set`, in order.
   */
  class ConfigStore {
    var entries: Config
    ghost var writes: seq<Setting>

    constructor (initial: Config)
      ensures entries == initial && writes == []
    {
      entries := initial;
      writes := [];
    }

    /** `cfg.as_map()`: a copy of the current contents. */
    method AsMap() returns (m: Config)
      ensures m == entries
    {
      m := entries;
    }

    /** `cfg[key] = value`. */
    method Set(key: string, value: string)
      modifies this
      ensures entries == old(entries)[key := value]
      ensures writes == old(writes) + [Setting(key, value)]
    {
      entries := entries[key := value];
      writes := writes + [Setting(key, value)];
    }
  }

  /** The `set_if_empty` closure: the test is made on the snapshot, the write on the store. */
  method SetIfEmpty(store: ConfigStore, cfgdict: Config, s: Setting)
    modifies store
    ensures store.entries == Step(cfgdict, old(store.entries), s)
    ensures store.writes == old(store.writes) + (if IsSet(cfgdict, s.key) then [] else [s])
  {
    if !IsSet(cfgdict, s.key) {
      store.Set(s.key, s.default);
    }
  }

  /** The run of `set_if_empty` calls, one per row of `table`, in order. */
  method SetAllIfEmpty(store: ConfigStore, cfgdict: Config, table: seq<Setting>)
    requires store.entries == cfgdict
    modifies store
    ensures store.entries == Fill(cfgdict, table)
    ensures store.writes == old(store.writes) + Pending(cfgdict, table)
  {
    for i := 0 to |table|
      invariant store.entries == Fill(cfgdict, table[..i])
      invariant store.writes == old(store.writes) + Pending(cfgdict, table[..i])
    {
      FillPrefix(cfgdict, table, i);
      ghost var done := Pending(cfgdict, table[..i]);
      ghost var step := if IsSet(cfgdict, table[i].key) then [] else [table[i]];
      SetIfEmpty(store, cfgdict, table[i]);
      assert store.writes == old(store.writes) + (done + step);
    }
    assert table[..|table|] == table;
  }

  /** `update_config`: fill in every missing or empty recognised key, then read the store back. */
  method UpdateConfig(store: ConfigStore) returns (cfgmap: Config)
    modifies store
    ensures store.entries == Reconciled(old(store.entries))
    ensures store.writes == old(store.writes) + Writes(old(store.entries))
    ensures cfgmap == store.entries
  {
    var cfgdict := store.AsMap();
    SetAllIfEmpty(store, cfgdict, DefaultTable(cfgdict));
    cfgmap := store.AsMap();
  }
}
