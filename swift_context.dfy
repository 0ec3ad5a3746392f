/** The configuration logic of the proxy's template contexts: validation of
    the three affinity options, the cluster-wide swift hash kept in a file,
    and the identity-service context, which merges the relation data of every
    related keystone unit over the charm's own configuration.

    Configuration values, the hash file, the environment and the relation
    data are inputs or state; lookups the charm delegates to its helper
    library (addresses, ports, the OpenStack release, the signing directory)
    arrive as one record of already-computed values. */
module SwiftContext {
  import opened Wrappers
  import opened HookEnv
  import opened Text
  import opened Affinity

  // ---------------------------------------------------------------------------
  // The affinity options

  /** What a validator leaves behind: its effects, how it ends, and what it returns. */
  datatype Checked = Checked(effects: seq<Effect>, outcome: Outcome, value: Option<string>)

  const ReadAffinityMalformed := "'read-affinity' config option is malformed"
  const WriteAffinityMalformed := "'write-affinity' config option is malformed"
  const NodeCountMalformed := "'write-affinity-node-count' config option is malformed"

  /** `re.match` of an affinity pattern: the language, or the language and one final newline. */
  ghost predicate AffinityMatch(kind: Kind, s: string) {
    InLanguage(kind, s) || (NewlineEnded(s) && InLanguage(kind, Chomp(s)))
  }

  ghost predicate NodeCountMatch(s: string) {
    InNodeCountLanguage(s) || (NewlineEnded(s) && InNodeCountLanguage(Chomp(s)))
  }

  /** The shape the three validators share: an unset or empty option gives None,
      an accepted one is returned unchanged, anything else sets the unit
      blocked and raises, both with `message`. */
  function Validate(setting: Value, accepted: bool, message: string): Checked
    requires IsText(setting)
  {
    if !Truthy(setting) then Checked([], Done, None)
    else if accepted then Checked([], Done, Some(setting.text))
    else Checked([StatusSet("blocked", message)], Raised(message), None)
  }

  /** get_read_affinity */
  function ReadAffinity(setting: Value): (c: Checked)
    requires IsText(setting)
    ensures c.outcome.Raised? <==> Truthy(setting) && !AffinityMatch(ReadKind, setting.text)
    ensures c.outcome.Raised? ==>
              c == Checked([StatusSet("blocked", ReadAffinityMalformed)], Raised(ReadAffinityMalformed), None)
    ensures c.outcome.Done? ==> c.effects == [] && c.value == (if Truthy(setting) then Some(setting.text) else None)
  {
    Validate(setting, setting.Str? && MatchesAffinity(ReadKind, setting.text), ReadAffinityMalformed)
  }

  /** get_write_affinity */
  function WriteAffinity(setting: Value): (c: Checked)
    requires IsText(setting)
    ensures c.outcome.Raised? <==> Truthy(setting) && !AffinityMatch(WriteKind, setting.text)
    ensures c.outcome.Raised? ==>
              c == Checked([StatusSet("blocked", WriteAffinityMalformed)], Raised(WriteAffinityMalformed), None)
    ensures c.outcome.Done? ==> c.effects == [] && c.value == (if Truthy(setting) then Some(setting.text) else None)
  {
    Validate(setting, setting.Str? && MatchesAffinity(WriteKind, setting.text), WriteAffinityMalformed)
  }

  /** get_write_affinity_node_count */
  function WriteAffinityNodeCount(setting: Value): (c: Checked)
    requires IsText(setting)
    ensures c.outcome.Raised? <==> Truthy(setting) && !NodeCountMatch(setting.text)
    ensures c.outcome.Raised? ==>
              c == Checked([StatusSet("blocked", NodeCountMalformed)], Raised(NodeCountMalformed), None)
    ensures c.outcome.Done? ==> c.effects == [] && c.value == (if Truthy(setting) then Some(setting.text) else None)
  {
    Validate(setting, setting.Str? && MatchesNodeCount(setting.text), NodeCountMalformed)
  }

  // ---------------------------------------------------------------------------
  // The swift hash

  /** The process environment and the charm's application name. */
  datatype HashEnv = HashEnv(envUuid: Option<string>, modelUuid: Option<string>, serviceName: string)

  /** The model UUID: JUJU_ENV_UUID when it is set, else JUJU_MODEL_UUID. */
  function ModelUuid(env: HashEnv): Option<string> {
    if env.envUuid.Some? then env.envUuid else env.modelUuid
  }

  /** The hash get_swift_hash returns for a hash file with the given contents
      (None: no file). `derive` is `str(uuid.uuid3(uuid.UUID(model_uuid),
      service_name))`, the name-based UUID of section 4.3 of RFC 4122; it gives
      None where `uuid.UUID` raises, and so does this function. */
  function SwiftHash(file: Option<string>, configHash: Value, env: HashEnv,
                     derive: (Option<string>, string) -> Option<string>): Option<string>
    requires IsText(configHash)
  {
    if file.Some? then Some(Strip(file.value))
    else if Truthy(configHash) then Some(configHash.text)
    else derive(ModelUuid(env), env.serviceName)
  }

  /** The hash file after get_swift_hash: an existing file is only read; otherwise
      the chosen hash is written, unless deriving it raised. */
  function HashFileAfter(file: Option<string>, configHash: Value, env: HashEnv,
                         derive: (Option<string>, string) -> Option<string>): Option<string>
    requires IsText(configHash)
  {
    if file.Some? then file else SwiftHash(file, configHash, env, derive)
  }

  /** Once a hash has been returned, every later call returns it again (stripped
      of surrounding whitespace), whatever the configuration, the environment
      and the derivation are by then: the hash is never regenerated. */
  lemma HashNeverRegenerated(file: Option<string>, configHash: Value, env: HashEnv,
                             derive: (Option<string>, string) -> Option<string>,
                             configHash': Value, env': HashEnv,
                             derive': (Option<string>, string) -> Option<string>)
    requires IsText(configHash) && IsText(configHash')
    requires SwiftHash(file, configHash, env, derive).Some?
    ensures var hash := SwiftHash(file, configHash, env, derive).value;
            var file' := HashFileAfter(file, configHash, env, derive);
            && file'.Some?
            && SwiftHash(file', configHash', env', derive') == Some(Strip(hash))
            && HashFileAfter(file', configHash', env', derive') == file'
  {
    if file.Some? {
      StripIdempotent(file.value);
    }
  }

  /** The hash file, at SWIFT_HASH_FILE: absent (None) or its contents. */
  class HashFile {
    var contents: Option<string>

    constructor (contents: Option<string>)
      ensures this.contents == contents
    {
      this.contents := contents;
    }

    /** get_swift_hash; None where deriving the hash raises. */
    method GetSwiftHash(configHash: Value, env: HashEnv, derive: (Option<string>, string) -> Option<string>)
      returns (hash: Option<string>)
      requires IsText(configHash)
      modifies this
      ensures hash == SwiftHash(old(contents), configHash, env, derive)
      ensures contents == HashFileAfter(old(contents), configHash, env, derive)
    {
      if contents.Some? {
        hash := Some(Strip(contents.value));
      } else if Truthy(configHash) {
        hash := Some(configHash.text);
        contents := hash;
      } else {
        var modelUuid := if env.envUuid.Some? then env.envUuid else env.modelUuid;
        hash := derive(modelUuid, env.serviceName);
        if hash.Some? {
          contents := hash;
        }
      }
    }
  }

  // ---------------------------------------------------------------------------
  // Merging the identity-service relation data

  /** The settings one related unit has published on its relation. */
  type UnitData = map<string, string>

  /** relation_ids('identity-service') in order, each with related_units(relid) in order. */
  type Relations = seq<seq<UnitData>>

  /** One merged setting: the context key, the relation key it is read from,
      and what a unit without it contributes: Some(default) when the key is
      kept at its current value or else set to `default`, None when the key
      is left alone. */
  datatype KeySpec = KeySpec(key: string, source: string, default: Option<Value>)

  /** The ten keys merged for every identity relation, with their defaults. */
  const IdentityKeys: seq<KeySpec> := [
    KeySpec("auth_protocol", "auth_protocol", Some(Str("http"))),
    KeySpec("service_protocol", "service_protocol", Some(Str("http"))),
    KeySpec("keystone_host", "auth_host", Some(Null)),
    KeySpec("service_host", "service_host", Some(Null)),
    KeySpec("auth_port", "auth_port", Some(Null)),
    KeySpec("service_user", "service_username", Some(Null)),
    KeySpec("service_password", "service_password", Some(Null)),
    KeySpec("service_tenant", "service_tenant", Some(Null)),
    KeySpec("service_port", "service_port", Some(Null)),
    KeySpec("api_version", "api_version", Some(Str("2")))
  ]

  /** The four keys merged in addition for keystone v3, without defaults. */
  const IdentityKeysV3: seq<KeySpec> := [
    KeySpec("admin_domain_id", "admin_domain_id", None),
    KeySpec("service_tenant_id", "service_tenant_id", None),
    KeySpec("admin_domain_name", "service_domain", None),
    KeySpec("admin_tenant_name", "service_tenant", None)
  ]

  /** `d.get(k)` keeping absence apart from a stored None. */
  function Get(m: map<string, Value>, k: string): Option<Value> {
    if k in m then Some(m[k]) else None
  }

  /** Every related unit, relation by relation. */
  function Units(rels: Relations): seq<UnitData> {
    if rels == [] then [] else Units(rels[..|rels| - 1]) + rels[|rels| - 1]
  }

  /** What one unit's settings do to the merged key of `ks`. */
  function MergeUnit(kvs: map<string, Value>, ks: KeySpec, unit: UnitData): map<string, Value> {
    if ks.source in unit then kvs[ks.key := Str(unit[ks.source])]
    else if ks.default.Some? then kvs[ks.key := if ks.key in kvs then kvs[ks.key] else ks.default.value]
    else kvs
  }

  /** The key of `ks` merged over `units`, in order. */
  function MergeKey(kvs: map<string, Value>, ks: KeySpec, units: seq<UnitData>): map<string, Value> {
    if units == [] then kvs
    else MergeUnit(MergeKey(kvs, ks, units[..|units| - 1]), ks, units[|units| - 1])
  }

  /** Each of `keys` merged over `units`, one key after the other. */
  function MergeKeys(kvs: map<string, Value>, keys: seq<KeySpec>, units: seq<UnitData>): map<string, Value> {
    if keys == [] then kvs
    else MergeKey(MergeKeys(kvs, keys[..|keys| - 1], units), keys[|keys| - 1], units)
  }

  /** The `kvs` dict SwiftIdentityContext builds from the relation data. */
  function MergedKvs(rels: Relations): map<string, Value> {
    var kvs := MergedV2(rels);
    if Lookup(kvs, "api_version") == Str("3") then MergeKeys(kvs, IdentityKeysV3, Units(rels)) else kvs
  }

  /** The reference definition of the merge: the value the last unit that has
      `source` gives it. */
  function LastNonNull(units: seq<UnitData>, source: string): Option<string> {
    if units == [] then None
    else if source in units[|units| - 1] then Some(units[|units| - 1][source])
    else LastNonNull(units[..|units| - 1], source)
  }

  /** The merged value of the key of `ks`, from its value before the merge. */
  function Resolved(before: Option<Value>, ks: KeySpec, last: Option<string>): Option<Value> {
    match last
    case Some(v) => Some(Str(v))
    case None => if ks.default.Some? && before.None? then ks.default else before
  }

  /** Merging one key over the units is the last non-None value; without one
      the value it had, or its default; and no units leave it untouched.
      Nothing but that key changes. */
  lemma {:induction false} MergeKeyIsLastNonNull(kvs: map<string, Value>, ks: KeySpec, units: seq<UnitData>, k: string)
    ensures Get(MergeKey(kvs, ks, units), k) ==
            if k != ks.key || units == [] then Get(kvs, k)
            else Resolved(Get(kvs, k), ks, LastNonNull(units, ks.source))
    decreases |units|
  {
    if units != [] {
      var prefix := units[..|units| - 1];
      MergeKeyIsLastNonNull(kvs, ks, prefix, k);
    }
  }

  /** The context keys of `keys` are pairwise distinct. */
  predicate DistinctKeys(keys: seq<KeySpec>) {
    forall i, j | 0 <= i < j < |keys| :: keys[i].key != keys[j].key
  }

  /** `k` is none of the context keys of `keys`. */
  predicate NotAKey(keys: seq<KeySpec>, k: string) {
    forall i | 0 <= i < |keys| :: keys[i].key != k
  }

  /** Merging keys other than `k` leaves `k` as it was. */
  lemma {:induction false} MergeKeysOutside(kvs: map<string, Value>, keys: seq<KeySpec>, units: seq<UnitData>, k: string)
    requires NotAKey(keys, k)
    ensures Get(MergeKeys(kvs, keys, units), k) == Get(kvs, k)
    decreases |keys|
  {
    if keys != [] {
      var prefix := keys[..|keys| - 1];
      MergeKeysOutside(kvs, prefix, units, k);
      MergeKeyIsLastNonNull(MergeKeys(kvs, prefix, units), keys[|keys| - 1], units, k);
    }
  }

  /** With distinct keys, each key ends up as if it alone had been merged. */
  lemma {:induction false} MergeKeysAt(kvs: map<string, Value>, keys: seq<KeySpec>, units: seq<UnitData>, i: nat)
    requires DistinctKeys(keys) && i < |keys|
    ensures Get(MergeKeys(kvs, keys, units), keys[i].key) == Get(MergeKey(kvs, keys[i], units), keys[i].key)
    decreases |keys|
  {
    var prefix, last := keys[..|keys| - 1], keys[|keys| - 1];
    var k := keys[i].key;
    MergeKeyIsLastNonNull(MergeKeys(kvs, prefix, units), last, units, k);
    if i == |keys| - 1 {
      MergeKeysOutside(kvs, prefix, units, k);
      MergeKeyIsLastNonNull(kvs, last, units, k);
    } else {
      MergeKeysAt(kvs, prefix, units, i);
    }
  }

  lemma IdentityKeysDistinct()
    ensures DistinctKeys(IdentityKeys) && NotAKey(IdentityKeys, "auth_type")
    ensures forall i | 0 <= i < |IdentityKeys| :: NotAKey(IdentityKeysV3, IdentityKeys[i].key)
  {
  }

  lemma IdentityKeysV3Distinct()
    ensures DistinctKeys(IdentityKeysV3) && NotAKey(IdentityKeysV3, "auth_type")
    ensures forall i | 0 <= i < |IdentityKeysV3| :: NotAKey(IdentityKeys, IdentityKeysV3[i].key)
  {
  }

  /** The value a merged key with a default ends with when there are units. */
  function Winner(ks: KeySpec, units: seq<UnitData>): Value
    requires ks.default.Some?
  {
    match LastNonNull(units, ks.source)
    case Some(v) => Str(v)
    case None => ks.default.value
  }

  /** Keystone v3: the last unit publishing an api_version published '3'. */
  predicate ApiV3(rels: Relations) {
    LastNonNull(Units(rels), "api_version") == Some("3")
  }

  /** Merged kvs before the v3 keys. */
  function MergedV2(rels: Relations): map<string, Value> {
    MergeKeys(if rels != [] then map["auth_type" := Str("keystone")] else map[], IdentityKeys, Units(rels))
  }

  lemma MergedV2Key(rels: Relations, k: string)
    requires NotAKey(IdentityKeys, k)
    ensures Get(MergedV2(rels), k) == if k == "auth_type" && rels != [] then Some(Str("keystone")) else None
  {
    MergeKeysOutside(if rels != [] then map["auth_type" := Str("keystone")] else map[], IdentityKeys, Units(rels), k);
  }

  /** Each of the ten keys is set exactly when some unit is related, to the
      last value a unit published for it, or to its default when none did. */
  lemma IdentityKeyMerged(rels: Relations, i: nat)
    requires i < |IdentityKeys|
    ensures var ks := IdentityKeys[i];
            Get(MergedKvs(rels), ks.key) == if Units(rels) == [] then None else Some(Winner(ks, Units(rels)))
  {
    IdentityKeysDistinct();
    var init: map<string, Value> := if rels != [] then map["auth_type" := Str("keystone")] else map[];
    var ks := IdentityKeys[i];
    MergeKeysAt(init, IdentityKeys, Units(rels), i);
    MergeKeyIsLastNonNull(init, ks, Units(rels), ks.key);
    if Lookup(MergedV2(rels), "api_version") == Str("3") {
      MergeKeysOutside(MergedV2(rels), IdentityKeysV3, Units(rels), ks.key);
    }
  }

  /** auth_type is 'keystone' exactly when there is an identity relation, and
      absent otherwise. */
  lemma AuthTypeMerged(rels: Relations)
    ensures Get(MergedKvs(rels), "auth_type") == if rels != [] then Some(Str("keystone")) else None
  {
    IdentityKeysDistinct();
    IdentityKeysV3Distinct();
    MergedV2Key(rels, "auth_type");
    if Lookup(MergedV2(rels), "api_version") == Str("3") {
      MergeKeysOutside(MergedV2(rels), IdentityKeysV3, Units(rels), "auth_type");
    }
  }

  /** The merged api_version is '3' exactly when the last unit to publish one published '3'. */
  lemma ApiVersionMerged(rels: Relations)
    ensures Lookup(MergedV2(rels), "api_version") == Str("3") <==> ApiV3(rels)
  {
    IdentityKeysDistinct();
    var init: map<string, Value> := if rels != [] then map["auth_type" := Str("keystone")] else map[];
    assert IdentityKeys[9].key == "api_version";
    MergeKeysAt(init, IdentityKeys, Units(rels), 9);
    MergeKeyIsLastNonNull(init, IdentityKeys[9], Units(rels), "api_version");
  }

  /** A v3 key is set only under keystone v3, and only when some unit
      published it, to the last value published; it has no default. */
  lemma V3KeyMerged(rels: Relations, i: nat)
    requires i < |IdentityKeysV3|
    ensures var ks := IdentityKeysV3[i];
            var last := LastNonNull(Units(rels), ks.source);
            Get(MergedKvs(rels), ks.key) == if ApiV3(rels) && last.Some? then Some(Str(last.value)) else None
  {
    IdentityKeysV3Distinct();
    var ks := IdentityKeysV3[i];
    ApiVersionMerged(rels);
    MergedV2Key(rels, ks.key);
    if ApiV3(rels) {
      MergeKeysAt(MergedV2(rels), IdentityKeysV3, Units(rels), i);
      MergeKeyIsLastNonNull(MergedV2(rels), ks, Units(rels), ks.key);
    }
  }

  /** The merge sets no other key. */
  lemma OnlyMergedKeys(rels: Relations, k: string)
    requires k != "auth_type" && NotAKey(IdentityKeys, k) && NotAKey(IdentityKeysV3, k)
    ensures k !in MergedKvs(rels)
  {
    MergedV2Key(rels, k);
    if Lookup(MergedV2(rels), "api_version") == Str("3") {
      MergeKeysOutside(MergedV2(rels), IdentityKeysV3, Units(rels), k);
    }
  }

  /** What the merge does to the keys the context sets itself. */
  lemma SettingsNotMerged(rels: Relations)
    ensures "log_level" !in MergedKvs(rels) && "ssl" !in MergedKvs(rels)
    ensures Get(MergedKvs(rels), "auth_type") == if rels != [] then Some(Str("keystone")) else None
    ensures Units(rels) == [] ==> "service_password" !in MergedKvs(rels)
  {
    AuthTypeMerged(rels);
    OnlyMergedKeys(rels, "log_level");
    OnlyMergedKeys(rels, "ssl");
    IdentityKeyMerged(rels, 6);
  }

  lemma SnocSlice<T>(p: seq<T>, s: seq<T>, k: nat)
    requires k < |s|
    ensures p + s[..k + 1] == (p + s[..k]) + [s[k]]
  {
    assert s[..k + 1] == s[..k] + [s[k]];
  }

  lemma UnitsSnoc(rels: Relations, j: nat)
    requires j < |rels|
    ensures Units(rels[..j + 1]) == Units(rels[..j]) + rels[j]
  {
    assert rels[..j + 1][..j] == rels[..j];
  }

  lemma MergeKeySnoc(kvs: map<string, Value>, ks: KeySpec, units: seq<UnitData>, u: UnitData)
    ensures MergeKey(kvs, ks, units + [u]) == MergeUnit(MergeKey(kvs, ks, units), ks, u)
  {
    assert (units + [u])[..|units|] == units;
  }

  lemma MergeKeysSnoc(kvs: map<string, Value>, keys: seq<KeySpec>, i: nat, units: seq<UnitData>)
    requires i < |keys|
    ensures MergeKeys(kvs, keys[..i + 1], units) == MergeKey(MergeKeys(kvs, keys[..i], units), keys[i], units)
  {
    assert keys[..i + 1][..i] == keys[..i];
  }

  /** For each key in turn, for each relation, for each of its units: the
      unit's value when it published one, else the key's current value or its
      default (for keys that have one). */
  method MergeRelationKeys(kvs0: map<string, Value>, keys: seq<KeySpec>, rels: Relations)
    returns (kvs: map<string, Value>)
    ensures kvs == MergeKeys(kvs0, keys, Units(rels))
  {
    kvs := kvs0;
    for i := 0 to |keys|
      invariant kvs == MergeKeys(kvs0, keys[..i], Units(rels))
    {
      var ks := keys[i];
      ghost var start := kvs;
      for j := 0 to |rels|
        invariant kvs == MergeKey(start, ks, Units(rels[..j]))
      {
        assert Units(rels[..j]) + rels[j][..0] == Units(rels[..j]);
        for k := 0 to |rels[j]|
          invariant kvs == MergeKey(start, ks, Units(rels[..j]) + rels[j][..k])
        {
          var unit := rels[j][k];
          if ks.source in unit {
            kvs := kvs[ks.key := Str(unit[ks.source])];
          } else if ks.default.Some? {
            kvs := kvs[ks.key := if ks.key in kvs then kvs[ks.key] else ks.default.value];
          }
          SnocSlice(Units(rels[..j]), rels[j], k);
          MergeKeySnoc(start, ks, Units(rels[..j]) + rels[j][..k], unit);
        }
        assert rels[j][..|rels[j]|] == rels[j];
        UnitsSnoc(rels, j);
      }
      assert rels[..|rels|] == rels;
      MergeKeysSnoc(kvs0, keys, i, Units(rels));
    }
    assert keys[..|keys|] == keys;
  }

  /** The relation-data merge of SwiftIdentityContext. */
  method MergeRelationData(rels: Relations) returns (kvs: map<string, Value>)
    ensures kvs == MergedKvs(rels)
  {
    kvs := map[];
    if |rels| > 0 {
      kvs := kvs["auth_type" := Str("keystone")];
    }
    kvs := MergeRelationKeys(kvs, IdentityKeys, rels);
    if Lookup(kvs, "api_version") == Str("3") {
      kvs := MergeRelationKeys(kvs, IdentityKeysV3, rels);
    }
  }

  // ---------------------------------------------------------------------------
  // SwiftIdentityContext

  /** What the context takes from the charm's helper library, already computed:
      the proxy and memcached addresses, the API port, the worker count,
      whether the release is older than train, the swauth admin key in the
      leader settings, and the signing directory of the identity context. */
  datatype HostFacts = HostFacts(
    proxyIp: Value, memcachedIp: Value, bindPort: Value, workers: Value,
    beforeTrain: bool, swauthAdminKey: Option<string>, signingDir: Value)

  /** Context keys copied from the configuration option of the paired name. */
  const ConfigKeys: seq<(string, string)> := [
    ("operator_roles", "operator-roles"),
    ("delay_auth_decision", "delay-auth-decision"),
    ("node_timeout", "node-timeout"),
    ("recoverable_node_timeout", "recoverable-node-timeout"),
    ("log_headers", "log-headers"),
    ("statsd_host", "statsd-host"),
    ("statsd_port", "statsd-port"),
    ("statsd_sample_rate", "statsd-sample-rate"),
    ("static_large_object_segments", "static-large-object-segments"),
    ("enable_multi_region", "enable-multi-region")
  ]

  /** Context keys taken from the host facts, set before the configuration copies. */
  const HostKeys: seq<string> := ["proxy_ip", "memcached_ip", "bind_port", "workers"]

  /** Context keys the context sets after the configuration copies. */
  const LaterKeys: seq<string> := [
    "read_affinity", "write_affinity", "write_affinity_node_count", "swauth_admin_key",
    "log_level", "signing_dir", "ssl", "auth_type"
  ]

  /** The copied keys are distinct and none is set elsewhere, so each copy survives. */
  lemma ConfigKeysDistinct()
    ensures forall a, b | 0 <= a < b < |ConfigKeys| :: ConfigKeys[a].0 != ConfigKeys[b].0
    ensures forall a | 0 <= a < |ConfigKeys| :: ConfigKeys[a].0 !in HostKeys && ConfigKeys[a].0 !in LaterKeys
  {
  }

  /** Host keys that prefer-ipv6 rewrites into bracketed IPv6 form. */
  const Ipv6Keys: seq<string> := ["keystone_host", "service_host"]

  const UserKeystoneMessage := "Using user-specified Keystone configuration."

  /** The three options the context validates, all unset or strings. */
  predicate AffinityOptionsText(config: map<string, Value>) {
    && IsText(Lookup(config, "read-affinity"))
    && IsText(Lookup(config, "write-affinity"))
    && IsText(Lookup(config, "write-affinity-node-count"))
  }

  /** The first of the three validators to raise, in the order the context calls them. */
  function AffinityOutcome(config: map<string, Value>): Outcome
    requires AffinityOptionsText(config)
  {
    var read := ReadAffinity(Lookup(config, "read-affinity"));
    var write := WriteAffinity(Lookup(config, "write-affinity"));
    var count := WriteAffinityNodeCount(Lookup(config, "write-affinity-node-count"));
    if read.outcome.Raised? then read.outcome
    else if write.outcome.Raised? then write.outcome
    else count.outcome
  }

  /** Python's None for an absent optional string. */
  function OptionalText(v: Option<string>): Value {
    if v.Some? then Str(v.value) else Null
  }

  /** The operator asked for a keystone of their own: auth-type is keystone
      and a host, a user and a password are configured. The password is read
      from keystone-admin-user, as the charm does. */
  predicate KeystoneRequested(config: map<string, Value>) {
    && Lookup(config, "auth-type") == Str("keystone")
    && Truthy(Lookup(config, "keystone-auth-host"))
    && Truthy(Lookup(config, "keystone-admin-user"))
    && Truthy(Lookup(config, "keystone-admin-user"))
  }

  /** The user-specified keystone settings. */
  function KeystoneBlock(config: map<string, Value>): map<string, Value> {
    map[
      "auth_type" := Str("keystone"),
      "auth_protocol" := Lookup(config, "keystone-auth-protocol"),
      "keystone_host" := Lookup(config, "keystone-auth-host"),
      "auth_port" := Lookup(config, "keystone-auth-port"),
      "service_user" := Lookup(config, "keystone-admin-user"),
      "service_password" := Lookup(config, "keystone-admin-user"),
      "service_tenant" := Lookup(config, "keystone-admin-tenant-name")
    ]
  }

  /** A host value after prefer-ipv6: rewritten when it is set and truthy. */
  function Ipv6Host(host: Option<Value>, formatIpv6: Value -> Value): Option<Value> {
    if host.Some? && Truthy(host.value) then Some(formatIpv6(host.value)) else host
  }

  /** Each copied key takes its option's value; the host keys and the keys
      set later keep theirs. */
  method CopyConfig(ctxt0: map<string, Value>, config: map<string, Value>) returns (ctxt: map<string, Value>)
    ensures forall m | 0 <= m < |ConfigKeys| :: Get(ctxt, ConfigKeys[m].0) == Some(Lookup(config, ConfigKeys[m].1))
    ensures forall k | k in HostKeys || k in LaterKeys :: Get(ctxt, k) == Get(ctxt0, k)
  {
    ConfigKeysDistinct();
    ctxt := ctxt0;
    for i := 0 to |ConfigKeys|
      invariant forall m | 0 <= m < i :: Get(ctxt, ConfigKeys[m].0) == Some(Lookup(config, ConfigKeys[m].1))
      invariant forall k | k in HostKeys || k in LaterKeys :: Get(ctxt, k) == Get(ctxt0, k)
    {
      ctxt := ctxt[ConfigKeys[i].0 := Lookup(config, ConfigKeys[i].1)];
    }
  }

  /** The keys the context sets after the configuration copies: the affinity
      options, the swauth key before train, the log level, the signing
      directory when there is one, ssl and auth_type. */
  method LaterSettings(ctxt0: map<string, Value>, config: map<string, Value>, host: HostFacts,
                       readAffinity: Option<string>, writeAffinity: Option<string>, nodeCount: Option<string>)
    returns (ctxt: map<string, Value>)
    ensures Get(ctxt, "log_level") == Some(Str(if Truthy(Lookup(config, "debug")) then "DEBUG" else "INFO"))
    ensures Get(ctxt, "ssl") == Some(Flag(false))
    ensures Get(ctxt, "auth_type") == Some(Lookup(config, "auth-type"))
    ensures Get(ctxt, "read_affinity") == Some(OptionalText(readAffinity))
    ensures Get(ctxt, "write_affinity") == Some(OptionalText(writeAffinity))
    ensures Get(ctxt, "write_affinity_node_count") == Some(OptionalText(nodeCount))
    ensures Get(ctxt, "swauth_admin_key") ==
              if host.beforeTrain && host.swauthAdminKey.Some? then Some(Str(host.swauthAdminKey.value))
              else Get(ctxt0, "swauth_admin_key")
  {
    ctxt := ctxt0["read_affinity" := OptionalText(readAffinity)];
    ctxt := ctxt["write_affinity" := OptionalText(writeAffinity)];
    ctxt := ctxt["write_affinity_node_count" := OptionalText(nodeCount)];
    if host.beforeTrain && host.swauthAdminKey.Some? {
      ctxt := ctxt["swauth_admin_key" := Str(host.swauthAdminKey.value)];
    }
    ctxt := ctxt["log_level" := Str(if Truthy(Lookup(config, "debug")) then "DEBUG" else "INFO")];
    if Truthy(host.signingDir) {
      ctxt := ctxt["signing_dir" := host.signingDir];
    }
    ctxt := ctxt["ssl" := Flag(false)];
    ctxt := ctxt["auth_type" := Lookup(config, "auth-type")];
  }

  /** The context built from the configuration and the host facts, before any
      keystone settings: lines up to and including auth_type. */
  method ConfigContext(config: map<string, Value>, host: HostFacts,
                       readAffinity: Option<string>, writeAffinity: Option<string>, nodeCount: Option<string>)
    returns (ctxt: map<string, Value>)
    ensures Get(ctxt, "log_level") == Some(Str(if Truthy(Lookup(config, "debug")) then "DEBUG" else "INFO"))
    ensures Get(ctxt, "ssl") == Some(Flag(false))
    ensures Get(ctxt, "auth_type") == Some(Lookup(config, "auth-type"))
    ensures Get(ctxt, "read_affinity") == Some(OptionalText(readAffinity))
    ensures Get(ctxt, "write_affinity") == Some(OptionalText(writeAffinity))
    ensures Get(ctxt, "write_affinity_node_count") == Some(OptionalText(nodeCount))
    ensures Get(ctxt, "swauth_admin_key") ==
              if host.beforeTrain && host.swauthAdminKey.Some? then Some(Str(host.swauthAdminKey.value)) else None
  {
    var hosts := map[
      "proxy_ip" := host.proxyIp,
      "memcached_ip" := host.memcachedIp,
      "bind_port" := host.bindPort,
      "workers" := host.workers
    ];
    var copied := CopyConfig(hosts, config);
    assert Get(copied, LaterKeys[3]) == Get(hosts, LaterKeys[3]);
    ctxt := LaterSettings(copied, config, host, readAffinity, writeAffinity, nodeCount);
  }

  /** prefer-ipv6: each truthy host value becomes its IPv6 form; nothing else changes. */
  method PreferIpv6(ctxt0: map<string, Value>, formatIpv6: Value -> Value) returns (ctxt: map<string, Value>)
    ensures forall k | k !in Ipv6Keys :: Get(ctxt, k) == Get(ctxt0, k)
    ensures forall k | k in Ipv6Keys :: Get(ctxt, k) == Ipv6Host(Get(ctxt0, k), formatIpv6)
  {
    ctxt := ctxt0;
    for i := 0 to |Ipv6Keys|
      invariant forall k | k !in Ipv6Keys[..i] :: Get(ctxt, k) == Get(ctxt0, k)
      invariant forall k | k in Ipv6Keys[..i] :: Get(ctxt, k) == Ipv6Host(Get(ctxt0, k), formatIpv6)
    {
      var key := Ipv6Keys[i];
      var host := Lookup(ctxt, key);
      if Truthy(host) {
        ctxt := ctxt[key := formatIpv6(host)];
      }
    }
  }

  /** The user-specified keystone block, when the operator asked for it. */
  method KeystoneSettings(config: map<string, Value>, ctxt0: map<string, Value>)
    returns (log: seq<Effect>, ctxt: map<string, Value>)
    ensures log == if KeystoneRequested(config) then [Log(UserKeystoneMessage, DefaultLevel)] else []
    ensures Get(ctxt, "log_level") == Get(ctxt0, "log_level") && Get(ctxt, "ssl") == Get(ctxt0, "ssl")
    ensures Get(ctxt, "auth_type") == if KeystoneRequested(config) then Some(Str("keystone")) else Get(ctxt0, "auth_type")
    ensures KeystoneRequested(config) ==> Get(ctxt, "service_password") == Some(Lookup(config, "keystone-admin-user"))
    ensures KeystoneRequested(config) ==>
              forall k | k in KeystoneBlock(config) :: Get(ctxt, k) == Some(KeystoneBlock(config)[k])
    ensures forall k | !(KeystoneRequested(config) && k in KeystoneBlock(config)) :: Get(ctxt, k) == Get(ctxt0, k)
  {
    log, ctxt := [], ctxt0;
    if KeystoneRequested(config) {
      log := [Log(UserKeystoneMessage, DefaultLevel)];
      ctxt := ctxt + KeystoneBlock(config);
    }
  }

  /** `ctxt.update(kvs)`: the merged relation data overrides the configuration. */
  method OverlayRelationData(ctxt0: map<string, Value>, rels: Relations) returns (ctxt: map<string, Value>)
    ensures forall k | k in MergedKvs(rels) :: Get(ctxt, k) == Some(MergedKvs(rels)[k])
    ensures forall k | k !in MergedKvs(rels) :: Get(ctxt, k) == Get(ctxt0, k)
  {
    var kvs := MergeRelationData(rels);
    ctxt := ctxt0 + kvs;
  }

  /** A context key after the relation data and prefer-ipv6 are applied to
      its value `before`. */
  function Finished(before: Option<Value>, merged: map<string, Value>, k: string,
                    ipv6: bool, formatIpv6: Value -> Value): Option<Value> {
    var v := if k in merged then Some(merged[k]) else before;
    if ipv6 && k in Ipv6Keys then Ipv6Host(v, formatIpv6) else v
  }

  /** The relation data over the context, then prefer-ipv6. */
  method FinishContext(ctxt0: map<string, Value>, rels: Relations, ipv6: bool, formatIpv6: Value -> Value)
    returns (ctxt: map<string, Value>)
    ensures forall k :: Get(ctxt, k) == Finished(Get(ctxt0, k), MergedKvs(rels), k, ipv6, formatIpv6)
  {
    var merged := OverlayRelationData(ctxt0, rels);
    ctxt := merged;
    if ipv6 {
      ctxt := PreferIpv6(merged, formatIpv6);
    }
  }

  /** The settings the configuration and the keystone block fix survive the
      relation data, apart from auth_type when there is a relation and
      service_password when a unit sends one. */
  lemma SettingsCarried(config: map<string, Value>, configured: map<string, Value>, withKeystone: map<string, Value>,
                        ctxt: map<string, Value>, rels: Relations, ipv6: bool, formatIpv6: Value -> Value)
    requires Get(configured, "log_level") == Some(Str(if Truthy(Lookup(config, "debug")) then "DEBUG" else "INFO"))
    requires Get(configured, "ssl") == Some(Flag(false))
    requires Get(configured, "auth_type") == Some(Lookup(config, "auth-type"))
    requires Get(withKeystone, "log_level") == Get(configured, "log_level")
    requires Get(withKeystone, "ssl") == Get(configured, "ssl")
    requires Get(withKeystone, "auth_type") ==
               if KeystoneRequested(config) then Some(Str("keystone")) else Get(configured, "auth_type")
    requires KeystoneRequested(config) ==>
               Get(withKeystone, "service_password") == Some(Lookup(config, "keystone-admin-user"))
    requires forall k :: Get(ctxt, k) == Finished(Get(withKeystone, k), MergedKvs(rels), k, ipv6, formatIpv6)
    ensures && Get(ctxt, "log_level") == Some(Str(if Truthy(Lookup(config, "debug")) then "DEBUG" else "INFO"))
            && Get(ctxt, "ssl") == Some(Flag(false))
            && Get(ctxt, "auth_type") ==
                 Some(if rels != [] || KeystoneRequested(config) then Str("keystone") else Lookup(config, "auth-type"))
    ensures KeystoneRequested(config) && Units(rels) == [] ==>
              Get(ctxt, "service_password") == Some(Lookup(config, "keystone-admin-user"))
  {
    SettingsNotMerged(rels);
    var merged := MergedKvs(rels);
    assert Get(ctxt, "log_level") == Finished(Get(withKeystone, "log_level"), merged, "log_level", ipv6, formatIpv6);
    assert Get(ctxt, "ssl") == Finished(Get(withKeystone, "ssl"), merged, "ssl", ipv6, formatIpv6);
    assert Get(ctxt, "auth_type") == Finished(Get(withKeystone, "auth_type"), merged, "auth_type", ipv6, formatIpv6);
    assert Get(ctxt, "service_password") ==
           Finished(Get(withKeystone, "service_password"), merged, "service_password", ipv6, formatIpv6);
  }

  /** The merged relation data is in the finished context, through the IPv6
      rewrite for the host keys. */
  lemma MergedCarried(withKeystone: map<string, Value>, ctxt: map<string, Value>, rels: Relations,
                      ipv6: bool, formatIpv6: Value -> Value)
    requires forall k :: Get(ctxt, k) == Finished(Get(withKeystone, k), MergedKvs(rels), k, ipv6, formatIpv6)
    ensures forall k | k in MergedKvs(rels) && !(ipv6 && k in Ipv6Keys) :: Get(ctxt, k) == Some(MergedKvs(rels)[k])
    ensures ipv6 ==>
              forall k | k in MergedKvs(rels) && k in Ipv6Keys :: Get(ctxt, k) == Ipv6Host(Some(MergedKvs(rels)[k]), formatIpv6)
  {
  }

  /** The keystone block keys the relation data does not override are in the
      finished context, through the IPv6 rewrite for the host keys. */
  lemma KeystoneBlockCarried(config: map<string, Value>, withKeystone: map<string, Value>, ctxt: map<string, Value>,
                             rels: Relations, ipv6: bool, formatIpv6: Value -> Value)
    requires KeystoneRequested(config) ==>
               forall k | k in KeystoneBlock(config) :: Get(withKeystone, k) == Some(KeystoneBlock(config)[k])
    requires forall k :: Get(ctxt, k) == Finished(Get(withKeystone, k), MergedKvs(rels), k, ipv6, formatIpv6)
    ensures KeystoneRequested(config) ==>
              forall k | k in KeystoneBlock(config) && k !in MergedKvs(rels) && !(ipv6 && k in Ipv6Keys) ::
                Get(ctxt, k) == Some(KeystoneBlock(config)[k])
    ensures KeystoneRequested(config) && ipv6 ==>
              forall k | k in KeystoneBlock(config) && k !in MergedKvs(rels) && k in Ipv6Keys ::
                Get(ctxt, k) == Ipv6Host(Some(KeystoneBlock(config)[k]), formatIpv6)
  {
  }

  /** Everything after the validators. */
  method AssembleContext(config: map<string, Value>, host: HostFacts, rels: Relations, formatIpv6: Value -> Value,
                         readAffinity: Option<string>, writeAffinity: Option<string>, nodeCount: Option<string>)
    returns (log: seq<Effect>, ctxt: map<string, Value>)
    ensures log == if KeystoneRequested(config) then [Log(UserKeystoneMessage, DefaultLevel)] else []
    ensures && Get(ctxt, "log_level") == Some(Str(if Truthy(Lookup(config, "debug")) then "DEBUG" else "INFO"))
            && Get(ctxt, "ssl") == Some(Flag(false))
            && Get(ctxt, "auth_type") ==
                 Some(if rels != [] || KeystoneRequested(config) then Str("keystone") else Lookup(config, "auth-type"))
    ensures forall k | k in MergedKvs(rels) && !(Truthy(Lookup(config, "prefer-ipv6")) && k in Ipv6Keys) ::
              Get(ctxt, k) == Some(MergedKvs(rels)[k])
    ensures KeystoneRequested(config) && Units(rels) == [] ==>
              Get(ctxt, "service_password") == Some(Lookup(config, "keystone-admin-user"))
    ensures Truthy(Lookup(config, "prefer-ipv6")) ==>
              forall k | k in MergedKvs(rels) && k in Ipv6Keys :: Get(ctxt, k) == Ipv6Host(Some(MergedKvs(rels)[k]), formatIpv6)
    ensures KeystoneRequested(config) ==>
              forall k | k in KeystoneBlock(config) && k !in MergedKvs(rels) && !(Truthy(Lookup(config, "prefer-ipv6")) && k in Ipv6Keys) ::
                Get(ctxt, k) == Some(KeystoneBlock(config)[k])
    ensures KeystoneRequested(config) && Truthy(Lookup(config, "prefer-ipv6")) ==>
              forall k | k in KeystoneBlock(config) && k !in MergedKvs(rels) && k in Ipv6Keys ::
                Get(ctxt, k) == Ipv6Host(Some(KeystoneBlock(config)[k]), formatIpv6)
  {
    var configured := ConfigContext(config, host, readAffinity, writeAffinity, nodeCount);
    var withKeystone;
    log, withKeystone := KeystoneSettings(config, configured);
    var ipv6 := Truthy(Lookup(config, "prefer-ipv6"));
    ctxt := FinishContext(withKeystone, rels, ipv6, formatIpv6);
    SettingsCarried(config, configured, withKeystone, ctxt, rels, ipv6, formatIpv6);
    MergedCarried(withKeystone, ctxt, rels, ipv6, formatIpv6);
    KeystoneBlockCarried(config, withKeystone, ctxt, rels, ipv6, formatIpv6);
  }

  /** SwiftIdentityContext.__call__: returns the effects, how the call ends,
      and the context (empty when a validator raised). */
  method IdentityContext(config: map<string, Value>, host: HostFacts, rels: Relations, formatIpv6: Value -> Value)
    returns (effects: seq<Effect>, outcome: Outcome, ctxt: map<string, Value>)
    requires AffinityOptionsText(config)
    ensures outcome == AffinityOutcome(config)
    ensures outcome.Raised? ==> effects == [StatusSet("blocked", outcome.message)] && ctxt == map[]
    ensures outcome.Done? ==>
              effects == if KeystoneRequested(config) then [Log(UserKeystoneMessage, DefaultLevel)] else []
    ensures outcome.Done? ==>
              && Get(ctxt, "log_level") == Some(Str(if Truthy(Lookup(config, "debug")) then "DEBUG" else "INFO"))
              && Get(ctxt, "ssl") == Some(Flag(false))
              && Get(ctxt, "auth_type") ==
                   Some(if rels != [] || KeystoneRequested(config) then Str("keystone") else Lookup(config, "auth-type"))
    ensures outcome.Done? ==>
              forall k | k in MergedKvs(rels) && !(Truthy(Lookup(config, "prefer-ipv6")) && k in Ipv6Keys) ::
                Get(ctxt, k) == Some(MergedKvs(rels)[k])
    ensures outcome.Done? && KeystoneRequested(config) && Units(rels) == [] ==>
              Get(ctxt, "service_password") == Some(Lookup(config, "keystone-admin-user"))
    ensures outcome.Done? && Truthy(Lookup(config, "prefer-ipv6")) ==>
              forall k | k in MergedKvs(rels) && k in Ipv6Keys :: Get(ctxt, k) == Ipv6Host(Some(MergedKvs(rels)[k]), formatIpv6)
    ensures outcome.Done? && KeystoneRequested(config) ==>
              forall k | k in KeystoneBlock(config) && k !in MergedKvs(rels) && !(Truthy(Lookup(config, "prefer-ipv6")) && k in Ipv6Keys) ::
                Get(ctxt, k) == Some(KeystoneBlock(config)[k])
    ensures outcome.Done? && KeystoneRequested(config) && Truthy(Lookup(config, "prefer-ipv6")) ==>
              forall k | k in KeystoneBlock(config) && k !in MergedKvs(rels) && k in Ipv6Keys ::
                Get(ctxt, k) == Ipv6Host(Some(KeystoneBlock(config)[k]), formatIpv6)
  {
    var read := ReadAffinity(Lookup(config, "read-affinity"));
    effects := read.effects;
    if read.outcome.Raised? {
      return effects, read.outcome, map[];
    }
    var write := WriteAffinity(Lookup(config, "write-affinity"));
    effects := effects + write.effects;
    if write.outcome.Raised? {
      return effects, write.outcome, map[];
    }
    var count := WriteAffinityNodeCount(Lookup(config, "write-affinity-node-count"));
    effects := effects + count.effects;
    if count.outcome.Raised? {
      return effects, count.outcome, map[];
    }
    outcome := Done;
    var log;
    log, ctxt := AssembleContext(config, host, rels, formatIpv6, read.value, write.value, count.value);
    effects := effects + log;
  }
}
