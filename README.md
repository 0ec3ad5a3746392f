# swift-proxy charm: peer hooks, context validation and operator actions

This project models the decision logic of the OpenStack swift-proxy Juju charm
in Dafny. It has three parts, and the outside world is explicit state plus a
trace of observable calls (`HookEnv.Effect`) in each.

- **Peer ring sync** (`peer_hooks.dfy`). This covers the stop-proxy-service
  acknowledgement barrier (`is_all_peers_stopped`). It covers the
  rings-distributor and rings-consumer role claims, which are kept in the
  leader settings and written only by the leader. It also covers the
  consumer's reaction to a distributor's rings announcement
  (`rings_consumer_changed`). The hooks' implementation is not part of this
  model. Their behaviour is taken from the assertions of
  `unit_tests/test_swift_hooks.py`, and each hook is a method of `ProxyUnit`,
  proved against a specification function.
- **Proxy configuration** (`affinity.dfy`, `swift_context.dfy`).
  - The three affinity validators are recognisers written by hand. Each is
    proved to accept exactly the texts of the option's grammar, plus one
    final newline, which Python's `$` also allows. The validators block and
    raise with the option's message.
  - `get_swift_hash` is a method over the hash file (`HashFile`). Its
    precedence is the file, then the configuration, then the derived UUID.
    It is proved never to regenerate a hash once one has been returned.
  - The identity-service context is built by `IdentityContext`. The
    relation merge is the charm's triple loop
    (`MergeRelationKeys`), proved equal to a fold and then to a reference
    "last unit that published a value wins" definition (`LastNonNull`).
  - The keystone password is read from `keystone-admin-user`, as the charm
    does.
- **Operator actions** (`actions.dfy`). This covers `remove-devices` and
  `set-weight` (the leader gate, ring-name validation and expansion, and
  exactly one rebalance), fail-fast `pause` and `resume`, the `diskusage`
  line rewrite into whole gibibytes, the dispersion commands, and `main`'s
  dispatch table with its conversion of exceptions into `action_fail`. Each
  action is a method of `ActionUnit` over the unit's trace, proved against
  a specification function (`RemoveDevicesReaction`, `PauseReaction`,
  `DiskusageReaction`, `Dispatch`, and so on).

`text.dfy` models the Python string operations the code relies on:

- `str.strip`, `str.split(' ')`, `' '.join`, `str.splitlines` and `in`;
- `int()` on a base-10 string, and `str()` of an integer.

`hookenv.dfy` holds the configuration values, the effects and the outcomes,
and `wrappers.dfy` holds `Option`.

## Model

| member | source | states |
|---|---|---|
| PeerHooks.AllPeersStoppedIff | unit_tests/test_swift_hooks.py:49-74 | the barrier is open exactly when every response carries `stop-proxy-service-ack` equal to the current token |
| PeerHooks.MissingAckBlocks | unit_tests/test_swift_hooks.py:49-74 | one response without the acknowledgement key keeps the barrier closed |
| PeerHooks.MixedTokensBlock | unit_tests/test_swift_hooks.py:49-74 | two responses acknowledging different tokens keep the barrier closed, whatever the current token |
| PeerHooks.StaleTokenBlocks | unit_tests/test_swift_hooks.py:49-74 | responses that all acknowledge an earlier token keep the barrier closed once the token has changed |
| PeerHooks.LeaderGatedSet | unit_tests/test_swift_hooks.py:308-318 | the leader makes exactly one `leader_set` of the key; a non-leader writes nothing and the store is unchanged |
| PeerHooks.DistributorJoined | unit_tests/test_swift_hooks.py:308-329 | raises iff a consumer record exists, and then only sets `blocked` with the "both roles" message and writes nothing; otherwise the leader writes the distributor record, and that one write is the whole effect; off the leader nothing is written; the roles stay exclusive |
| PeerHooks.ConsumerJoined | unit_tests/test_swift_hooks.py:351-384 | never raises; a distributor record gives one `blocked` "both roles" status, a consumer record one "already acting as rings consumer" status; otherwise the leader writes the consumer record, and that one write is the whole effect; off the leader nothing is written; the roles stay exclusive |
| PeerHooks.Departed | unit_tests/test_swift_hooks.py:338-346 | the leader writes None under the role's key (the role is then unclaimed); a non-leader writes nothing |
| PeerHooks.RolesStayExclusive | unit_tests/test_swift_hooks.py:308-384 | whatever the order of joins and departures and whoever is leader, the store never claims both roles |
| PeerHooks.NonLeaderLeavesStore | unit_tests/test_swift_hooks.py:308-361 | role hooks fired only on non-leaders leave the leader store unchanged |
| PeerHooks.ConsumerChanged | unit_tests/test_swift_hooks.py:390-491 | an absent or empty `rings_url` only logs "Peer not ready?" and does not raise, before any hash check; a hash mismatch sets `blocked` and raises with no fetch and no broadcast; otherwise the effects are exactly: the fetch of the URL, then a WARNING log naming the URL iff the fetch failed, then one broadcast |
| PeerHooks.ProxyUnit.constructor | unit_tests/test_swift_hooks.py:352-354 | a unit starts with the given leader settings and an empty trace |
| PeerHooks.ProxyUnit.WriteLeader | unit_tests/test_swift_hooks.py:313-314 | `leader_set` stores the value under the key and records the call |
| PeerHooks.ProxyUnit.RingsDistributorJoined | unit_tests/test_swift_hooks.py:308-329 | store, trace and outcome are those of `DistributorJoined` |
| PeerHooks.ProxyUnit.RingsDistributorChanged | unit_tests/test_swift_hooks.py:332-334 | broadcasts the rings once |
| PeerHooks.ProxyUnit.RingsDistributorDeparted | unit_tests/test_swift_hooks.py:338-346 | store and trace are those of `Departed` on the distributor key |
| PeerHooks.ProxyUnit.RingsConsumerJoined | unit_tests/test_swift_hooks.py:351-384 | store and trace are those of `ConsumerJoined` |
| PeerHooks.ProxyUnit.RingsConsumerDeparted | unit_tests/test_swift_hooks.py:495-499 | store and trace are those of `Departed` on the consumer key |
| PeerHooks.ProxyUnit.RingsConsumerChanged | unit_tests/test_swift_hooks.py:390-491 | trace and outcome are those of `ConsumerChanged` |
| Affinity.ParseTaggedSound | lib/swift_context.py:299 | a parsed `r`/`z`/`=` prefix is the tag, a maximal run of ASCII digits, and the rest |
| Affinity.ParseTermSound | lib/swift_context.py:299 | a parsed term is valid for its kind and is exactly the text it was read from |
| Affinity.ParseTermText | lib/swift_context.py:299 | a valid term's text, followed by the end or a comma, parses back to that term |
| Affinity.ParseLinksSound | lib/swift_context.py:299 | the parsed `,\s?term` links are valid and spell the parsed text exactly |
| Affinity.ParseLinksText | lib/swift_context.py:299 | valid links' text parses back to the same links |
| Affinity.ParseListSound | lib/swift_context.py:299 | a parsed affinity list is valid and spells the input exactly |
| Affinity.ParseListText | lib/swift_context.py:299 | every valid affinity list's text parses back to that list |
| Affinity.ParseListRecognises | lib/swift_context.py:299 | the parser succeeds exactly on the texts of the read-affinity pattern (or, for the write kind, `^r\d+(,\s?r\d+)*$`) |
| Affinity.ParseNodeCount | lib/swift_context.py:343 | a parsed node count is valid and spells the input exactly |
| Affinity.ParseNodeCountText | lib/swift_context.py:343 | every valid node count's text parses back to it |
| Affinity.ParseNodeCountRecognises | lib/swift_context.py:343 | the node-count parser succeeds exactly on the texts of `^\d+(\s\*\sreplicas)?$` |
| Affinity.MatchesAffinity | lib/swift_context.py:299-300 | `pattern.match` succeeds iff the text is in the language, or is in it after dropping one final newline |
| Affinity.MatchesNodeCount | lib/swift_context.py:343-344 | the same for the node-count pattern |
| SwiftContext.ReadAffinity | lib/swift_context.py:297-306 | raises iff the option is set and malformed, and then has exactly one `blocked` status with the message and returns nothing; otherwise no effect and the value unchanged, or None when unset or empty |
| SwiftContext.WriteAffinity | lib/swift_context.py:319-328 | the same over the write-affinity language and message |
| SwiftContext.WriteAffinityNodeCount | lib/swift_context.py:341-350 | the same over the node-count language and message |
| SwiftContext.HashNeverRegenerated | lib/swift_context.py:268-284 | after a hash is returned the file exists, and every later call returns that hash stripped and leaves the file alone, whatever the configuration, environment or derivation |
| SwiftContext.HashFile.constructor | lib/swift_context.py:269 | the hash file starts with the given contents (None: no file) |
| SwiftContext.HashFile.GetSwiftHash | lib/swift_context.py:268-284 | returns the stripped file contents if the file exists, else the configured hash, else the UUID derived from JUJU_ENV_UUID (or JUJU_MODEL_UUID) and the service name; the last two are written to the file |
| SwiftContext.MergeKeyIsLastNonNull | lib/swift_context.py:227-234 | merging one key over the units gives the last value a unit published; with none, the value it had or else its default; no units leave it alone; no other key changes |
| SwiftContext.MergeKeysOutside | lib/swift_context.py:227-242 | merging other keys leaves a key untouched |
| SwiftContext.MergeKeysAt | lib/swift_context.py:227-234 | with distinct keys, each key ends as if merged alone |
| SwiftContext.IdentityKeysDistinct | lib/swift_context.py:206-215 | the ten merged keys are distinct, none is `auth_type` and none is a v3 key |
| SwiftContext.IdentityKeysV3Distinct | lib/swift_context.py:216-219 | the four v3 keys are distinct, none is `auth_type` and none is one of the ten |
| SwiftContext.IdentityKeyMerged | lib/swift_context.py:221-234 | each of the ten keys is set exactly when some unit is related: to the last value published, or its default when there is none |
| SwiftContext.AuthTypeMerged | lib/swift_context.py:223-225 | the merged `auth_type` is 'keystone' exactly when there are relation ids, and absent otherwise |
| SwiftContext.ApiVersionMerged | lib/swift_context.py:236 | the merged api_version is '3' exactly when the last unit that published one published '3' |
| SwiftContext.V3KeyMerged | lib/swift_context.py:236-242 | a v3 key is set only under api_version '3' and only when some unit published it, to the last value; it has no default |
| SwiftContext.OnlyMergedKeys | lib/swift_context.py:221-242 | the merge sets no key besides `auth_type`, the ten and the four |
| SwiftContext.SettingsNotMerged | lib/swift_context.py:165-245 | the merge never overrides `log_level` or `ssl`; it sets `auth_type` iff relation ids exist; with no units it leaves `service_password` alone |
| SwiftContext.MergeRelationKeys | lib/swift_context.py:227-242 | the key-by-relation-by-unit loop computes the fold `MergeKeys` over all units in order |
| SwiftContext.MergeRelationData | lib/swift_context.py:221-242 | the `kvs` the context builds is `MergedKvs` |
| SwiftContext.ConfigKeysDistinct | lib/swift_context.py:142-151 | the ten keys copied from the configuration are distinct, and none is a host key or a key set later |
| SwiftContext.CopyConfig | lib/swift_context.py:142-151 | each of the ten keys holds the value of its configuration option; the host keys and the keys set later are unchanged |
| SwiftContext.LaterSettings | lib/swift_context.py:152-181 | the affinity results, `swauth_admin_key` before train when the leader has one, `log_level`, `ssl` and `auth_type` as configured |
| SwiftContext.ConfigContext | lib/swift_context.py:124-181 | `log_level` is DEBUG iff `debug` is set, else INFO; `ssl` is false; `auth_type` is the config value; the affinity results are copied; `swauth_admin_key` is present only before train when the leader has one |
| SwiftContext.KeystoneSettings | lib/swift_context.py:180-198 | the block is applied, and logged once, exactly when auth-type is keystone and host, user and "password" (read from keystone-admin-user) are truthy; it then sets all seven block keys (auth_type keystone, protocol, host, port, user, password taken from keystone-admin-user, tenant); every other key, and every key when the block does not apply, is unchanged |
| SwiftContext.OverlayRelationData | lib/swift_context.py:244-245 | merged keys override the context; every other key is kept |
| SwiftContext.PreferIpv6 | lib/swift_context.py:247-251 | truthy `keystone_host`/`service_host` are rewritten to their IPv6 form; nothing else changes |
| SwiftContext.FinishContext | lib/swift_context.py:244-251 | each key ends as its merged relation value if it has one, else its earlier value, and the two host keys then go through the IPv6 rewrite when prefer-ipv6 is set |
| SwiftContext.SettingsCarried | lib/swift_context.py:180-253 | `log_level`, `ssl`, `auth_type` and the password quirk survive the merge and the IPv6 rewrite |
| SwiftContext.AssembleContext | lib/swift_context.py:123-253 | the context after the validators: the log, `log_level`, `ssl`, `auth_type`, merged keys winning over configuration, the password quirk when no unit is related, IPv6 rewriting, and every keystone block key the relation data does not override (host keys through the IPv6 rewrite) |
| SwiftContext.IdentityContext | lib/swift_context.py:123-253 | the first validator that raises ends the call with its one `blocked` status; otherwise `auth_type` is keystone iff relation ids exist or the user block applies (else the config value); `log_level` and `ssl` as configured; the merged relation data overrides the configuration and the keystone block, whose other keys are all in the context, except that prefer-ipv6 rewrites the two host keys |
| Actions.RingsToUpdate | actions/actions.py:151-154 | every ring to update is valid and not 'all', and a name other than 'all' gives just itself |
| Actions.RingCalls | actions/actions.py:155-159 | one update call per ring, in order, on `SWIFT_CONF_DIR/<ring>.builder` |
| Actions.SweepCompletes | actions/actions.py:87-92 | when no call raises, all calls are made in order, then the closing calls |
| Actions.SweepFailsFast | actions/actions.py:87-90 | the first call that raises ends the run with its message; no later call and no closing call is made |
| Actions.SweepFinishesOnce | actions/actions.py:155-160 | a closing call happens once exactly when no call raises; otherwise not at all, after a prefix of the calls |
| Actions.SweepStopsShort | actions/actions.py:155-160 | when some call raises, the run raises after a non-empty prefix of the calls |
| Actions.RingActionRefused | actions/actions.py:140-150 | off the leader, or with a ring name outside account/container/object/all, the action only fails with its message and never mutates or balances a ring |
| Actions.RingActionBalancesOnce | actions/actions.py:151-160 | on the leader with a valid name, the action succeeds iff no update raises, and then every ring is updated in order followed by exactly one balance; otherwise balance is never called and the effects are a prefix of the updates |
| Actions.AllRingsExpanded | actions/actions.py:151-152 | 'all' stands for the account, container and object builders, in that order, whether or not an update raises |
| Actions.AllRingsInOrder | actions/actions.py:151-152 | 'all' updates the account, container and object builders in that order, then balances |
| Actions.ServiceCalls | actions/actions.py:87-90 | one pause (or resume) call per service, raising "<service> didn't stop cleanly." (or "start") exactly when that service fails |
| Actions.ServicesFailFast | actions/actions.py:87-90 | the first service that fails ends the action with its message; later services are not touched |
| Actions.ServicesComplete | actions/actions.py:87-92 | when every service succeeds, each is called once in order, then the closing calls |
| Actions.PauseMarksOnlyWhenAllStop | actions/actions.py:82-92 | pause succeeds iff every service stops, and `set_unit_paused` is called iff it succeeds |
| Actions.ResumeClearsOnlyWhenAllStart | actions/actions.py:95-106 | resume succeeds iff every managed service starts, and `clear_unit_paused` is called iff it succeeds |
| Actions.DiskLines | actions/actions.py:116-118 | a line is kept exactly when it is one of the output lines and contains 'Disk' |
| Actions.DiskLinesInOrder | actions/actions.py:116-118 | the kept lines stay in output order: a further line is appended after them exactly when it contains 'Disk' |
| Actions.FieldsOf | actions/actions.py:116-117 | one field list per line, in order, each the stripped line split on single spaces |
| Actions.ConvertAllSucceeds | actions/actions.py:119-123 | when every line converts, the report is the converted lines in order |
| Actions.ConvertAllFails | actions/actions.py:119-122 | the first line that fails to convert decides the exception message |
| Actions.JoinLines | actions/actions.py:123 | each output line is its fields joined with single spaces |
| Actions.LineWithoutSpaceKept | actions/actions.py:116-123 | a line with no 'space' field is reported as the line stripped |
| Actions.InGbMeaning | actions/actions.py:121-122 | a rewritten field is a number followed by 'GB', and that number is the byte count floored to whole gibibytes |
| Actions.SpaceLineConverted | actions/actions.py:120-122 | in a line with a 'space' field only fields 4 and 6 change, each to its value in GB |
| Actions.PauseFailureReported | actions/actions.py:236-244 | a service that does not stop makes `main` report "<service> didn't stop cleanly." with `action_fail` right after that service's call, without marking the unit paused |
| Actions.RingFailureReported | actions/actions.py:236-244 | a ring update that raises makes `main` append `action_fail` with its message, and balance is never called |
| Actions.ActionUnit.constructor | actions/actions.py:231 | a unit starts with an empty trace |
| Actions.ActionUnit.Perform | actions/actions.py:87-92 | the loop of calls with early raise has the trace and outcome of `Sweep` |
| Actions.ActionUnit.UpdateRings | actions/actions.py:140-160 | trace and outcome are those of `RingAction` |
| Actions.ActionUnit.RemoveDevices | actions/actions.py:132-160 | trace and outcome are those of `RemoveDevicesReaction` |
| Actions.ActionUnit.SetWeight | actions/actions.py:163-190 | trace and outcome are those of `SetWeightReaction`, with the weight passed as `str(weight)` |
| Actions.ActionUnit.Pause | actions/actions.py:82-92 | trace and outcome are those of `PauseReaction` |
| Actions.ActionUnit.Resume | actions/actions.py:95-106 | trace and outcome are those of `ResumeReaction` |
| Actions.ActionUnit.ConvertLine | actions/actions.py:120-122 | the in-place rewrite of fields 4 and 6 gives `ConvertFields` (IndexError or ValueError message on failure) |
| Actions.ActionUnit.Diskusage | actions/actions.py:109-129 | trace and outcome are those of `DiskusageReaction` |
| Actions.ActionUnit.Dispersion | actions/actions.py:193-216 | sets the command's output, and also fails the action when the command exits non-zero |
| Actions.ActionUnit.RunHandler | actions/actions.py:221-228 | each name in `ACTIONS` runs its own handler |
| Actions.ActionUnit.RunAction | actions/actions.py:231-244 | an unknown name returns "Action <name> undefined"; otherwise the handler runs, and its exception becomes `action_fail(str(e))` |
| Text.StripIdempotent | lib/swift_context.py:271 | stripping twice is stripping once |
| Text.JoinSplit | actions/actions.py:116-123 | `' '.join(s.split(' ')) == s` |
| Text.SplitLinesKeepsText | actions/actions.py:117 | `splitlines` loses only the line boundaries |
| Text.ParseIntText | actions/actions.py:121 | `int(str(n)) == n` |

## Left out

- The hook implementations (`hooks/swift_hooks.py` and `lib/swift_utils.py`) are not part of this model. The role hooks and `rings_consumer_changed` follow the unit-test assertions. Where the tests leave a case open, the model chooses one:
  - `is_all_peers_stopped` on no responses is true.
  - PeerHooks.AllPeersStopped: the token "" is not special, so the barrier opens when every peer acks "".
  - With both role records set, `rings_consumer_joined` reports the "both roles" message.
  - An absent remote `swift_hash` counts as a mismatch.
- PeerHooks.ConsumerChanged: the fetch is one effect with a success flag. The ring fetching, ring hashing and broadcast internals are abstract effects.
- The closing calls `balance_rings`, `set_unit_paused`, `clear_unit_paused`, `assess_status` and `action_set` never raise in the model. In the charm their exceptions would reach `action_fail` through `main`.
- `remove_from_ring`, `set_weight_in_ring` and `balance_rings` are abstract effects. Whether an update raises, and with what message, is an input.
- Actions.BuilderPath: `SWIFT_CONF_DIR` is fixed to `/etc/swift`. The constant is defined in `lib/swift_utils.py`, which is not part of this model.
- Actions.PyStr: `str()` is modelled for None, strings, booleans and integers only. A float `weight` parameter is not modelled.
- Actions.World: the `ring` parameter is a string. A missing `ring` parameter (None) cannot be expressed; the charm rejects it as an invalid ring name.
- Actions.ValueErrorMessage: Python quotes the offending text with `repr`. The model wraps it in single quotes without escaping.
- Text.ParseInt: Python's `int()` also accepts non-ASCII decimal digits and underscores between digits. The model accepts ASCII digits only.
- Affinity: `\d` is an ASCII digit. A Python str pattern's `\d` also matches non-ASCII decimal digits (for example `r١=1`): the charm accepts such a value, while the model raises. `\s` is the set of whitespace characters Python's `str.isspace` accepts, as given by `Text.IsSpace`.
- Process plumbing is not modelled:
  - the `swift-recon`, `swift-dispersion-populate` and `swift-dispersion-report` subprocess calls (their outputs and exit codes are inputs);
  - `get_action_parser`, `_get_action_name` and `_get_actions_yaml_path`;
  - argument parsing;
  - `sys.exit`.
- `resume` takes the result of `get_managed_services_and_ports` as an input list (`World.managed`).
- SwiftContext.HashFile.GetSwiftHash: `uuid.uuid3(uuid.UUID(...), ...)`, which derives a name-based UUID per section 4.3 of RFC 4122, is a function parameter. It returns None where `uuid.UUID` raises. The file is a single `Option<string>`.
- SwiftContext.HostFacts: these helper-library lookups are inputs:
  - the host and IPv6 addresses;
  - `determine_api_port`;
  - the OpenStack release comparison;
  - the leader's swauth key;
  - `IdentityServiceContext`'s signing directory.
- SwiftContext.HostFacts: `workers == 0 → multiprocessing.cpu_count()` is not modelled. The worker count is an input.
- SwiftContext.IdentityContext: the three validators (read-affinity, write-affinity, write-affinity-node-count) require the option to be unset or a string (`re.match` on another type raises TypeError). The context's other keys (proxy_ip, ports, statsd settings and so on) are not stated in its contract. `CopyConfig` states the ten configuration copies on their own.
- The other context classes (HAProxy, Apache SSL, S3, memcached, ring and hash contexts) are configuration passthrough and are not modelled. So are `actions/add_user.py` and template rendering.
- The leader and relation stores are maps. Concurrency between units, and hook ordering imposed by Juju, are not modelled.
