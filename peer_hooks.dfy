/** The peer ring-sync hooks of the swift-proxy charm, as the hook unit tests
    pin them down: the stop-proxy-service acknowledgement barrier, the
    rings-distributor / rings-consumer role claims kept in the leader store,
    and the consumer's reaction to a distributor's announcement.

    The leader store and the effect trace are the state; whether this unit is
    the leader, the remote relation data, the local swift hash and whether a
    ring fetch succeeds are inputs. */
module PeerHooks {
  import opened Wrappers
  import opened HookEnv

  const DistributorKey := "swift-proxy-rings-distributor"
  const ConsumerKey := "swift-proxy-rings-consumer"
  const AckKey := "stop-proxy-service-ack"
  const RingsUrlKey := "rings_url"
  const SwiftHashKey := "swift_hash"

  const BothRolesMessage := "Swift Proxy cannot act as both rings distributor and rings consumer"
  const AlreadyConsumerMessage := "Swift Proxy already acting as rings consumer"
  const HashMismatchMessage := "Swift hash has to be unique in multi-region setup"
  const PeerNotReadyMessage := "rings_consumer_relation_changed: Peer not ready?"

  function FetchFailedMessage(url: string): string {
    "Failed to sync rings from " + url + " - no longer available from that unit?"
  }

  // ---------------------------------------------------------------------------
  // The stop-proxy-service acknowledgement barrier

  /** The relation data one peer unit has published. */
  type Response = map<string, string>

  /** The peer acknowledged the stop request identified by `token`. */
  predicate Acked(r: Response, token: string) {
    AckKey in r && r[AckKey] == token
  }

  /** is_all_peers_stopped: every peer's latest response acknowledges the
      token this unit currently sees under the request key. */
  function AllPeersStopped(responses: seq<Response>, token: string): bool {
    if responses == [] then true
    else Acked(responses[0], token) && AllPeersStopped(responses[1..], token)
  }

  /** The barrier holds exactly when each response carries the current token. */
  lemma {:induction false} AllPeersStoppedIff(responses: seq<Response>, token: string)
    ensures AllPeersStopped(responses, token) <==>
            forall i | 0 <= i < |responses| :: Acked(responses[i], token)
    decreases |responses|
  {
    if responses != [] {
      AllPeersStoppedIff(responses[1..], token);
      assert forall i | 1 <= i < |responses| :: responses[i] == responses[1..][i - 1];
    }
  }

  /** One response without the acknowledgement key keeps the barrier closed. */
  lemma MissingAckBlocks(responses: seq<Response>, token: string, i: nat)
    requires i < |responses| && AckKey !in responses[i]
    ensures !AllPeersStopped(responses, token)
  {
    AllPeersStoppedIff(responses, token);
  }

  /** Two peers acknowledging different tokens keep the barrier closed, whatever the current token. */
  lemma MixedTokensBlock(responses: seq<Response>, token: string, i: nat, j: nat)
    requires i < |responses| && j < |responses|
    requires AckKey in responses[i] && AckKey in responses[j]
    requires responses[i][AckKey] != responses[j][AckKey]
    ensures !AllPeersStopped(responses, token)
  {
    AllPeersStoppedIff(responses, token);
  }

  /** Acknowledgements of an earlier stop request do not open the barrier once
      the current token has changed, even when every peer agrees on them. */
  lemma StaleTokenBlocks(responses: seq<Response>, old_token: string, token: string)
    requires responses != []
    requires forall i | 0 <= i < |responses| :: Acked(responses[i], old_token)
    requires token != old_token
    ensures !AllPeersStopped(responses, token)
  {
    AllPeersStoppedIff(responses, token);
    assert Acked(responses[0], old_token);
  }

  // ---------------------------------------------------------------------------
  // Role claims in the leader store

  /** The leader settings; a key set to None is stored as None. */
  type LeaderStore = map<string, Option<bool>>

  /** leader_get: the stored setting, None when the key was never set. */
  function LeaderGet(store: LeaderStore, key: string): Option<bool> {
    if key in store then store[key] else None
  }

  /** The setting is truthy: the role is currently claimed. */
  predicate Claimed(store: LeaderStore, key: string) {
    LeaderGet(store, key) == Some(true)
  }

  /** The cluster never records this proxy as both distributor and consumer. */
  predicate RolesExclusive(store: LeaderStore) {
    !(Claimed(store, DistributorKey) && Claimed(store, ConsumerKey))
  }

  /** The store after replaying the leader_set calls of a trace, in order. */
  function ApplyLeaderSets(store: LeaderStore, trace: seq<Effect>): LeaderStore
    decreases |trace|
  {
    if trace == [] then store
    else
      var next := if trace[0].LeaderSet? then store[trace[0].key := trace[0].setting] else store;
      ApplyLeaderSets(next, trace[1..])
  }

  predicate NoLeaderSets(trace: seq<Effect>) {
    forall i | 0 <= i < |trace| :: !trace[i].LeaderSet?
  }

  /** The new store, the effects (leader_set and status_set calls) and the outcome of one role hook. */
  datatype Step = Step(store: LeaderStore, effects: seq<Effect>, outcome: Outcome)

  /** leader_set({key: value}) if this unit is the leader; nothing otherwise. */
  function LeaderGatedSet(store: LeaderStore, key: string, value: Option<bool>, isLeader: bool): (s: Step)
    ensures s.outcome == Done && s.store == ApplyLeaderSets(store, s.effects)
    ensures isLeader ==> s.effects == [LeaderSet(key, value)]
    ensures !isLeader ==> s.effects == [] && s.store == store
  {
    if isLeader then Step(store[key := value], [LeaderSet(key, value)], Done)
    else Step(store, [], Done)
  }

  function Blocked(store: LeaderStore, message: string, outcome: Outcome): (s: Step)
    ensures s.store == store && s.effects == [StatusSet("blocked", message)]
    ensures s.store == ApplyLeaderSets(store, s.effects)
  {
    Step(store, [StatusSet("blocked", message)], outcome)
  }

  /** rings_distributor_joined: refuses, blocked and raising, when a consumer
      record exists; otherwise the leader records the distributor role. */
  function DistributorJoined(store: LeaderStore, isLeader: bool): (s: Step)
    ensures s.store == ApplyLeaderSets(store, s.effects)
    ensures s.outcome.Raised? <==> Claimed(store, ConsumerKey)
    ensures s.outcome.Raised? ==>
              s.outcome.message == BothRolesMessage && s.store == store &&
              s.effects == [StatusSet("blocked", BothRolesMessage)]
    ensures Count(s.effects, LeaderSet(DistributorKey, Some(true))) ==
              (if isLeader && !Claimed(store, ConsumerKey) then 1 else 0)
    ensures !isLeader ==> NoLeaderSets(s.effects)
    ensures isLeader && !Claimed(store, ConsumerKey) ==> s.effects == [LeaderSet(DistributorKey, Some(true))]
    ensures !isLeader && !Claimed(store, ConsumerKey) ==> s.effects == [] && s.store == store
    ensures s.outcome == Done ==> RolesExclusive(s.store)
    ensures RolesExclusive(store) ==> RolesExclusive(s.store)
  {
    if Claimed(store, ConsumerKey) then Blocked(store, BothRolesMessage, Raised(BothRolesMessage))
    else LeaderGatedSet(store, DistributorKey, Some(true), isLeader)
  }

  /** rings_consumer_joined: an existing distributor or consumer record only
      blocks the unit (it does not raise); otherwise the leader records the
      consumer role. */
  function ConsumerJoined(store: LeaderStore, isLeader: bool): (s: Step)
    ensures s.store == ApplyLeaderSets(store, s.effects)
    ensures s.outcome == Done
    ensures Claimed(store, DistributorKey) ==> s.effects == [StatusSet("blocked", BothRolesMessage)]
    ensures !Claimed(store, DistributorKey) && Claimed(store, ConsumerKey) ==>
              s.effects == [StatusSet("blocked", AlreadyConsumerMessage)]
    ensures Count(s.effects, LeaderSet(ConsumerKey, Some(true))) ==
              (if isLeader && !Claimed(store, DistributorKey) && !Claimed(store, ConsumerKey) then 1 else 0)
    ensures !isLeader ==> NoLeaderSets(s.effects)
    ensures isLeader && !Claimed(store, DistributorKey) && !Claimed(store, ConsumerKey) ==>
              s.effects == [LeaderSet(ConsumerKey, Some(true))]
    ensures !isLeader && !Claimed(store, DistributorKey) && !Claimed(store, ConsumerKey) ==>
              s.effects == [] && s.store == store
    ensures RolesExclusive(store) ==> RolesExclusive(s.store)
  {
    if Claimed(store, DistributorKey) then Blocked(store, BothRolesMessage, Done)
    else if Claimed(store, ConsumerKey) then Blocked(store, AlreadyConsumerMessage, Done)
    else LeaderGatedSet(store, ConsumerKey, Some(true), isLeader)
  }

  /** rings_distributor_departed / rings_consumer_departed: the leader clears
      the role's record by setting it to None. */
  function Departed(store: LeaderStore, key: string, isLeader: bool): (s: Step)
    ensures s.store == ApplyLeaderSets(store, s.effects) && s.outcome == Done
    ensures s.effects == (if isLeader then [LeaderSet(key, None)] else [])
    ensures !Claimed(s.store, key) || !isLeader
    ensures RolesExclusive(store) ==> RolesExclusive(s.store)
  {
    LeaderGatedSet(store, key, None, isLeader)
  }

  datatype RoleHook = DistributorJoinedHook | DistributorDepartedHook | ConsumerJoinedHook | ConsumerDepartedHook

  function RoleHookStep(hook: RoleHook, store: LeaderStore, isLeader: bool): Step {
    match hook
    case DistributorJoinedHook => DistributorJoined(store, isLeader)
    case DistributorDepartedHook => Departed(store, DistributorKey, isLeader)
    case ConsumerJoinedHook => ConsumerJoined(store, isLeader)
    case ConsumerDepartedHook => Departed(store, ConsumerKey, isLeader)
  }

  /** The leader store after a run of role hooks, each fired with whether this
      unit was the leader at the time. */
  function RunRoleHooks(store: LeaderStore, events: seq<(RoleHook, bool)>): LeaderStore
    decreases |events|
  {
    if events == [] then store
    else RunRoleHooks(RoleHookStep(events[0].0, store, events[0].1).store, events[1..])
  }

  /** Whatever the order of joins and departures, and whoever is leader, the
      store never marks the proxy as both distributor and consumer. */
  lemma {:induction false} RolesStayExclusive(store: LeaderStore, events: seq<(RoleHook, bool)>)
    requires RolesExclusive(store)
    ensures RolesExclusive(RunRoleHooks(store, events))
    decreases |events|
  {
    if events != [] {
      var next := RoleHookStep(events[0].0, store, events[0].1).store;
      assert RolesExclusive(next);
      RolesStayExclusive(next, events[1..]);
    }
  }

  /** Hooks fired on a unit that is not the leader never change the store. */
  lemma {:induction false} NonLeaderLeavesStore(store: LeaderStore, events: seq<(RoleHook, bool)>)
    requires forall i | 0 <= i < |events| :: !events[i].1
    ensures RunRoleHooks(store, events) == store
    decreases |events|
  {
    if events != [] {
      assert !events[0].1;
      assert RoleHookStep(events[0].0, store, false).store == store;
      NonLeaderLeavesStore(store, events[1..]);
    }
  }

  // ---------------------------------------------------------------------------
  // The consumer side of the ring announcement

  /** relation_get(key) on the distributor's data. */
  function RelationGet(data: map<string, string>, key: string): Option<string> {
    if key in data then Some(data[key]) else None
  }

  /** The distributor has published a non-empty rings URL. */
  predicate PeerReady(data: map<string, string>) {
    RelationGet(data, RingsUrlKey).Some? && RelationGet(data, RingsUrlKey).value != ""
  }

  /** The distributor's swift hash is the local one. */
  predicate HashAgrees(data: map<string, string>, localHash: string) {
    RelationGet(data, SwiftHashKey) == Some(localHash)
  }

  /** rings_consumer_changed: an unready peer is only logged; a hash mismatch
      blocks and raises before anything is fetched; otherwise the rings are
      fetched (a failed fetch is logged as a warning and tolerated) and their
      availability is broadcast. */
  function ConsumerChanged(data: map<string, string>, localHash: string, fetchOk: bool): (r: Reaction)
    ensures !PeerReady(data) <==> r.effects == [Log(PeerNotReadyMessage, DefaultLevel)]
    ensures !PeerReady(data) ==> r.outcome == Done
    ensures r.outcome.Raised? <==> PeerReady(data) && !HashAgrees(data, localHash)
    ensures r.outcome.Raised? ==>
              r.outcome.message == HashMismatchMessage &&
              r.effects == [StatusSet("blocked", HashMismatchMessage)]
    ensures forall i | 0 <= i < |r.effects| && r.effects[i].FetchRings? ::
              PeerReady(data) && HashAgrees(data, localHash) &&
              r.effects[i].url == data[RingsUrlKey]
    ensures Count(r.effects, BroadcastRings) == (if PeerReady(data) && HashAgrees(data, localHash) then 1 else 0)
    ensures PeerReady(data) && HashAgrees(data, localHash) ==>
              var url := data[RingsUrlKey];
              && r.effects[0] == FetchRings(url)
              && Count(r.effects, FetchRings(url)) == 1
              && r.effects[|r.effects| - 1] == BroadcastRings
              && (Log(FetchFailedMessage(url), Warning) in r.effects <==> !fetchOk)
              && r.effects == [FetchRings(url)] + (if fetchOk then [] else [Log(FetchFailedMessage(url), Warning)]) + [BroadcastRings]
              && r.outcome == Done
  {
    if !PeerReady(data) then Reaction([Log(PeerNotReadyMessage, DefaultLevel)], Done)
    else if !HashAgrees(data, localHash) then
      Reaction([StatusSet("blocked", HashMismatchMessage)], Raised(HashMismatchMessage))
    else
      var url := data[RingsUrlKey];
      var fetched := [FetchRings(url)] + (if fetchOk then [] else [Log(FetchFailedMessage(url), Warning)]);
      Reaction(fetched + [BroadcastRings], Done)
  }

  // ---------------------------------------------------------------------------
  // The hooks as handlers over the unit's state

  /** One proxy unit: the cluster's leader settings as this unit sees them,
      and every observable call its hooks have made so far. */
  class ProxyUnit {
    var leaderStore: LeaderStore
    var trace: seq<Effect>

    constructor (store: LeaderStore)
      ensures leaderStore == store && trace == []
    {
      leaderStore := store;
      trace := [];
    }

    method WriteLeader(key: string, value: Option<bool>)
      modifies this
      ensures leaderStore == old(leaderStore)[key := value]
      ensures trace == old(trace) + [LeaderSet(key, value)]
    {
      leaderStore := leaderStore[key := value];
      trace := trace + [LeaderSet(key, value)];
    }

    method Emit(e: Effect)
      modifies this`trace
      ensures trace == old(trace) + [e]
    {
      trace := trace + [e];
    }

    method RingsDistributorJoined(isLeader: bool) returns (outcome: Outcome)
      modifies this
      ensures var s := DistributorJoined(old(leaderStore), isLeader);
              leaderStore == s.store && trace == old(trace) + s.effects && outcome == s.outcome
    {
      if LeaderGet(leaderStore, ConsumerKey) == Some(true) {
        Emit(StatusSet("blocked", BothRolesMessage));
        return Raised(BothRolesMessage);
      }
      if isLeader {
        WriteLeader(DistributorKey, Some(true));
      }
      outcome := Done;
    }

    method RingsDistributorChanged()
      modifies this`trace
      ensures trace == old(trace) + [BroadcastRings]
    {
      Emit(BroadcastRings);
    }

    method RingsDistributorDeparted(isLeader: bool)
      modifies this
      ensures var s := Departed(old(leaderStore), DistributorKey, isLeader);
              leaderStore == s.store && trace == old(trace) + s.effects
    {
      if isLeader {
        WriteLeader(DistributorKey, None);
      }
    }

    method RingsConsumerJoined(isLeader: bool)
      modifies this
      ensures var s := ConsumerJoined(old(leaderStore), isLeader);
              leaderStore == s.store && trace == old(trace) + s.effects
    {
      if LeaderGet(leaderStore, DistributorKey) == Some(true) {
        Emit(StatusSet("blocked", BothRolesMessage));
        return;
      } else if LeaderGet(leaderStore, ConsumerKey) == Some(true) {
        Emit(StatusSet("blocked", AlreadyConsumerMessage));
        return;
      }
      if isLeader {
        WriteLeader(ConsumerKey, Some(true));
      }
    }

    method RingsConsumerDeparted(isLeader: bool)
      modifies this
      ensures var s := Departed(old(leaderStore), ConsumerKey, isLeader);
              leaderStore == s.store && trace == old(trace) + s.effects
    {
      if isLeader {
        WriteLeader(ConsumerKey, None);
      }
    }

    method RingsConsumerChanged(data: map<string, string>, localHash: string, fetchOk: bool)
      returns (outcome: Outcome)
      modifies this`trace
      ensures var r := ConsumerChanged(data, localHash, fetchOk);
              trace == old(trace) + r.effects && outcome == r.outcome
    {
      var url := RelationGet(data, RingsUrlKey);
      if url.None? || url.value == "" {
        Emit(Log(PeerNotReadyMessage, DefaultLevel));
        return Done;
      }
      if RelationGet(data, SwiftHashKey) != Some(localHash) {
        Emit(StatusSet("blocked", HashMismatchMessage));
        return Raised(HashMismatchMessage);
      }
      Emit(FetchRings(url.value));
      if !fetchOk {
        Emit(Log(FetchFailedMessage(url.value), Warning));
      }
      Emit(BroadcastRings);
      outcome := Done;
    }
  }
}
