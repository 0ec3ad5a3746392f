/** The charm's view of its environment: configuration and relation values as
    Python sees them, and the observable effects a hook or an action has on the
    world (leader settings, workload status, log lines, action results, and
    calls into ring and service helpers whose insides are not modelled). */
module HookEnv {
  import opened Wrappers

  /** A configuration or relation value: None, a string, a boolean or an integer. */
  datatype Value = Null | Str(text: string) | Flag(flag: bool) | Num(number: int)

  /** Python truthiness of a value. */
  predicate Truthy(v: Value) {
    match v
    case Null => false
    case Str(s) => s != ""
    case Flag(b) => b
    case Num(n) => n != 0
  }

  /** A value that a string option may hold: unset or a string. */
  predicate IsText(v: Value) {
    v.Null? || v.Str?
  }

  /** The value of a key in a Python dict, None when it is absent (`d.get(k)`). */
  function Lookup(m: map<string, Value>, key: string): Value {
    if key in m then m[key] else Null
  }

  datatype LogLevel = DefaultLevel | Warning

  datatype Output = Lines(lines: seq<string>) | Text(text: string)

  /** One observable call, in the order the code makes it. */
  datatype Effect =
    | LeaderSet(key: string, setting: Option<bool>)
    | StatusSet(state: string, message: string)
    | Log(message: string, level: LogLevel)
    | FetchRings(url: string)
    | BroadcastRings
    | ActionSet(output: Output)
    | ActionFail(message: string)
    | RemoveFromRing(builder: string, search: string)
    | SetWeightInRing(builder: string, search: string, weight: string)
    | BalanceRings
    | ServicePause(service: string)
    | ServiceResume(service: string)
    | SetUnitPaused
    | ClearUnitPaused
    | AssessStatus(services: seq<string>)

  /** How a handler ends: normally, or by raising an exception with a message. */
  datatype Outcome = Done | Raised(message: string)

  /** The effects a handler has, in order, and how it ends. */
  datatype Reaction = Reaction(effects: seq<Effect>, outcome: Outcome)

  /** How many times `e` occurs in `trace` (how often a mock was called with it). */
  function Count(trace: seq<Effect>, e: Effect): (n: nat)
    ensures n <= |trace|
    ensures n == 0 <==> e !in trace
  {
    if trace == [] then 0
    else (if trace[0] == e then 1 else 0) + Count(trace[1..], e)
  }

  lemma {:induction false} CountAppend(a: seq<Effect>, b: seq<Effect>, e: Effect)
    ensures Count(a + b, e) == Count(a, e) + Count(b, e)
    decreases |a|
  {
    if a != [] {
      assert (a + b)[0] == a[0];
      assert (a + b)[1..] == a[1..] + b;
      CountAppend(a[1..], b, e);
    } else {
      assert a + b == b;
    }
  }
}
