/** The reinforcement-learning problem's episode protocol
    (`ReinforcementLearning` in reinforcementLearning.cpp): a sample is
    driven through one episode by resuming the user's environment, which
    runs as a coroutine that suspends at each decision point. The solver
    records one experience per decision, asks the engine for a new policy on
    a fixed schedule, and sends the episode in one message at the end. */
module RlProblem {
  import opened Wrappers
  import opened Json
  import RlConfig

  /** The fields of a sample ("State", "Action", "Reward", ...). */
  type Fields = map<string, Json>

  const NonTerminal := JStr("Non Terminal")
  const Terminal := JStr("Terminal")
  const Truncated := JStr("Truncated")

  /** `sample[key]`: a key the sample does not hold reads as null. */
  function Get(f: Fields, key: string): Json
  {
    if key in f then f[key] else JNull
  }

  /** A sample whose fields the solver and the environment update in place. */
  class Sample {
    var fields: Fields

    constructor(fields: Fields)
      ensures this.fields == fields
    {
      this.fields := fields;
    }
  }

  /** The environment function as the coroutine sees it: it suspends
      `suspensions` times and returns at the resume after that; resume `k`
      writes `step(k, fields)` into the sample it was given. */
  datatype Environment = Environment(suspensions: nat, step: (nat, Fields) -> Fields)

  /** The sample's fields after resume `r` of the environment wrapper: the
      first resume stamps "Launch Id" with the current counter, then the
      environment runs up to its next suspension (or its end). */
  function Resumed(f: Fields, r: nat, launchId: nat, env: Environment): Fields
  {
    var h := if r == 0 then f["Launch Id" := JNum(launchId as real)] else f;
    h + env.step(r, h)
  }

  /** The final termination status the wrapper accepts on a leader. */
  function TerminationCheck(f: Fields): (o: Outcome)
    ensures o.Pass? <==> Get(f, "Termination") in {Terminal, Truncated}
  {
    if Get(f, "Termination") == NonTerminal then
      Fail("Environment function terminated, but agent termination status (success or truncated) was not set")
    else if Get(f, "Termination") in {Terminal, Truncated} then Pass
    else Fail("Environment function terminated, but agent termination status is neither 'Terminal' nor 'Truncated'")
  }

  /** Whether the sample holds the state rescaling vectors as numbers. */
  predicate Rescalable(f: Fields)
  {
    var rescaling := Get(f, "State Rescaling");
    && Lookup(rescaling, ["Means"]).Some? && ToNumbers(Lookup(rescaling, ["Means"]).value).Some?
    && Lookup(rescaling, ["Standard Deviations"]).Some?
    && ToNumbers(Lookup(rescaling, ["Standard Deviations"]).value).Some?
  }

  /** The sample after `initializeEnvironment`: the custom settings copied
      in and the reward zeroed for every agent (a scalar for one agent). */
  function Initialized(f: Fields, custom: Json, agents: nat): Fields
  {
    f["Custom Settings" := custom]
      + (if agents == 1 then map["Reward" := JNum(0.0)]
         else if agents > 1 then map["Reward" := Numbers(seq(agents, i => 0.0))]
         else map[])
  }

  // ---------------------------------------------------------------------
  // What a leader checks and rewrites after each resume (`runEnvironment`).

  predicate IsFloatVector(v: Json)
  {
    v.JArr? && forall d :: 0 <= d < |v.items| ==> RlConfig.IsFloat(v.items[d])
  }

  /** With one agent, a flat state vector is wrapped into a one-agent array. */
  function WrapState(f: Fields, agents: nat): (r: Result<Json>)
    ensures agents != 1 ==> r == Ok(Get(f, "State"))
    ensures agents == 1 ==> (r.Ok? <==> IsFloatVector(Get(f, "State")))
    ensures agents == 1 && r.Ok? ==> r.value == JArr([Get(f, "State")])
  {
    if agents != 1 then Ok(Get(f, "State"))
    else if IsFloatVector(Get(f, "State")) then Ok(JArr([Get(f, "State")]))
    else Err("Agent state variable returned by the environment is not a vector")
  }

  /** A vector of `size` finite numbers. */
  predicate FiniteVector(v: Json, size: nat)
  {
    v.JArr? && |v.items| == size && forall d :: 0 <= d < size ==> v.items[d].JNum?
  }

  predicate StateShaped(state: Json, agents: nat, size: nat)
  {
    state.JArr? && |state.items| == agents && forall i :: 0 <= i < agents ==> FiniteVector(state.items[i], size)
  }

  /** The state's numbers, one row per agent, when it has the expected shape. */
  function StateRows(state: Json, agents: nat, size: nat): (r: Result<seq<seq<real>>>)
    ensures r.Ok? <==> StateShaped(state, agents, size)
    ensures r.Ok? ==> (&& |r.value| == agents
                       && forall i, d :: 0 <= i < agents && 0 <= d < size ==>
                            |r.value[i]| == size && state.items[i].items[d] == JNum(r.value[i][d]))
  {
    if !state.JArr? || |state.items| != agents then Err("Agents state vector returned with the wrong size")
    else if exists i :: 0 <= i < agents && !FiniteVector(state.items[i], size) then
      Err("Agent state vector returned with the wrong size or an invalid value")
    else Ok(seq(agents, i requires 0 <= i < agents => seq(size, d requires 0 <= d < size => state.items[i].items[d].x)))
  }

  /** `(x - mean) / sdev` as the single-precision division yields it: a zero
      deviation gives a non-finite value. */
  function Scale(x: real, mean: real, sdev: real): (r: Json)
    ensures sdev != 0.0 ==> r.JNum? && r.x * sdev + mean == x
    ensures sdev == 0.0 ==> r.JNonFinite?
  {
    if sdev == 0.0 then JNonFinite else JNum((x - mean) / sdev)
  }

  /** The rescaled state, one array per agent. */
  function NormalizedState(rows: seq<seq<real>>, means: seq<real>, sdevs: seq<real>): (r: Json)
    requires forall i :: 0 <= i < |rows| ==> |rows[i]| <= |means| && |rows[i]| <= |sdevs|
    ensures r.JArr? && |r.items| == |rows|
    ensures forall i :: 0 <= i < |rows| ==> r.items[i].JArr? && |r.items[i].items| == |rows[i]|
    ensures forall i, d :: 0 <= i < |rows| && 0 <= d < |rows[i]| ==> r.items[i].items[d] == Scale(rows[i][d], means[d], sdevs[d])
  {
    JArr(seq(|rows|, i requires 0 <= i < |rows| =>
      JArr(seq(|rows[i]|, d requires 0 <= d < |rows[i]| => Scale(rows[i][d], means[d], sdevs[d])))))
  }

  /** With one agent, a scalar reward is wrapped into a one-agent array. */
  function WrapReward(f: Fields, agents: nat): (r: Result<Json>)
    ensures agents != 1 ==> r == Ok(Get(f, "Reward"))
    ensures agents == 1 ==> (r.Ok? <==> RlConfig.IsFloat(Get(f, "Reward")))
    ensures agents == 1 && r.Ok? ==> r.value == JArr([Get(f, "Reward")])
  {
    if agents != 1 then Ok(Get(f, "Reward"))
    else if RlConfig.IsFloat(Get(f, "Reward")) then Ok(JArr([Get(f, "Reward")]))
    else Err("Agent reward is not a number")
  }

  /** One finite reward per agent. */
  function RewardValues(reward: Json, agents: nat): (r: Result<seq<real>>)
    ensures r.Ok? <==> FiniteVector(reward, agents)
    ensures r.Ok? ==> |r.value| == agents && forall i :: 0 <= i < agents ==> reward.items[i] == JNum(r.value[i])
  {
    if FiniteVector(reward, agents) then Ok(seq(agents, i requires 0 <= i < agents => reward.items[i].x))
    else Err("Agents reward vector returned with the wrong size or an invalid value")
  }

  /** The leader's view of a sample after a resume: the state wrapped,
      checked and rescaled, the reward wrapped and checked. */
  function Observe(f: Fields, agents: nat, size: nat, means: seq<real>, sdevs: seq<real>): Result<Fields>
  {
    var state :- WrapState(f, agents);
    var rows :- StateRows(state, agents, size);
    if |means| < size || |sdevs| < size then Err("State rescaling vectors are shorter than the state")
    else
      var reward :- WrapReward(f, agents);
      var _ :- RewardValues(reward, agents);
      Ok(f["State" := NormalizedState(rows, means, sdevs)]["Reward" := reward])
  }

  /** The state as the environment left it, after single-agent wrapping. */
  function RawState(f: Fields, agents: nat): Json
  {
    if agents == 1 then JArr([Get(f, "State")]) else Get(f, "State")
  }

  function RawReward(f: Fields, agents: nat): Json
  {
    if agents == 1 then JArr([Get(f, "Reward")]) else Get(f, "Reward")
  }

  /** What the environment must leave in the sample for the leader to go on. */
  predicate Observable(f: Fields, agents: nat, size: nat, means: seq<real>, sdevs: seq<real>)
  {
    && (agents == 1 ==> IsFloatVector(Get(f, "State")) && RlConfig.IsFloat(Get(f, "Reward")))
    && StateShaped(RawState(f, agents), agents, size)
    && |means| >= size && |sdevs| >= size
    && FiniteVector(RawReward(f, agents), agents)
  }

  /** The leader goes on exactly when the observation is well formed; then
      each state component is rescaled by its mean and deviation, the reward
      is one finite number per agent, and no other field changes. */
  lemma ObserveSpec(f: Fields, agents: nat, size: nat, means: seq<real>, sdevs: seq<real>)
    ensures Observe(f, agents, size, means, sdevs).Ok? <==> Observable(f, agents, size, means, sdevs)
    ensures Observe(f, agents, size, means, sdevs).Ok? ==>
              var g := Observe(f, agents, size, means, sdevs).value;
              && StateShaped(RawState(f, agents), agents, size)
              && Get(g, "State").JArr? && |Get(g, "State").items| == agents
              && (forall i, d :: 0 <= i < agents && 0 <= d < size ==>
                    Get(g, "State").items[i].JArr? && |Get(g, "State").items[i].items| == size
                    && Get(g, "State").items[i].items[d]
                       == Scale(RawState(f, agents).items[i].items[d].x, means[d], sdevs[d]))
              && RewardValues(Get(g, "Reward"), agents).Ok?
              && Get(g, "Reward") == RawReward(f, agents)
              && (forall k :: k != "State" && k != "Reward" ==> Get(g, k) == Get(f, k))
  {
    var state := WrapState(f, agents);
    if state.Ok? {
      assert state.value == RawState(f, agents);
      var rows := StateRows(state.value, agents, size);
      if rows.Ok? && |means| >= size && |sdevs| >= size {
        var reward := WrapReward(f, agents);
        if reward.Ok? {
          assert reward.value == RawReward(f, agents);
        }
      }
    }
  }

  // ---------------------------------------------------------------------
  // Episodes and the messages that carry them.

  /** One decision: every agent's state, action and policy before the
      resume, reward and termination after it, and the state reached when
      the episode was truncated there. */
  datatype Experience = Experience(
    states: seq<Json>,
    actions: seq<Json>,
    policies: seq<Json>,
    rewards: seq<real>,
    termination: Json,
    truncatedStates: Option<seq<Json>>)

  datatype Episode = Episode(environmentId: nat, experiences: seq<Experience>)

  /** `js[i]` on an array or on null: the item, or null past the end. */
  function Item(js: Json, i: nat): Json
  {
    if js.JArr? && i < |js.items| then js.items[i] else JNull
  }

  /** Every agent's item of an array-valued field; indexing a value that is
      neither an array nor null throws. */
  function Column(js: Json, agents: nat): (r: Result<seq<Json>>)
    ensures r.Ok? <==> agents == 0 || js.JArr? || js.JNull?
    ensures r.Ok? ==> |r.value| == agents && forall i :: 0 <= i < agents ==> r.value[i] == Item(js, i)
  {
    if agents == 0 || js.JArr? || js.JNull? then Ok(seq(agents, i requires 0 <= i < agents => Item(js, i)))
    else Err("cannot use operator[] with a numeric argument")
  }

  /** `agent["Action"][0].get<std::vector<float>>()`. */
  function UnwrapAction(action: Json): (r: Result<Json>)
    ensures r.Ok? <==> action.JArr? && |action.items| > 0 && IsFloatVector(action.items[0])
    ensures r.Ok? ==> r.value == action.items[0]
  {
    if action.JArr? && |action.items| > 0 && IsFloatVector(action.items[0]) then Ok(action.items[0])
    else Err("type must be array")
  }

  function Nth(xs: seq<Json>, i: nat): Json
  {
    if i < |xs| then xs[i] else JNull
  }

  function ExperienceJson(x: Experience, i: nat): Json
  {
    var base := map["State" := Nth(x.states, i), "Action" := Nth(x.actions, i), "Policy" := Nth(x.policies, i),
                     "Reward" := (if i < |x.rewards| then JNum(x.rewards[i]) else JNull), "Termination" := x.termination];
    match x.truncatedStates
    case Some(s) => JObj(base["Truncated State" := Nth(s, i)])
    case None => JObj(base)
  }

  /** Agent `i`'s part of the episode: its environment and its experiences
      (the source creates "Experiences" only once one is recorded). */
  function AgentEpisode(episode: Episode, i: nat): Json
  {
    var xs := episode.experiences;
    var env := map["Environment Id" := JNum(episode.environmentId as real)];
    if xs == [] then JObj(env)
    else JObj(env["Experiences" := JArr(seq(|xs|, k requires 0 <= k < |xs| => ExperienceJson(xs[k], i)))])
  }

  function EpisodesJson(episode: Episode, agents: nat): Json
  {
    if agents == 0 then JNull else JArr(seq(agents, i requires 0 <= i < agents => AgentEpisode(episode, i)))
  }

  function SendEpisodes(sampleId: Json, episodes: Json): Json
  {
    JObj(map["Action" := JStr("Send Episodes"), "Sample Id" := sampleId, "Episodes" := episodes])
  }

  function PolicyRequest(sampleId: Json): Json
  {
    JObj(map["Sample Id" := sampleId, "Action" := JStr("Request New Policy")])
  }

  predicate IsPolicyRequest(m: Json)
  {
    m.JObj? && m.fields.Keys == {"Sample Id", "Action"} && m.fields["Action"] == JStr("Request New Policy")
  }

  /** The number of policy requests in an episode of `n` decisions: one
      after every `period`-th decision that did not end the episode. */
  function PolicyRequests(n: nat, period: nat): nat
  {
    if period == 0 || n == 0 then 0 else (n - 1) / period
  }

  /** The policy requests a training episode makes along the samples
      `post` its decisions left: one after the k-th decision (counting from
      1) when k is a multiple of the period and the episode goes on, each
      carrying that sample's "Sample Id". */
  function Requests(post: seq<Fields>, period: nat): seq<Json>
  {
    if post == [] then []
    else
      var p := post[|post| - 1];
      Requests(post[..|post| - 1], period)
        + (if period > 0 && |post| % period == 0 && Get(p, "Termination") == NonTerminal
           then [PolicyRequest(Get(p, "Sample Id"))] else [])
  }

  /** The sample the next decision of a testing episode starts from. */
  function TestNext(first: Fields, post: seq<Fields>): Fields
  {
    if post == [] then first else post[|post| - 1]
  }

  /** The requests made so far, `n` decisions in, while the episode goes on. */
  function RequestsSoFar(n: nat, period: nat, ongoing: bool): nat
  {
    if ongoing then (if period == 0 then 0 else n / period) else PolicyRequests(n, period)
  }

  lemma DivUnique(x: int, m: int, q: int, r: int)
    requires m > 0 && x == q * m + r && 0 <= r < m
    ensures x / m == q && x % m == r
  {
    var q', r' := x / m, x % m;
    assert x == q' * m + r' && 0 <= r' < m;
    var d := q' - q;
    assert d * m == r - r' by {
      assert q' * m - q * m == (q' - q) * m;
    }
  }

  lemma DivStep(n: nat, m: nat)
    requires m > 0
    ensures (n + 1) / m == n / m + (if (n + 1) % m == 0 then 1 else 0)
  {
    var q, r := n / m, n % m;
    assert n == q * m + r && 0 <= r < m;
    if r + 1 == m {
      DivUnique(n + 1, m, q + 1, 0);
    } else {
      DivUnique(n + 1, m, q, r + 1);
    }
  }

  // ---------------------------------------------------------------------
  // Rewards.

  function Sum(xs: seq<real>): real
  {
    if xs == [] then 0.0 else Sum(xs[..|xs| - 1]) + xs[|xs| - 1]
  }

  /** Agent `i`'s reward summed over the decisions. */
  function ColumnSum(rows: seq<seq<real>>, i: nat): real
  {
    if rows == [] then 0.0
    else ColumnSum(rows[..|rows| - 1], i) + (if i < |rows[|rows| - 1]| then rows[|rows| - 1][i] else 0.0)
  }

  function ColumnTotals(rows: seq<seq<real>>, agents: nat): (r: seq<real>)
    ensures |r| == agents && forall i :: 0 <= i < agents ==> r[i] == ColumnSum(rows, i)
  {
    seq(agents, i requires 0 <= i < agents => ColumnSum(rows, i))
  }

  function RewardRows(xs: seq<Experience>): (r: seq<seq<real>>)
    ensures |r| == |xs| && forall k :: 0 <= k < |xs| ==> r[k] == xs[k].rewards
  {
    seq(|xs|, k requires 0 <= k < |xs| => xs[k].rewards)
  }

  /** The testing reward: the episode's total over all agents, per agent
      (a division by zero agents is not a number). */
  function TestingReward(rows: seq<seq<real>>, agents: nat): Json
  {
    if agents == 0 then JNonFinite else JNum(Sum(ColumnTotals(rows, agents)) / agents as real)
  }

  lemma {:induction false} SumOfSums(a: seq<real>, b: seq<real>)
    requires |a| == |b|
    ensures Sum(seq(|a|, i requires 0 <= i < |a| => a[i] + b[i])) == Sum(a) + Sum(b)
  {
    if a != [] {
      var n := |a| - 1;
      SumOfSums(a[..n], b[..n]);
      assert seq(|a|, i requires 0 <= i < |a| => a[i] + b[i])[..n] == seq(n, i requires 0 <= i < n => a[..n][i] + b[..n][i]);
    }
  }

  /** Summing each agent's total equals summing each decision's rewards:
      the testing reward does not depend on the order of the two sums. */
  lemma {:induction false} TotalByDecision(rows: seq<seq<real>>, agents: nat)
    requires forall k :: 0 <= k < |rows| ==> |rows[k]| == agents
    ensures Sum(ColumnTotals(rows, agents)) == Sum(seq(|rows|, k requires 0 <= k < |rows| => Sum(rows[k])))
  {
    var perDecision := seq(|rows|, k requires 0 <= k < |rows| => Sum(rows[k]));
    if rows == [] {
      assert ColumnTotals(rows, agents) == seq(agents, i => 0.0);
      ZeroSum(agents);
    } else {
      var n := |rows| - 1;
      TotalByDecision(rows[..n], agents);
      var before := ColumnTotals(rows[..n], agents);
      assert ColumnTotals(rows, agents) == seq(agents, i requires 0 <= i < agents => before[i] + rows[n][i]);
      SumOfSums(before, rows[n]);
      assert perDecision[..n] == seq(n, k requires 0 <= k < n => Sum(rows[..n][k]));
    }
  }

  lemma {:induction false} ZeroSum(n: nat)
    ensures Sum(seq(n, i => 0.0)) == 0.0
  {
    if n > 0 {
      ZeroSum(n - 1);
      assert seq(n, i => 0.0)[..n - 1] == seq(n - 1, i => 0.0);
    }
  }

  // ---------------------------------------------------------------------
  // Variable indexes (`initialize`).

  /** The positions of the variables of one kind, in order. */
  function IndexesOf(vs: seq<RlConfig.Variable>, kind: RlConfig.VariableKind): seq<nat>
  {
    if vs == [] then []
    else IndexesOf(vs[..|vs| - 1], kind) + (if vs[|vs| - 1].kind == kind then [|vs| - 1] else [])
  }

  /** The list holds exactly the positions of that kind, strictly increasing. */
  lemma {:induction false} IndexesOfSpec(vs: seq<RlConfig.Variable>, kind: RlConfig.VariableKind)
    ensures forall i :: i in IndexesOf(vs, kind) <==> 0 <= i < |vs| && vs[i].kind == kind
    ensures forall a, b :: 0 <= a < b < |IndexesOf(vs, kind)| ==> IndexesOf(vs, kind)[a] < IndexesOf(vs, kind)[b]
  {
    if vs != [] {
      var n := |vs| - 1;
      IndexesOfSpec(vs[..n], kind);
      assert forall i :: 0 <= i < n ==> vs[..n][i] == vs[i];
      var prev := IndexesOf(vs[..n], kind);
      assert forall a :: 0 <= a < |prev| ==> prev[a] < n by {
        forall a | 0 <= a < |prev| ensures prev[a] < n {
          assert prev[a] in prev;
        }
      }
    }
  }

  // ---------------------------------------------------------------------

  /** The problem's state across episodes. The engine's collaborators are
      parameters: `policy` is the agent's `getAction` (it writes "Action",
      "Policy" and whatever else into the sample), `replies` the engine's
      answers to policy requests in order, `baseOperations` the operations
      the base problem handles, `isLeader` whether this worker is its
      group's lead rank. */
  class ReinforcementLearning {
    const settings: RlConfig.Settings
    const isLeader: bool
    const policy: Fields -> Fields
    const replies: nat -> Json
    const baseOperations: set<string>

    var stateIndexes: seq<nat>
    var actionIndexes: seq<nat>
    var stateVectorSize: nat
    var actionVectorSize: nat
    /** The launch counter shared by all episodes of this process. */
    var launchId: nat
    var means: seq<real>
    var sdevs: seq<real>
    /** The current episode's environment coroutine and how often it has
        been switched into. */
    var env: Environment
    var resumes: nat
    /** The messages sent to the engine, and how many replies were read. */
    var outbox: seq<Json>
    var received: nat

    function Agents(): nat
    {
      settings.agentsPerEnvironment
    }

    /** The sample as an episode hands it to the environment: initialised,
        with the mode set, the status "Non Terminal" and, for training,
        "Environment Id" 0. */
    function Opened(f: Fields, training: bool): Fields
    {
      var g := Initialized(f, settings.customSettings, Agents());
      if training then g["Mode" := JStr("Training")]["Termination" := NonTerminal]["Environment Id" := JNum(0.0)]
      else g["Mode" := JStr("Testing")]["Termination" := NonTerminal]
    }

    /** What `runEnvironment` makes of the sample `g` that resume `r` left:
        a non-leader takes it as it is; a leader insists on a final status
        after the last resume, then checks and rescales it. */
    function Observed(g: Fields, r: nat): Result<Fields>
      reads this`env, this`means, this`sdevs, this`stateVectorSize
    {
      if !isLeader then Ok(g)
      else if r == env.suspensions && TerminationCheck(g).Fail? then Err(TerminationCheck(g).msg)
      else Observe(g, Agents(), stateVectorSize, means, sdevs)
    }

    /** The sample after the first resume of an episode opened from `f`. */
    function FirstObservation(f: Fields, training: bool, launch: nat): Result<Fields>
      reads this`env, this`means, this`sdevs, this`stateVectorSize
    {
      Observed(Resumed(Opened(f, training), 0, launch, env), 0)
    }

    /** The sample handed to the environment once the policy has acted: a
        single agent's action becomes its first entry. */
    function Handed(acted: Fields): Result<Fields>
    {
      if Agents() != 1 then Ok(acted)
      else
        var a :- UnwrapAction(Get(acted, "Action"));
        Ok(acted["Action" := a])
    }

    /** The sample after one decision from `f` that switches into the
        environment for the `r`-th time (r >= 1): the policy acts, the action
        is handed over, and the environment's answer is observed. */
    function Step(f: Fields, r: nat): Result<Fields>
      reads this`env, this`means, this`sdevs, this`stateVectorSize, this`launchId
    {
      var handed :- Handed(f + policy(f));
      if r > env.suspensions then Err("Resuming a finished agent")
      else Observed(Resumed(handed, r, launchId, env), r)
    }

    /** Whether the acting sample has a state, an action and a policy entry
        that can be indexed for every agent. */
    predicate Recordable(f: Fields)
    {
      var acted := f + policy(f);
      && Column(Get(acted, "State"), Agents()).Ok?
      && Column(Get(acted, "Action"), Agents()).Ok?
      && Column(Get(acted, "Policy"), Agents()).Ok?
    }

    /** `x` is the experience the training loop records for the decision
        taken from `before` that left `after`: state, action and policy of
        the acting sample, reward and termination of the answer, and the
        state reached when the episode was truncated there. */
    predicate Records(before: Fields, after: Fields, x: Experience)
    {
      var acted := before + policy(before);
      && Column(Get(acted, "State"), Agents()) == Ok(x.states)
      && Column(Get(acted, "Action"), Agents()) == Ok(x.actions)
      && Column(Get(acted, "Policy"), Agents()) == Ok(x.policies)
      && RewardValues(Get(after, "Reward"), Agents()) == Ok(x.rewards)
      && x.termination == Get(after, "Termination")
      && (x.truncatedStates.Some? <==> x.termination == Truncated)
      && (x.truncatedStates.Some? ==> Column(Get(after, "State"), Agents()) == Ok(x.truncatedStates.value))
    }

    /** The sample after decision `k + 1` of a training episode: a new
        policy (the engine's next reply) when the decision count is a
        multiple of the period; `received0` replies were read before. */
    function Refreshed(f: Fields, k: nat, received0: nat): Fields
    {
      var period := settings.actionsBetweenPolicyUpdates;
      if period > 0 && (k + 1) % period == 0 then f["Policy Hyperparameters" := replies(received0 + k / period)] else f
    }

    /** The decisions of a training episode whose first decision starts
        from `first` at resume `r0`: decision k goes from `pre[k]` to
        `post[k]` and records `xs[k]`, and between two decisions only a
        scheduled policy request changes the sample. */
    ghost predicate Trajectory(first: Fields, r0: nat, received0: nat, pre: seq<Fields>, post: seq<Fields>,
                               xs: seq<Experience>)
      reads this`env, this`means, this`sdevs, this`stateVectorSize, this`launchId
    {
      && |pre| == |xs| && |post| == |xs|
      && (|xs| > 0 ==> pre[0] == first)
      && (forall k :: 0 <= k < |xs| ==> Step(pre[k], r0 + k) == Ok(post[k]) && Records(pre[k], post[k], xs[k]))
      && (forall k :: 0 <= k < |xs| - 1 ==> pre[k + 1] == Refreshed(post[k], k, received0))
    }

    /** The decisions of a testing episode from `first` at resume 1:
        decision k leaves `post[k]`, whose rewards are `rows[k]`. */
    ghost predicate TestTrajectory(first: Fields, post: seq<Fields>, rows: seq<seq<real>>)
      reads this`env, this`means, this`sdevs, this`stateVectorSize, this`launchId
    {
      && |post| == |rows|
      && (rows != [] ==> Step(first, 1) == Ok(post[0]))
      && (forall k :: 0 < k < |rows| ==> Step(post[k - 1], k + 1) == Ok(post[k]))
      && (forall k :: 0 <= k < |rows| ==> RewardValues(Get(post[k], "Reward"), Agents()) == Ok(rows[k]))
    }

    /** The sample the next decision of a training episode starts from,
        after the decisions that left `post`: the last answer, refreshed by
        a scheduled policy request while the episode goes on. */
    function Next(first: Fields, received0: nat, post: seq<Fields>): Fields
    {
      if post == [] then first
      else if Get(post[|post| - 1], "Termination") == NonTerminal then Refreshed(post[|post| - 1], |post| - 1, received0)
      else post[|post| - 1]
    }

    /** A training decision from `f` at resume `r` is due but cannot be
        taken: the episode goes on, and the sample cannot be indexed per
        agent or the step fails. */
    predicate Stuck(f: Fields, r: nat)
      reads this`env, this`means, this`sdevs, this`stateVectorSize, this`launchId
    {
      Get(f, "Termination") == NonTerminal && !(Recordable(f) && Step(f, r).Ok?)
    }

    /** A testing decision from `f` at resume `r` is due but fails. */
    predicate TestStuck(f: Fields, r: nat)
      reads this`env, this`means, this`sdevs, this`stateVectorSize, this`launchId
    {
      Get(f, "Termination") == NonTerminal && Step(f, r).Err?
    }

    /** The "Environment Id" the first resume of a training episode opened
        from `f` leaves, read as a count. */
    function EpisodeId(f: Fields, launch: nat): Option<nat>
      reads this`env
    {
      RlConfig.AsCount(Get(Resumed(Opened(f, true), 0, launch, env), "Environment Id"))
    }

    constructor(settings: RlConfig.Settings, isLeader: bool, policy: Fields -> Fields, replies: nat -> Json,
                baseOperations: set<string>)
      ensures this.settings == settings && this.isLeader == isLeader && this.policy == policy
      ensures this.replies == replies && this.baseOperations == baseOperations
      ensures launchId == 0 && resumes == 0 && outbox == [] && received == 0
      ensures stateIndexes == [] && actionIndexes == [] && stateVectorSize == 0 && actionVectorSize == 0
    {
      this.settings := settings;
      this.isLeader := isLeader;
      this.policy := policy;
      this.replies := replies;
      this.baseOperations := baseOperations;
      stateIndexes := [];
      actionIndexes := [];
      stateVectorSize := 0;
      actionVectorSize := 0;
      launchId := 0;
      means := [];
      sdevs := [];
      env := Environment(0, (k, f) => map[]);
      resumes := 0;
      outbox := [];
      received := 0;
    }

    /** `initialize`: the positions of the state and of the action
        variables, their counts, and a launch counter back at zero. */
    method Initialize() returns (o: Outcome)
      modifies this`stateIndexes, this`actionIndexes, this`stateVectorSize, this`actionVectorSize, this`launchId
      ensures stateIndexes == IndexesOf(settings.variables, RlConfig.StateVariable)
      ensures actionIndexes == IndexesOf(settings.variables, RlConfig.ActionVariable)
      ensures stateVectorSize == |stateIndexes| && actionVectorSize == |actionIndexes|
      ensures launchId == 0
      ensures o.Fail? <==> stateVectorSize == 0 || actionVectorSize == 0
    {
      var vs := settings.variables;
      stateIndexes := [];
      actionIndexes := [];
      var i := 0;
      while i < |vs|
        invariant 0 <= i <= |vs|
        invariant stateIndexes == IndexesOf(vs[..i], RlConfig.StateVariable)
        invariant actionIndexes == IndexesOf(vs[..i], RlConfig.ActionVariable)
      {
        assert vs[..i + 1][..i] == vs[..i];
        if vs[i].kind == RlConfig.StateVariable { stateIndexes := stateIndexes + [i]; }
        if vs[i].kind == RlConfig.ActionVariable { actionIndexes := actionIndexes + [i]; }
        i := i + 1;
      }
      assert vs[..i] == vs;
      actionVectorSize := |actionIndexes|;
      stateVectorSize := |stateIndexes|;
      launchId := 0;
      if actionVectorSize == 0 { return Fail("No action variables have been defined."); }
      if stateVectorSize == 0 { return Fail("No state variables have been defined."); }
      o := Pass;
    }

    /** `initializeEnvironment`: the rescaling vectors are read from the
        sample, the custom settings copied into it, a fresh coroutine made
        for `e`, and the reward initialised to zero for every agent. */
    method InitializeEnvironment(sample: Sample, e: Environment) returns (o: Outcome)
      modifies this`means, this`sdevs, this`env, this`resumes, sample
      ensures o.Pass? <==> Rescalable(old(sample.fields))
      ensures o.Pass? ==> (&& env == e && resumes == 0
                           && Numbers(means) == Lookup(Get(old(sample.fields), "State Rescaling"), ["Means"]).value
                           && Numbers(sdevs) == Lookup(Get(old(sample.fields), "State Rescaling"), ["Standard Deviations"]).value)
      ensures o.Pass? ==> sample.fields == Initialized(old(sample.fields), settings.customSettings, Agents())
    {
      var rescaling := Get(sample.fields, "State Rescaling");
      var m := Lookup(rescaling, ["Means"]);
      if m.None? || ToNumbers(m.value).None? { return Fail("State Rescaling Means must be a vector of numbers"); }
      var s := Lookup(rescaling, ["Standard Deviations"]);
      if s.None? || ToNumbers(s.value).None? { return Fail("State Rescaling Standard Deviations must be a vector of numbers"); }
      means := ToNumbers(m.value).value;
      sdevs := ToNumbers(s.value).value;
      NumbersInverse(m.value);
      NumbersInverse(s.value);
      sample.fields := sample.fields["Custom Settings" := settings.customSettings];
      env := e;
      resumes := 0;
      if Agents() == 1 { sample.fields := sample.fields["Reward" := JNum(0.0)]; }
      if Agents() > 1 { sample.fields := sample.fields["Reward" := Numbers(seq(Agents(), i => 0.0))]; }
      o := Pass;
    }

    /** One switch into the environment coroutine (`__environmentWrapper`
        and `co_switch`): a finished environment must not be resumed; the
        first resume stamps the launch id; when the environment returns, a
        leader insists on a final "Terminal" or "Truncated" status. */
    method Resume(sample: Sample) returns (o: Outcome)
      modifies this`resumes, this`launchId, sample
      ensures old(resumes) > env.suspensions ==> o.Fail? && resumes == old(resumes) && launchId == old(launchId)
      ensures old(resumes) <= env.suspensions ==>
                && resumes == old(resumes) + 1
                && launchId == old(launchId) + (if old(resumes) == 0 then 1 else 0)
                && sample.fields == Resumed(old(sample.fields), old(resumes), old(launchId), env)
                && (o.Fail? <==> isLeader && old(resumes) == env.suspensions && TerminationCheck(sample.fields).Fail?)
    {
      hide Resumed, TerminationCheck, Get;
      var r, id := resumes, launchId;
      if r > env.suspensions { return Fail("Resuming a finished agent"); }
      if r == 0 { launchId := id + 1; }
      sample.fields := Resumed(sample.fields, r, id, env);
      resumes := r + 1;
      if r == env.suspensions && isLeader {
        o := TerminationCheck(sample.fields);
      } else {
        o := Pass;
      }
    }

    /** The rescaled rows, built one component at a time. */
    method NormalizeRows(rows: seq<seq<real>>, size: nat) returns (r: Json)
      requires forall i :: 0 <= i < |rows| ==> |rows[i]| == size
      requires |means| >= size && |sdevs| >= size
      ensures r == NormalizedState(rows, means, sdevs)
    {
      var out: seq<Json> := [];
      var i := 0;
      while i < |rows|
        invariant 0 <= i <= |rows| && |out| == i
        invariant forall a :: 0 <= a < i ==> out[a] == NormalizedState(rows, means, sdevs).items[a]
      {
        var row: seq<Json> := [];
        var d := 0;
        while d < size
          invariant 0 <= d <= size && |row| == d
          invariant forall b :: 0 <= b < d ==> row[b] == Scale(rows[i][b], means[b], sdevs[b])
        {
          row := row + [Scale(rows[i][d], means[d], sdevs[d])];
          d := d + 1;
        }
        out := out + [JArr(row)];
        i := i + 1;
      }
      r := JArr(out);
    }

    /** The leader's checks and rewrites after a resume. */
    method ObserveSample(sample: Sample) returns (o: Outcome)
      modifies sample
      ensures o.Pass? <==> Observe(old(sample.fields), Agents(), stateVectorSize, means, sdevs).Ok?
      ensures o.Pass? ==> sample.fields == Observe(old(sample.fields), Agents(), stateVectorSize, means, sdevs).value
    {
      var f := sample.fields;
      var state := WrapState(f, Agents());
      if state.Err? { return Fail(state.msg); }
      sample.fields := sample.fields["State" := state.value];
      var rows := StateRows(state.value, Agents(), stateVectorSize);
      if rows.Err? { return Fail(rows.msg); }
      if |means| < stateVectorSize || |sdevs| < stateVectorSize {
        return Fail("State rescaling vectors are shorter than the state");
      }
      var normalized := NormalizeRows(rows.value, stateVectorSize);
      sample.fields := sample.fields["State" := normalized];
      var reward := WrapReward(f, Agents());
      if reward.Err? { return Fail(reward.msg); }
      sample.fields := sample.fields["Reward" := reward.value];
      var values := RewardValues(reward.value, Agents());
      if values.Err? { return Fail(values.msg); }
      assert sample.fields == f["State" := normalized]["Reward" := reward.value];
      o := Pass;
    }

    /** `runEnvironment`: resume the environment; a non-leader stops there,
        a leader checks and rescales what the environment left. */
    method RunEnvironment(sample: Sample) returns (o: Outcome)
      modifies this`resumes, this`launchId, sample
      ensures old(resumes) > env.suspensions ==> o.Fail? && resumes == old(resumes) && launchId == old(launchId)
      ensures old(resumes) <= env.suspensions ==>
                resumes == old(resumes) + 1 && launchId == old(launchId) + (if old(resumes) == 0 then 1 else 0)
      ensures old(resumes) <= env.suspensions && !isLeader ==>
                o.Pass? && sample.fields == Resumed(old(sample.fields), old(resumes), old(launchId), env)
      ensures old(resumes) <= env.suspensions && isLeader ==>
                var g := Resumed(old(sample.fields), old(resumes), old(launchId), env);
                && (o.Pass? <==> (old(resumes) < env.suspensions || TerminationCheck(g).Pass?)
                                 && Observe(g, Agents(), stateVectorSize, means, sdevs).Ok?)
                && (o.Pass? ==> sample.fields == Observe(g, Agents(), stateVectorSize, means, sdevs).value)
      ensures old(resumes) <= env.suspensions ==>
                (o.Pass? <==> Observed(Resumed(old(sample.fields), old(resumes), old(launchId), env), old(resumes)).Ok?)
                && (o.Pass? ==> Observed(Resumed(old(sample.fields), old(resumes), old(launchId), env), old(resumes))
                                == Ok(sample.fields))
    {
      o := Resume(sample);
      if o.Fail? || !isLeader { return; }
      o := ObserveSample(sample);
    }

    /** `getAction`: the agent's policy writes its decision into the sample. */
    method GetAction(sample: Sample)
      modifies sample
      ensures sample.fields == old(sample.fields) + policy(old(sample.fields))
    {
      sample.fields := sample.fields + policy(sample.fields);
    }

    /** A single agent's action is handed to the environment as a plain vector. */
    method UnwrapSingleAction(sample: Sample) returns (o: Outcome)
      modifies sample
      ensures Agents() != 1 ==> o.Pass? && sample.fields == old(sample.fields)
      ensures Agents() == 1 ==> (o.Pass? <==> UnwrapAction(Get(old(sample.fields), "Action")).Ok?)
      ensures Agents() == 1 && o.Pass? ==>
                sample.fields == old(sample.fields)["Action" := UnwrapAction(Get(old(sample.fields), "Action")).value]
    {
      o := Pass;
      if Agents() == 1 {
        var a := UnwrapAction(Get(sample.fields, "Action"));
        if a.Err? { return Fail(a.msg); }
        sample.fields := sample.fields["Action" := a.value];
      }
    }

    /** `requestNewPolicy`: ask the engine for a new policy and store its
        reply as the sample's policy hyperparameters. */
    method RequestNewPolicy(sample: Sample)
      modifies this`outbox, this`received, sample
      ensures outbox == old(outbox) + [PolicyRequest(Get(old(sample.fields), "Sample Id"))]
      ensures received == old(received) + 1
      ensures sample.fields == old(sample.fields)["Policy Hyperparameters" := replies(old(received))]
    {
      outbox := outbox + [PolicyRequest(Get(sample.fields, "Sample Id"))];
      sample.fields := sample.fields["Policy Hyperparameters" := replies(received)];
      received := received + 1;
    }

    /** One decision of a training episode on the leader: the policy acts,
        state, action and policy are recorded, the environment runs to its
        next decision point, and its reward and termination are recorded. */
    method Decide(sample: Sample) returns (o: Outcome, x: Experience)
      requires isLeader && resumes >= 1
      modifies this`resumes, this`launchId, sample
      ensures launchId == old(launchId)
      ensures o.Pass? <==> Recordable(old(sample.fields)) && Step(old(sample.fields), old(resumes)).Ok?
      ensures o.Pass? ==> (&& old(resumes) <= env.suspensions && resumes == old(resumes) + 1
                           && Step(old(sample.fields), old(resumes)) == Ok(sample.fields)
                           && Records(old(sample.fields), sample.fields, x))
      ensures o.Fail? ==> resumes <= old(resumes) + 1
      ensures o.Pass? && resumes == env.suspensions + 1 ==> Get(sample.fields, "Termination") in {Terminal, Truncated}
    {
      hide Observe, Resumed, Get, TerminationCheck, Column, UnwrapAction;
      x := Experience([], [], [], [], JNull, None);
      GetAction(sample);
      var states := Column(Get(sample.fields, "State"), Agents());
      if states.Err? { return Fail(states.msg), x; }
      var actions := Column(Get(sample.fields, "Action"), Agents());
      if actions.Err? { return Fail(actions.msg), x; }
      var policies := Column(Get(sample.fields, "Policy"), Agents());
      if policies.Err? { return Fail(policies.msg), x; }
      o := UnwrapSingleAction(sample);
      if o.Fail? { return; }
      ghost var before := sample.fields;
      o := RunEnvironment(sample);
      if o.Fail? { return; }
      ObserveKeeps(Resumed(before, old(resumes), old(launchId), env), Agents(), stateVectorSize, means, sdevs);
      var rewards := RewardValues(Get(sample.fields, "Reward"), Agents());
      var termination := Get(sample.fields, "Termination");
      var truncated: Option<seq<Json>> := None;
      if termination == Truncated {
        var after := Column(Get(sample.fields, "State"), Agents());
        truncated := Some(after.value);
      }
      x := Experience(states.value, actions.value, policies.value, rewards.value, termination, truncated);
    }

    /** The training loop on the leader: one experience per decision until
        the termination status leaves "Non Terminal", rewards summed per
        agent, and a policy request after every `actionsBetweenPolicyUpdates`
        decisions while the episode goes on. */
    method CollectExperiences(sample: Sample)
      returns (o: Outcome, xs: seq<Experience>, totals: seq<real>, ghost pre: seq<Fields>, ghost post: seq<Fields>)
      requires isLeader && 1 <= resumes <= env.suspensions + 1
      requires resumes == env.suspensions + 1 ==> Get(sample.fields, "Termination") in {Terminal, Truncated}
      modifies this`resumes, this`launchId, this`outbox, this`received, sample
      ensures launchId == old(launchId)
      ensures Trajectory(old(sample.fields), old(resumes), old(received), pre, post, xs)
      ensures forall k :: 0 <= k < |xs| - 1 ==> xs[k].termination == NonTerminal
      ensures o.Fail? <==> Stuck(Next(old(sample.fields), old(received), post), old(resumes) + |xs|)
      ensures o.Pass? ==> (&& Get(sample.fields, "Termination") != NonTerminal
                           && resumes <= env.suspensions + 1
                           && |xs| == resumes - old(resumes)
                           && sample.fields == Next(old(sample.fields), old(received), post)
                           && sample.fields == (if xs == [] then old(sample.fields) else post[|xs| - 1])
                           && (forall k :: 0 <= k < |xs| ==> (xs[k].termination == NonTerminal <==> k < |xs| - 1))
                           && totals == ColumnTotals(RewardRows(xs), Agents())
                           && outbox == old(outbox) + Requests(post, settings.actionsBetweenPolicyUpdates)
                           && |outbox| == |old(outbox)| + PolicyRequests(|xs|, settings.actionsBetweenPolicyUpdates)
                           && (forall j :: |old(outbox)| <= j < |outbox| ==> IsPolicyRequest(outbox[j]))
                           && received == old(received) + |outbox| - |old(outbox)|
                           && (resumes == env.suspensions + 1 ==> Get(sample.fields, "Termination") in {Terminal, Truncated}))
    {
      hide Get, ColumnTotals, RewardRows, Step, Refreshed, Records, Trajectory, Requests, Next, Stuck, Recordable, PolicyRequest;
      var period := settings.actionsBetweenPolicyUpdates;
      xs := [];
      pre, post := [], [];
      totals := seq(Agents(), i => 0.0);
      o := Pass;
      TrajectoryEmpty(old(sample.fields), old(resumes), old(received));
      NothingDecided(old(sample.fields), old(received), period);
      while Get(sample.fields, "Termination") == NonTerminal
        invariant o.Pass? && old(resumes) <= resumes <= env.suspensions + 1
        invariant launchId == old(launchId)
        invariant |xs| == resumes - old(resumes) && |pre| == |xs| && |post| == |xs|
        invariant Trajectory(old(sample.fields), old(resumes), old(received), pre, post, xs)
        invariant sample.fields == Next(old(sample.fields), old(received), post)
        invariant forall k :: 0 <= k < |xs| - 1 ==> xs[k].termination == NonTerminal
        invariant |xs| > 0 ==> xs[|xs| - 1].termination == Get(post[|xs| - 1], "Termination")
        invariant |xs| > 0 ==> xs[|xs| - 1].termination == Get(sample.fields, "Termination")
        invariant outbox == old(outbox) + Requests(post, period)
        invariant totals == ColumnTotals(RewardRows(xs), Agents())
        invariant |outbox| == |old(outbox)| + RequestsSoFar(|xs|, period, Get(sample.fields, "Termination") == NonTerminal)
        invariant outbox[..|old(outbox)|] == old(outbox)
        invariant forall j :: |old(outbox)| <= j < |outbox| ==> IsPolicyRequest(outbox[j])
        invariant received == old(received) + |outbox| - |old(outbox)|
        invariant resumes == env.suspensions + 1 ==> Get(sample.fields, "Termination") in {Terminal, Truncated}
        decreases env.suspensions + 1 - resumes
      {
        ghost var start := sample.fields;
        var x;
        o, x := Decide(sample);
        if o.Fail? {
          StuckAt(start, old(resumes) + |xs|);
          return;
        }
        RecordsReward(start, sample.fields, x);
        ghost var before := xs;
        ghost var pre0, post0 := pre, post;
        ghost var requests0 := outbox;
        xs := xs + [x];
        pre, post := pre + [start], post + [sample.fields];
        RewardRowsAppend(before, x);
        totals := AddRewards(totals, x.rewards, RewardRows(before));
        SchedulePolicyRequest(sample, |xs| - 1, old(received));
        TrajectoryAppend(old(sample.fields), old(resumes), old(received), pre0, post0, before, start, post[|xs| - 1], x);
        RequestsAppend(post0, post[|xs| - 1], period);
        NextLast(old(sample.fields), old(received), post);
      }
      if |xs| > 0 {
        assert xs[|xs| - 1].termination != NonTerminal;
        RefreshedKeeps(post[|xs| - 1], |xs| - 1, old(received));
        NextLast(old(sample.fields), old(received), post);
      }
      StuckAt(sample.fields, old(resumes) + |xs|);
    }

    /** After decision `n + 1` of an episode still going on before it, a
        new policy is requested when the episode goes on and the decision
        count is a multiple of `actionsBetweenPolicyUpdates`. */
    method SchedulePolicyRequest(sample: Sample, n: nat, ghost received0: nat)
      requires settings.actionsBetweenPolicyUpdates > 0 ==> received == received0 + n / settings.actionsBetweenPolicyUpdates
      modifies this`outbox, this`received, sample
      ensures sample.fields == if Get(old(sample.fields), "Termination") == NonTerminal
                               then Refreshed(old(sample.fields), n, received0) else old(sample.fields)
      ensures Get(sample.fields, "Termination") == Get(old(sample.fields), "Termination")
      ensures outbox == old(outbox)
                        + (if settings.actionsBetweenPolicyUpdates > 0 && (n + 1) % settings.actionsBetweenPolicyUpdates == 0
                              && Get(old(sample.fields), "Termination") == NonTerminal
                           then [PolicyRequest(Get(old(sample.fields), "Sample Id"))] else [])
      ensures |old(outbox)| <= |outbox| <= |old(outbox)| + 1
      ensures outbox[..|old(outbox)|] == old(outbox)
      ensures forall j :: |old(outbox)| <= j < |outbox| ==> IsPolicyRequest(outbox[j])
      ensures received == old(received) + |outbox| - |old(outbox)|
      ensures |outbox| == |old(outbox)| + RequestsSoFar(n + 1, settings.actionsBetweenPolicyUpdates,
                                                         Get(sample.fields, "Termination") == NonTerminal)
                                        - RequestsSoFar(n, settings.actionsBetweenPolicyUpdates, true)
    {
      hide Get;
      var period := settings.actionsBetweenPolicyUpdates;
      if period > 0 && Get(sample.fields, "Termination") == NonTerminal && (n + 1) % period == 0 {
        PolicyRequestKeeps(sample.fields, replies(received));
        RequestNewPolicy(sample);
      }
      if period > 0 { DivStep(n, period); }
    }

    /** `runTrainingEpisode`: the first state is fetched with the status
        "Non Terminal"; a non-leader then stops; a leader checks the
        environment id, collects the episode, stores each agent's summed
        reward and sends the episode to the engine in a single message. */
    method RunTrainingEpisode(sample: Sample, e: Environment)
      returns (o: Outcome, episode: Episode, ghost pre: seq<Fields>, ghost post: seq<Fields>)
      modifies this`means, this`sdevs, this`env, this`resumes, this`launchId, this`outbox, this`received, sample
      ensures Rescalable(old(sample.fields)) ==> env == e
      ensures o.Fail? <==>
                || !Rescalable(old(sample.fields))
                || FirstObservation(old(sample.fields), true, old(launchId)).Err?
                || (&& isLeader
                    && (|| EpisodeId(old(sample.fields), old(launchId)).None?
                        || EpisodeId(old(sample.fields), old(launchId)).value >= settings.environmentCount
                        || Stuck(Next(FirstObservation(old(sample.fields), true, old(launchId)).value, old(received), post),
                                 1 + |episode.experiences|)))
      ensures (&& isLeader && Rescalable(old(sample.fields)) && FirstObservation(old(sample.fields), true, old(launchId)).Ok?
               && EpisodeId(old(sample.fields), old(launchId)).Some?
               && EpisodeId(old(sample.fields), old(launchId)).value < settings.environmentCount) ==>
                var xs := episode.experiences;
                && Some(episode.environmentId) == EpisodeId(old(sample.fields), old(launchId))
                && Trajectory(FirstObservation(old(sample.fields), true, old(launchId)).value, 1, old(received), pre, post, xs)
                && (forall k :: 0 <= k < |xs| - 1 ==> xs[k].termination == NonTerminal)
      ensures o.Pass? ==> env == e && launchId == old(launchId) + 1
      ensures o.Pass? && !isLeader ==>
                && outbox == old(outbox) && received == old(received) && episode.experiences == [] && resumes == 1
                && sample.fields == Resumed(Opened(old(sample.fields), true), 0, old(launchId), e)
      ensures o.Pass? && isLeader ==>
                var xs := episode.experiences;
                var last := Next(FirstObservation(old(sample.fields), true, old(launchId)).value, old(received), post);
                && episode.environmentId < settings.environmentCount
                && |xs| == resumes - 1
                && (forall k :: 0 <= k < |xs| ==> (xs[k].termination == NonTerminal <==> k < |xs| - 1))
                && Get(last, "Termination") != NonTerminal
                && sample.fields == last["Training Rewards" := Numbers(ColumnTotals(RewardRows(xs), Agents()))]
                && outbox == old(outbox) + Requests(post, settings.actionsBetweenPolicyUpdates)
                             + [SendEpisodes(Get(last, "Sample Id"), EpisodesJson(episode, Agents()))]
                && |outbox| == |old(outbox)| + PolicyRequests(|xs|, settings.actionsBetweenPolicyUpdates) + 1
                && (forall j :: |old(outbox)| <= j < |outbox| - 1 ==> IsPolicyRequest(outbox[j]))
                && (resumes == e.suspensions + 1 ==> Get(sample.fields, "Termination") in {Terminal, Truncated})
    {
      hide Observe, Resumed, Get, TerminationCheck, ColumnTotals, RewardRows, EpisodesJson, SendEpisodes, Numbers;
      hide Trajectory, Stuck, Next, Requests, Step, Recordable;
      episode := Episode(0, []);
      pre, post := [], [];
      o := StartEpisode(sample, e, true);
      if o.Fail? || !isLeader { return; }
      ObservedKeepsId(Resumed(Opened(old(sample.fields), true), 0, old(launchId), e));
      var id := RlConfig.AsCount(Get(sample.fields, "Environment Id"));
      if id.None? { return Fail("Environment Id is not an unsigned integer"), episode, pre, post; }
      if id.value >= settings.environmentCount {
        return Fail("Environment Id provided exceeds the maximum environment count defined"), episode, pre, post;
      }
      var xs, totals;
      o, xs, totals, pre, post := CollectExperiences(sample);
      episode := Episode(id.value, xs);
      if o.Fail? { return; }
      SendEpisode(sample, episode, totals);
    }

    /** The start of a training or testing episode: the environment is set
        up and run to its first decision point with the status "Non Terminal". */
    method StartEpisode(sample: Sample, e: Environment, training: bool) returns (o: Outcome)
      modifies this`means, this`sdevs, this`env, this`resumes, this`launchId, sample
      ensures o.Pass? <==> Rescalable(old(sample.fields)) && FirstObservation(old(sample.fields), training, old(launchId)).Ok?
      ensures Rescalable(old(sample.fields)) ==> env == e
      ensures o.Pass? ==> && env == e && launchId == old(launchId) + 1 && resumes == 1
                          && FirstObservation(old(sample.fields), training, old(launchId)) == Ok(sample.fields)
      ensures o.Pass? && isLeader && resumes == env.suspensions + 1 ==>
                Get(sample.fields, "Termination") in {Terminal, Truncated}
    {
      hide Observe, Resumed, Get, TerminationCheck;
      o := InitializeEnvironment(sample, e);
      if o.Fail? { return; }
      if training {
        sample.fields := sample.fields["Mode" := JStr("Training")]["Termination" := NonTerminal]["Environment Id" := JNum(0.0)];
      } else {
        sample.fields := sample.fields["Mode" := JStr("Testing")]["Termination" := NonTerminal];
      }
      ghost var before := sample.fields;
      o := RunEnvironment(sample);
      if o.Fail? || !isLeader { return; }
      ObserveKeeps(Resumed(before, 0, old(launchId), env), Agents(), stateVectorSize, means, sdevs);
    }

    /** The end of a training episode: each agent's summed reward is stored
        and the episode goes to the engine in one message. */
    method SendEpisode(sample: Sample, episode: Episode, totals: seq<real>)
      modifies this`outbox, sample
      ensures sample.fields == old(sample.fields)["Training Rewards" := Numbers(totals)]
      ensures Get(sample.fields, "Training Rewards") == Numbers(totals)
      ensures Get(sample.fields, "Termination") == Get(old(sample.fields), "Termination")
      ensures Get(sample.fields, "Sample Id") == Get(old(sample.fields), "Sample Id")
      ensures outbox == old(outbox) + [SendEpisodes(Get(sample.fields, "Sample Id"), EpisodesJson(episode, Agents()))]
    {
      hide Get, EpisodesJson, SendEpisodes, Numbers;
      GetUpdate(sample.fields, "Training Rewards", Numbers(totals), "Termination");
      GetUpdate(sample.fields, "Training Rewards", Numbers(totals), "Training Rewards");
      GetUpdate(sample.fields, "Training Rewards", Numbers(totals), "Sample Id");
      sample.fields := sample.fields["Training Rewards" := Numbers(totals)];
      outbox := outbox + [SendEpisodes(Get(sample.fields, "Sample Id"), EpisodesJson(episode, Agents()))];
    }

    /** One decision of a testing episode on the leader: the policy acts and
        the environment runs to its next decision point. */
    method TestStep(sample: Sample) returns (o: Outcome, rewards: seq<real>)
      requires isLeader && resumes >= 1
      modifies this`resumes, this`launchId, sample
      ensures launchId == old(launchId)
      ensures o.Pass? <==> Step(old(sample.fields), old(resumes)).Ok?
      ensures o.Pass? ==> (&& old(resumes) <= env.suspensions && resumes == old(resumes) + 1
                           && Step(old(sample.fields), old(resumes)) == Ok(sample.fields)
                           && RewardValues(Get(sample.fields, "Reward"), Agents()) == Ok(rewards))
      ensures o.Fail? ==> resumes <= old(resumes) + 1
      ensures o.Pass? && resumes == env.suspensions + 1 ==> Get(sample.fields, "Termination") in {Terminal, Truncated}
    {
      hide Observe, Resumed, Get, TerminationCheck, UnwrapAction;
      rewards := [];
      GetAction(sample);
      o := UnwrapSingleAction(sample);
      if o.Fail? { return; }
      ghost var before := sample.fields;
      o := RunEnvironment(sample);
      if o.Fail? { return; }
      ObserveKeeps(Resumed(before, old(resumes), old(launchId), env), Agents(), stateVectorSize, means, sdevs);
      rewards := RewardValues(Get(sample.fields, "Reward"), Agents()).value;
    }

    /** The testing reward's numerator: the agents' totals added up. */
    method SumRewards(totals: seq<real>) returns (s: real)
      ensures s == Sum(totals)
    {
      s := 0.0;
      var i := 0;
      while i < |totals|
        invariant 0 <= i <= |totals| && s == Sum(totals[..i])
      {
        assert totals[..i + 1][..i] == totals[..i];
        s := s + totals[i];
        i := i + 1;
      }
      assert totals[..i] == totals;
    }

    /** `runTestingEpisode`: the episode runs on the current policy without
        recording experiences; the leader stores the summed reward of all
        agents divided by their number. `rows` are the rewards observed at
        each decision. */
    method RunTestingEpisode(sample: Sample, e: Environment)
      returns (o: Outcome, rows: seq<seq<real>>, ghost post: seq<Fields>)
      modifies this`means, this`sdevs, this`env, this`resumes, this`launchId, sample
      ensures Rescalable(old(sample.fields)) ==> env == e
      ensures o.Fail? <==>
                || !Rescalable(old(sample.fields))
                || FirstObservation(old(sample.fields), false, old(launchId)).Err?
                || (isLeader && TestStuck(TestNext(FirstObservation(old(sample.fields), false, old(launchId)).value, post),
                                          |post| + 1))
      ensures isLeader && Rescalable(old(sample.fields)) && FirstObservation(old(sample.fields), false, old(launchId)).Ok? ==>
                && TestTrajectory(FirstObservation(old(sample.fields), false, old(launchId)).value, post, rows)
                && (forall k :: 0 <= k < |post| - 1 ==> Get(post[k], "Termination") == NonTerminal)
      ensures o.Pass? ==> env == e && launchId == old(launchId) + 1
      ensures o.Pass? && !isLeader ==>
                && rows == [] && resumes == 1
                && sample.fields == Resumed(Opened(old(sample.fields), false), 0, old(launchId), e)
      ensures o.Pass? && isLeader ==>
                && sample.fields == TestNext(FirstObservation(old(sample.fields), false, old(launchId)).value, post)
                                      ["Testing Reward" := TestingReward(rows, Agents())]
                && |rows| == resumes - 1
                && (forall k :: 0 <= k < |rows| ==> |rows[k]| == Agents())
                && Get(sample.fields, "Termination") != NonTerminal
                && Get(sample.fields, "Testing Reward") == TestingReward(rows, Agents())
    {
      hide Observe, Resumed, TerminationCheck, Step, TestStuck, TestNext, TestTrajectory;
      rows := [];
      post := [];
      o := StartEpisode(sample, e, false);
      if o.Fail? || !isLeader { return; }
      var totals;
      o, rows, totals, post := TestDecisions(sample);
      if o.Fail? { return; }
      var sum := SumRewards(totals);
      sample.fields := sample.fields["Testing Reward" := if Agents() == 0 then JNonFinite else JNum(sum / Agents() as real)];
    }

    /** The loop of a testing episode on the leader: decisions until the
        status leaves "Non Terminal", each agent's rewards summed. */
    method TestDecisions(sample: Sample) returns (o: Outcome, rows: seq<seq<real>>, totals: seq<real>, ghost post: seq<Fields>)
      requires isLeader && resumes == 1
      requires resumes == env.suspensions + 1 ==> Get(sample.fields, "Termination") in {Terminal, Truncated}
      modifies this`resumes, this`launchId, sample
      ensures launchId == old(launchId)
      ensures TestTrajectory(old(sample.fields), post, rows)
      ensures forall k :: 0 <= k < |post| - 1 ==> Get(post[k], "Termination") == NonTerminal
      ensures o.Fail? <==> TestStuck(TestNext(old(sample.fields), post), |post| + 1)
      ensures o.Pass? ==> (&& sample.fields == TestNext(old(sample.fields), post)
                           && |rows| == resumes - 1
                           && (forall k :: 0 <= k < |rows| ==> |rows[k]| == Agents())
                           && Get(sample.fields, "Termination") != NonTerminal
                           && totals == ColumnTotals(rows, Agents()))
    {
      hide Observe, Resumed, TerminationCheck, Step;
      rows, post := [], [];
      o := Pass;
      totals := seq(Agents(), i => 0.0);
      assert totals == ColumnTotals([], Agents());
      while Get(sample.fields, "Termination") == NonTerminal
        invariant launchId == old(launchId)
        invariant 1 <= resumes <= env.suspensions + 1 && |rows| == resumes - 1
        invariant resumes == env.suspensions + 1 ==> Get(sample.fields, "Termination") in {Terminal, Truncated}
        invariant forall k :: 0 <= k < |rows| ==> |rows[k]| == Agents()
        invariant totals == ColumnTotals(rows, Agents())
        invariant TestTrajectory(old(sample.fields), post, rows)
        invariant sample.fields == TestNext(old(sample.fields), post)
        invariant forall k :: 0 <= k < |post| - 1 ==> Get(post[k], "Termination") == NonTerminal
        invariant o.Pass?
        decreases env.suspensions + 1 - resumes
      {
        var r;
        o, r := TestStep(sample);
        if o.Fail? { return; }
        TestTrajectoryAppend(old(sample.fields), post, rows, sample.fields, r);
        totals := AddRewards(totals, r, rows);
        rows := rows + [r];
        post := post + [sample.fields];
      }
    }

    /** `runOperation`: the two episode operations, then whatever the base
        problem handles; anything else is refused. */
    method RunOperation(operation: string, sample: Sample, e: Environment) returns (o: Outcome, handled: bool)
      modifies this`means, this`sdevs, this`env, this`resumes, this`launchId, this`outbox, this`received, sample
      ensures handled <==> operation in {"Run Training Episode", "Run Testing Episode"} + baseOperations
      ensures !handled ==> o.Fail? && unchanged(this) && unchanged(sample)
      ensures handled && operation !in {"Run Training Episode", "Run Testing Episode"} ==>
                o.Pass? && unchanged(this) && unchanged(sample)
      ensures operation in {"Run Training Episode", "Run Testing Episode"} && o.Pass? ==>
                env == e && launchId == old(launchId) + 1
    {
      if operation == "Run Training Episode" {
        var episode;
        ghost var pre, post;
        o, episode, pre, post := RunTrainingEpisode(sample, e);
        return o, true;
      }
      if operation == "Run Testing Episode" {
        var rows;
        ghost var post;
        o, rows, post := RunTestingEpisode(sample, e);
        return o, true;
      }
      handled := operation in baseOperations;
      if !handled { return Fail("Operation " + operation + " not recognized for problem ReinforcementLearning"), false; }
      o := Pass;
    }

    /** The first observation keeps the "Environment Id" the environment
        left in the sample. */
    lemma ObservedKeepsId(g: Fields)
      requires Observed(g, 0).Ok?
      ensures Get(Observed(g, 0).value, "Environment Id") == Get(g, "Environment Id")
    {
      if isLeader {
        ObserveSpec(g, Agents(), stateVectorSize, means, sdevs);
      }
    }

    lemma RecordsReward(before: Fields, after: Fields, x: Experience)
      requires Records(before, after, x)
      ensures |x.rewards| == Agents() && x.termination == Get(after, "Termination")
    {
    }

    lemma TrajectoryEmpty(first: Fields, r0: nat, received0: nat)
      ensures Trajectory(first, r0, received0, [], [], [])
    {
    }

    /** A testing trajectory extended by one decision is one. */
    lemma TestTrajectoryAppend(first: Fields, post: seq<Fields>, rows: seq<seq<real>>, after: Fields, r: seq<real>)
      requires TestTrajectory(first, post, rows)
      requires Step(if rows == [] then first else post[|rows| - 1], |rows| + 1) == Ok(after)
      requires RewardValues(Get(after, "Reward"), Agents()) == Ok(r)
      ensures TestTrajectory(first, post + [after], rows + [r])
    {
      hide Step, RewardValues;
      var post', rows' := post + [after], rows + [r];
      forall k | 0 < k < |rows'|
        ensures Step(post'[k - 1], k + 1) == Ok(post'[k])
      {
        assert post'[k - 1] == post[k - 1];
        if k < |rows| {
          assert post'[k] == post[k];
        }
      }
      forall k | 0 <= k < |rows'|
        ensures RewardValues(Get(post'[k], "Reward"), Agents()) == Ok(rows'[k])
      {
        if k < |rows| {
          assert post'[k] == post[k] && rows'[k] == rows[k];
        }
      }
      assert |post'| == |rows'|;
    }

    /** A trajectory extended by one decision is a trajectory. */
    lemma TrajectoryAppend(first: Fields, r0: nat, received0: nat, pre: seq<Fields>, post: seq<Fields>,
                           xs: seq<Experience>, before: Fields, after: Fields, x: Experience)
      requires Trajectory(first, r0, received0, pre, post, xs)
      requires before == Next(first, received0, post) && Get(before, "Termination") == NonTerminal
      requires Step(before, r0 + |xs|) == Ok(after) && Records(before, after, x)
      ensures Trajectory(first, r0, received0, pre + [before], post + [after], xs + [x])
    {
      hide Step, Records, Refreshed;
      var pre', post', xs' := pre + [before], post + [after], xs + [x];
      forall k | 0 <= k < |xs'|
        ensures Step(pre'[k], r0 + k) == Ok(post'[k]) && Records(pre'[k], post'[k], xs'[k])
      {
        if k < |xs| {
          assert pre'[k] == pre[k] && post'[k] == post[k] && xs'[k] == xs[k];
        }
      }
      forall k | 0 <= k < |xs'| - 1
        ensures pre'[k + 1] == Refreshed(post'[k], k, received0)
      {
        assert post'[k] == post[k];
        if k + 1 < |xs| {
          assert pre'[k + 1] == pre[k + 1];
        }
      }
    }

    /** A scheduled policy request leaves the termination status alone. */
    lemma RefreshedKeeps(f: Fields, k: nat, received0: nat)
      ensures Get(Refreshed(f, k, received0), "Termination") == Get(f, "Termination")
    {
      var period := settings.actionsBetweenPolicyUpdates;
      if period > 0 {
        PolicyRequestKeeps(f, replies(received0 + k / period));
      }
    }

    /** Before any decision the episode starts from `first` and has made
        no request. */
    lemma NothingDecided(first: Fields, received0: nat, period: nat)
      ensures Next(first, received0, []) == first && Requests([], period) == []
    {
    }

    lemma StuckAt(f: Fields, r: nat)
      ensures Stuck(f, r) <==> Get(f, "Termination") == NonTerminal && !(Recordable(f) && Step(f, r).Ok?)
    {
    }

    /** After a decision, the next start is its answer, refreshed when the
        episode goes on and a request is due. */
    lemma NextLast(first: Fields, received0: nat, post: seq<Fields>)
      requires post != []
      ensures var after := post[|post| - 1];
              Next(first, received0, post)
              == if Get(after, "Termination") == NonTerminal then Refreshed(after, |post| - 1, received0) else after
    {
    }

    /** Adds one decision's rewards to the per-agent totals. */
    method AddRewards(totals: seq<real>, rewards: seq<real>, ghost rows: seq<seq<real>>) returns (r: seq<real>)
      requires totals == ColumnTotals(rows, Agents()) && |rewards| == Agents()
      ensures r == ColumnTotals(rows + [rewards], Agents())
    {
      r := totals;
      var i := 0;
      while i < Agents()
        invariant 0 <= i <= Agents() && |r| == Agents()
        invariant forall a :: 0 <= a < i ==> r[a] == totals[a] + rewards[a]
        invariant forall a :: i <= a < Agents() ==> r[a] == totals[a]
      {
        r := r[i := r[i] + rewards[i]];
        i := i + 1;
      }
      assert (rows + [rewards])[..|rows|] == rows;
    }
  }

  lemma RequestsAppend(post: seq<Fields>, after: Fields, period: nat)
    ensures Requests(post + [after], period)
            == Requests(post, period)
               + (if period > 0 && (|post| + 1) % period == 0 && Get(after, "Termination") == NonTerminal
                  then [PolicyRequest(Get(after, "Sample Id"))] else [])
  {
    assert (post + [after])[..|post|] == post;
  }

  lemma RewardRowsAppend(xs: seq<Experience>, x: Experience)
    ensures RewardRows(xs + [x]) == RewardRows(xs) + [x.rewards]
  {
  }

  /** Observing leaves the termination status as the environment set it. */
  lemma ObserveKeeps(f: Fields, agents: nat, size: nat, means: seq<real>, sdevs: seq<real>)
    requires Observe(f, agents, size, means, sdevs).Ok?
    ensures Get(Observe(f, agents, size, means, sdevs).value, "Termination") == Get(f, "Termination")
    ensures RewardValues(Get(Observe(f, agents, size, means, sdevs).value, "Reward"), agents).Ok?
    ensures Get(Observe(f, agents, size, means, sdevs).value, "State").JArr?
  {
    ObserveSpec(f, agents, size, means, sdevs);
  }

  lemma GetUpdate(f: Fields, k: string, v: Json, key: string)
    ensures Get(f[k := v], key) == if key == k then v else Get(f, key)
  {
  }

  lemma PolicyRequestKeeps(f: Fields, reply: Json)
    ensures Get(f["Policy Hyperparameters" := reply], "Termination") == Get(f, "Termination")
  {
  }

  /** Converting the numbers back gives the array that was read. */
  lemma NumbersInverse(js: Json)
    requires ToNumbers(js).Some?
    ensures Numbers(ToNumbers(js).value) == js
  {
    var xs := ToNumbers(js).value;
    assert Numbers(xs).items == js.items;
  }
}
