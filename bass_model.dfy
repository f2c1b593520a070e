/**
  The Bass diffusion behaviour: an agent that has not adopted (adoption flag 0)
  adopts either by innovation, when a first random draw falls below the
  innovation probability, or by imitation, when a second draw falls below the
  imitation probability times the number of neighbours that have adopted.
  Each adoption is also recorded in a table shared by all agents, indexed by
  agent and tick.

  The random draws and the neighbour count are inputs here (a `Tick`); the
  pure function `Behave` says what one call does, `Run` repeats it over a
  sequence of ticks, and the class `BassAgent` is the mutable agent whose
  methods are proved against `Behave`.
*/
module BassModel {
  import opened Wrappers

  /** Value of the adoption flag `state['id']` before adoption. */
  const Unaware: int := 0
  /** Value of the adoption flag after adoption; also the value written into the table. */
  const Adopted: int := 1

  /** A value that `random.random()` can return. */
  predicate IsDraw(x: real) {
    0.0 <= x < 1.0
  }

  /** The two probabilities the agent copies from its environment. */
  datatype Settings = Settings(innovationProb: real, imitationProb: real)

  /** What the constructor reads from the environment: its settings and current tick. */
  datatype Environment = Environment(settings: Settings, now: nat)

  /** The adoption flag `state['id']` and its mirror `attrs['status']` (None until first written). */
  datatype Agent = Agent(id: int, status: Option<int>)

  /**
    The outside inputs of one call of the behaviour: the two random draws
    and the number of neighbours whose flag is `Adopted`.
  */
  datatype Tick = Tick(innovationDraw: real, imitationDraw: real, awareCount: nat)

  /** Which part of the behaviour decided the call. */
  datatype Branch = Innovation | Imitation | Idle

  /**
    The effect of one call: the agent afterwards, whether a 0 -> 1 transition
    happened (and so a 1 was written into the table), which branch decided,
    and how many random draws were consumed.
  */
  datatype Outcome = Outcome(agent: Agent, adopted: bool, branch: Branch, draws: nat)

  /** `status`, once written, mirrors the adoption flag. */
  predicate Mirrored(a: Agent) {
    a.status.Some? ==> a.status.value == a.id
  }

  function BranchOf(a: Agent, s: Settings, t: Tick): (b: Branch) {
    if t.innovationDraw < s.innovationProb then Innovation
    else if a.id == Unaware then Imitation
    else Idle
  }

  /** One call of `behaviour` on agent `a`. */
  function Behave(a: Agent, s: Settings, t: Tick): (o: Outcome)
    // the innovation draw is compared first and decides the call on its own
    ensures t.innovationDraw < s.innovationProb ==>
              o.branch == Innovation && o.draws == 1 && o.agent.status == Some(o.agent.id)
              && (o.adopted <==> a.id == Unaware)
    // the second draw is taken only when the first fails and the agent has not adopted
    ensures o.draws == 2 <==> o.branch == Imitation
    ensures o.draws == 1 || o.draws == 2
    ensures o.branch == Imitation <==> t.innovationDraw >= s.innovationProb && a.id == Unaware
    // an agent that has not adopted and fails the innovation draw adopts exactly
    // when the imitation draw is below imitation_prob * aware neighbours
    ensures o.branch == Imitation ==>
              (o.adopted <==> t.imitationDraw < s.imitationProb * t.awareCount as real)
              && o.agent.status == Some(o.agent.id)
    // no aware neighbour: imitation cannot happen for a draw that random.random() can return
    ensures o.branch == Imitation && t.awareCount == 0 && 0.0 <= t.imitationDraw ==> !o.adopted
    // the only transition is 0 -> 1, and it is what `adopted` reports
    ensures o.adopted <==> a.id == Unaware && o.agent.id == Adopted
    ensures o.agent.id == a.id || o.adopted
    // a failed innovation draw on an agent other than 0 changes nothing
    ensures t.innovationDraw >= s.innovationProb && a.id != Unaware ==>
              o.branch == Idle && o.draws == 1 && o.agent == a && !o.adopted
    ensures o.branch == Idle ==> o.agent == a && !o.adopted
    // the mirror is kept
    ensures Mirrored(a) ==> Mirrored(o.agent)
  {
    match BranchOf(a, s, t)
    case Innovation =>
      var id := if a.id == Unaware then Adopted else a.id;
      Outcome(Agent(id, Some(id)), a.id == Unaware, Innovation, 1)
    case Imitation =>
      var adopts := t.imitationDraw < s.imitationProb * t.awareCount as real;
      var id := if adopts then Adopted else a.id;
      Outcome(Agent(id, Some(id)), adopts, Imitation, 2)
    case Idle =>
      Outcome(a, false, Idle, 1)
  }

  /**
    The agent after calling `behaviour` once per tick of `ticks`, in order.
  */
  function Run(a: Agent, s: Settings, ticks: seq<Tick>): (r: Agent)
    decreases |ticks|
  {
    if ticks == [] then a
    else Run(Behave(a, s, ticks[0]).agent, s, ticks[1..])
  }

  /**
    The ticks at which the behaviour writes a 1 into the agent's row of the
    table, when the calls of `ticks` happen at ticks now, now + 1, ...
  */
  function AdoptionTicks(a: Agent, s: Settings, ticks: seq<Tick>, now: nat): (written: seq<nat>)
    decreases |ticks|
  {
    if ticks == [] then []
    else
      var o := Behave(a, s, ticks[0]);
      (if o.adopted then [now] else []) + AdoptionTicks(o.agent, s, ticks[1..], now + 1)
  }

  /** With a winning innovation draw, the imitation draw and the neighbour count are never consulted. */
  lemma InnovationIgnoresImitationInputs(a: Agent, s: Settings, t: Tick, t': Tick)
    requires t.innovationDraw < s.innovationProb && t'.innovationDraw == t.innovationDraw
    ensures Behave(a, s, t) == Behave(a, s, t')
  {
  }

  /**
    Over any number of calls the adoption flag either keeps its value or goes
    from 0 to 1: an adopted agent stays adopted, and a flag other than 0 is
    never changed.
  */
  lemma {:induction false} RunOnlyAdopts(a: Agent, s: Settings, ticks: seq<Tick>)
    ensures Run(a, s, ticks).id == a.id || (a.id == Unaware && Run(a, s, ticks).id == Adopted)
    decreases |ticks|
  {
    if ticks != [] {
      var o := Behave(a, s, ticks[0]);
      RunOnlyAdopts(o.agent, s, ticks[1..]);
    }
  }

  /** `status` keeps mirroring the adoption flag over any number of calls. */
  lemma {:induction false} RunKeepsMirror(a: Agent, s: Settings, ticks: seq<Tick>)
    requires Mirrored(a)
    ensures Mirrored(Run(a, s, ticks))
    decreases |ticks|
  {
    if ticks != [] {
      RunKeepsMirror(Behave(a, s, ticks[0]).agent, s, ticks[1..]);
    }
  }

  /**
    Over calls at consecutive ticks from `now`, the agent's row of the table
    receives a 1 at most once, at one of those ticks, and it receives one
    exactly when the agent goes from 0 to 1.
  */
  lemma {:induction false} AdoptionWrittenOnce(a: Agent, s: Settings, ticks: seq<Tick>, now: nat)
    ensures |AdoptionTicks(a, s, ticks, now)| <= 1
    ensures |AdoptionTicks(a, s, ticks, now)| == 1 <==> a.id == Unaware && Run(a, s, ticks).id == Adopted
    ensures forall k :: k in AdoptionTicks(a, s, ticks, now) ==> now <= k < now + |ticks|
    decreases |ticks|
  {
    if ticks != [] {
      var o := Behave(a, s, ticks[0]);
      AdoptionWrittenOnce(o.agent, s, ticks[1..], now + 1);
      if o.adopted {
        // once adopted, no later call adopts again
        RunOnlyAdopts(o.agent, s, ticks[1..]);
        NoAdoptionAfter(o.agent, s, ticks[1..], now + 1);
      }
    }
  }

  /** An agent whose flag is not 0 never causes a write into the table. */
  lemma {:induction false} NoAdoptionAfter(a: Agent, s: Settings, ticks: seq<Tick>, now: nat)
    requires a.id != Unaware
    ensures AdoptionTicks(a, s, ticks, now) == []
    decreases |ticks|
  {
    if ticks != [] {
      var o := Behave(a, s, ticks[0]);
      NoAdoptionAfter(o.agent, s, ticks[1..], now + 1);
    }
  }

  /**
    A Bass agent. `correlation` is the table shared by all agents, indexed by
    agent id and tick; the agent writes only into its own row.
  */
  class BassAgent {
    /** The agent's node id, set by the base behaviour. */
    const agentId: nat
    /** `state['id']`: the adoption flag. */
    var stateId: int
    /** `attrs['status']`: the exported mirror of the flag. */
    var status: Option<int>
    var innovationProb: real
    var imitationProb: real
    const correlation: array2<int>

    function View(): (a: Agent)
      reads this
    {
      Agent(stateId, status)
    }

    function Probabilities(): (s: Settings)
      reads this
    {
      Settings(innovationProb, imitationProb)
    }

    /** The table cell for this agent at tick `now` exists. */
    predicate HasCell(now: nat)
    {
      agentId < correlation.Length0 && now < correlation.Length1
    }

    /**
      Copies the two probabilities from the environment and writes 0 into the
      agent's cell for the environment's current tick; no other cell changes.
    */
    constructor (env: Environment, agentId: nat, stateId: int, correlation: array2<int>)
      requires agentId < correlation.Length0 && env.now < correlation.Length1
      modifies correlation
      ensures this.agentId == agentId && this.correlation == correlation
      ensures View() == Agent(stateId, None) && Mirrored(View())
      ensures Probabilities() == env.settings
      ensures correlation[agentId, env.now] == 0
      ensures forall i, j | 0 <= i < correlation.Length0 && 0 <= j < correlation.Length1
                              && (i != agentId || j != env.now) ::
                correlation[i, j] == old(correlation[i, j])
    {
      this.agentId := agentId;
      this.correlation := correlation;
      this.stateId := stateId;
      status := None;
      innovationProb := env.settings.innovationProb;
      imitationProb := env.settings.imitationProb;
      new;
      correlation[agentId, env.now] := 0;
    }

    /**
      One call of the behaviour at tick `now`, given the draws and the number
      of aware neighbours in `t`: the flag and `status` become those of
      `Behave`, and the agent's cell at `now` receives a 1 exactly when the
      flag goes from 0 to 1; every other cell is left as it was.
    */
    method Behaviour(now: nat, t: Tick)
      requires HasCell(now) && IsDraw(t.innovationDraw) && IsDraw(t.imitationDraw)
      modifies this`stateId, this`status, correlation
      ensures View() == Behave(old(View()), Probabilities(), t).agent
      ensures old(Mirrored(View())) ==> Mirrored(View())
      ensures stateId == old(stateId) || (old(stateId) == Unaware && stateId == Adopted)
      ensures correlation[agentId, now] ==
                if Behave(old(View()), Probabilities(), t).adopted then Adopted
                else old(correlation[agentId, now])
      ensures forall i, j | 0 <= i < correlation.Length0 && 0 <= j < correlation.Length1
                              && (i != agentId || j != now) ::
                correlation[i, j] == old(correlation[i, j])
    {
      if t.innovationDraw < innovationProb {
        if stateId == Unaware {
          stateId := Adopted;
          correlation[agentId, now] := Adopted;
        }
        status := Some(stateId);
        return;
      }
      if stateId == Unaware {
        if t.imitationDraw < imitationProb * t.awareCount as real {
          stateId := Adopted;
          correlation[agentId, now] := Adopted;
        }
        status := Some(stateId);
      }
    }

    /**
      The agent's step at tick `now`: the Bass behaviour, then the base
      behaviour's step (which is not part of this model).
    */
    method Step(now: nat, t: Tick)
      requires HasCell(now) && IsDraw(t.innovationDraw) && IsDraw(t.imitationDraw)
      modifies this`stateId, this`status, correlation
      ensures View() == Behave(old(View()), Probabilities(), t).agent
      ensures correlation[agentId, now] ==
                if Behave(old(View()), Probabilities(), t).adopted then Adopted
                else old(correlation[agentId, now])
      ensures forall i, j | 0 <= i < correlation.Length0 && 0 <= j < correlation.Length1
                              && (i != agentId || j != now) ::
                correlation[i, j] == old(correlation[i, j])
    {
      Behaviour(now, t);
    }
  }
}
