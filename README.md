# Bass diffusion behaviour of the soil agent-based simulator

This project models the Bass diffusion agent from soil, a network-based
agent simulation engine. Each agent holds an adoption flag (`state['id']`,
0 before adoption, 1 after) and exports a mirror of it (`attrs['status']`).
On every tick, an agent that has not adopted may adopt in one of two ways:

- by innovation, when a first random draw falls below `innovation_prob`;
- by imitation, when that draw fails and a second draw falls below
  `imitation_prob` times the number of neighbours that have already adopted.

Each adoption also writes a 1 into the agent's cell for the current tick in a
table that all agents share, indexed by agent id and tick. The constructor
writes 0 into that cell for the tick at which the agent is created.

Layout:

- `wrappers.dfy`: `Option`, used for `status` before it is first written.
- `bass_model.dfy`, module `BassModel`:
  - the pure specification `Behave`, which gives one call's new flag and
    status, whether a 0 to 1 transition happened, which branch decided and
    how many draws were consumed;
  - `Run` and `AdoptionTicks`, which repeat `Behave` over a sequence of ticks;
  - lemmas about repeated calls;
  - the class `BassAgent`, whose fields the behaviour updates in place and
    whose methods are proved against `Behave`.

The random draws and the number of aware neighbours are parameters, grouped
in a `Tick`. Each draw is required to lie in [0, 1), the range of Python's
`random.random()`. The draws are only compared against probabilities, so they
are exact reals.

## Model

| member | source | states |
|---|---|---|
| `BassModel.Behave` | models/BassModel/BassModel.py:24-46 | The innovation draw is compared first, and when it wins it decides the call alone: one draw is consumed, the flag goes to 1 if it was 0 and is kept otherwise, and status becomes the flag. The second draw is consumed exactly when the first fails on an agent with flag 0. That agent then adopts if and only if the draw is below imitation_prob × aware count, so with no aware neighbour and a draw ≥ 0 it never adopts. Either way status mirrors the flag. With flag ≠ 0 and a failed first draw, nothing changes. The only change to the flag is 0 → 1, reported as `adopted`, and "status mirrors flag" is preserved. |
| `BassModel.InnovationIgnoresImitationInputs` | models/BassModel/BassModel.py:26-34 | With a winning innovation draw, the outcome is the same whatever the imitation draw and the neighbour count are. |
| `BassModel.RunOnlyAdopts` | models/BassModel/BassModel.py:26-46 | Across any sequence of calls, the flag either keeps its value or goes from 0 to 1. An adopted agent stays adopted, and a flag other than 0 never changes. |
| `BassModel.RunKeepsMirror` | models/BassModel/BassModel.py:26-46 | Across any sequence of calls, a status that mirrors the flag keeps mirroring it. |
| `BassModel.AdoptionWrittenOnce` | models/BassModel/BassModel.py:26-46 | Over calls at consecutive ticks, the behaviour writes a 1 into the agent's row at most once. Such a write happens exactly when the agent starts at 0 and ends at 1, and at one of the ticks of the run. |
| `BassModel.NoAdoptionAfter` | models/BassModel/BassModel.py:37-46 | An agent whose flag is not 0 never causes a write into the table, however many calls follow. |
| `BassModel.BassAgent.constructor` | models/BassModel/BassModel.py:14-18 | The constructor copies both probabilities from the environment and writes 0 into the agent's cell at the environment's current tick. No other cell changes. Status starts unset. |
| `BassModel.BassAgent.Behaviour` | models/BassModel/BassModel.py:24-46 | The flag and status become those given by `Behave`. The agent's cell at `now` becomes 1 exactly when `Behave` reports a 0 → 1 transition and otherwise keeps its value. Every other cell of the shared table is unchanged. The flag only ever goes 0 → 1, and the status mirror is kept. |
| `BassModel.BassAgent.Step` | models/BassModel/BassModel.py:20-22 | A step runs the Bass behaviour, with the same effect on the flag, status and table as `Behaviour`. |

## Left out

- The base behaviour class is not part of this model. That covers
  `super().__init__`, `super().step`, `self.env`, `self.id` and
  `get_neighboring_agents`. The agent's id is a constructor argument. The
  current tick is an argument of `Behaviour` and `Step`. The neighbour query
  is used only through its length, so it is the `awareCount` of a `Tick`.
- The initial `state` and `attrs` are set by the base class, which is not
  modelled. The flag is a constructor argument, and status starts unset.
- `BassAgent.Step`: the base class's step runs after the behaviour and is not
  modelled. So `Step` states only the behaviour's effect.
- Random number generation: each `random.random()` call is a parameter in
  [0, 1). No distribution and no generator state are modelled. `Behave`
  counts the draws a call consumes (1 or 2).
- The shared table is a module-level array whose allocation and shape come
  from a package `__init__` that is not part of this model. It is an existing
  `array2<int>`, and the cell's indices are a precondition. Python's negative
  indexing and its `IndexError` are not modelled.
- Floating point: `imitation_prob * num_neighbors_aware` and the comparisons
  use exact reals.
- The table is an `array2<int>` shared by reference between agents; each
  agent writes only its own cell.
- `BassAgent.Step`: the source's `step(now)` passes `now` only to the base
  class's step, while the behaviour writes the table at `self.env.now`. The
  model's `Step` writes at its own `now`, so it takes the scheduler's `now` to
  be `self.env.now`.
- The simulation engine is not modelled: scheduler, history store, trial
  runner, configuration round-trip, graph loading and export. Its code is not
  part of this model. tests/test_main.py exercises only that engine, through
  YAML, networkx and file I/O.
