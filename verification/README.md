# gym-anm rendering lifecycle and case-format headers, in Dafny

This project models two small parts of gym-anm, a reinforcement-learning environment of a
6-bus electricity distribution network:

- **The rendering lifecycle of the `ANM6` environment** (`render`, `_init_render`,
  `_update_render`, `close`, `_unpack_history` and `replay`). It is a state machine over the
  render mode: none, `human`, `replay` or `save`. In save mode there is also an append-only
  history table. Its first row holds the title and the network specs. Each later row holds one
  rendered step: time, state values, generation potential and costs. Every call is a pure
  function from a `RenderState` to an `Outcome`. An `Outcome` either returns a value or raises
  an error, and in both cases it carries the state the object is left in. Calls to the
  visualisation server and the written history file are recorded as `Event`s. The state also
  records whether the server attributes `http_server` and `ws_server` exist. Only a live
  `_init_render` assigns them, and nothing removes them.
- **The case-format header maps** `BUS_H`, `DEV_H` and `BRANCH_H`, built with
  `dict(zip(headers, range(len(headers))))`, and the `GRID_SPECS` name list. `HeaderMap`
  models Python's `dict(zip(...))`: when a name occurs twice, the later position overwrites
  the earlier one.

Files:

- `case_headers.dfy`: module `CaseHeaders`.
- `render_types.dfy`: module `RenderTypes`, the datatypes.
- `render.dfy`: module `RenderLifecycle`, the operations.
- `render_properties.dfy`: module `RenderProperties`, properties that span several calls.

Payload values are modelled as `Lit`, which is either a number or a list. This is the shape
`ast.literal_eval` reads back. Payloads include network specs, state values, generation
potential and cost pairs. The model never computes with them.

Where the code and its documentation disagree, the model follows the code:

- The class metadata lists only `human` and `save` as render modes. `render` also accepts
  `replay`.
- The save-then-replay round trip does not reproduce the costs (see Findings).

## Model

| member | source | states |
|---|---|---|
| CaseHeaders.HeaderMap | gym_smartgrid/constants.py:3 | the keys are exactly the listed names; each key maps to a position that holds that name, and to the last such position (a later duplicate overwrites) |
| CaseHeaders.HeaderMapDistinctIndex | gym_smartgrid/constants.py:2-10 | for distinct names, each name maps to its own position |
| CaseHeaders.HeaderMapDistinctSize | gym_smartgrid/constants.py:2-10 | for distinct names, the map has exactly one key per name |
| CaseHeaders.HeaderMapDistinctValues | gym_smartgrid/constants.py:2-10 | for distinct names, the values of the map are exactly the positions 0 .. len-1 |
| CaseHeaders.HeaderMapInjective | gym_smartgrid/constants.py:3 | for any names, repeated or not, no two keys share a column |
| CaseHeaders.HeaderMapLaterDuplicateWins | gym_smartgrid/constants.py:3 | a repeated name keeps the position of its last occurrence |
| CaseHeaders.DistinctWellIndexed | gym_smartgrid/constants.py:2-10 | distinct names give a map with as many keys as names, keys equal to the names, values equal to the positions, and each name at its own position |
| CaseHeaders.BusHeadersDistinct | gym_smartgrid/constants.py:2 | no bus header occurs twice |
| CaseHeaders.DevHeadersDistinct | gym_smartgrid/constants.py:4-6 | no device header occurs twice |
| CaseHeaders.BranchHeadersDistinct | gym_smartgrid/constants.py:8-9 | no branch header occurs twice |
| CaseHeaders.BusLayout | gym_smartgrid/constants.py:2-3 | the 6 bus headers are distinct and `BUS_H` sends header i to i, with values 0..5 |
| CaseHeaders.DevLayout | gym_smartgrid/constants.py:4-7 | the 16 device headers are distinct and `DEV_H` sends header i to i, with values 0..15 |
| CaseHeaders.BranchLayout | gym_smartgrid/constants.py:8-10 | the 11 branch headers are distinct and `BRANCH_H` sends header i to i, with values 0..10 |
| CaseHeaders.BusIdIsFirstColumn | gym_smartgrid/constants.py:2-7 | `BUS_I` is column 0 in both the bus and the device layouts |
| CaseHeaders.GridSpecsShape | gym_smartgrid/constants.py:13-15 | `GRID_SPECS` has 14 distinct names |
| RenderLifecycle.ParseMode | gym_anm/envs/anm6_env/anm6.py:80-85 | a mode is accepted exactly when its name is human, replay or save, and the accepted mode has that name |
| RenderLifecycle.InitRender | gym_anm/envs/anm6_env/anm6.py:118-130 | live modes write the page, start the server and assign the server attributes; save mode replaces the history with the single header row; with no mode it raises NotImplementedError and changes nothing; the mode is never changed |
| RenderLifecycle.UpdateRender | gym_anm/envs/anm6_env/anm6.py:157-175 | live modes push exactly one frame, or raise AttributeError with no change when no server was ever started; save mode appends exactly one row, stamped `self.time` rather than the frame's time, and keeps earlier rows; with no mode it raises NotImplementedError and changes nothing |
| RenderLifecycle.Render | gym_anm/envs/anm6_env/anm6.py:78-101 | an invalid first mode raises NotImplementedError and leaves no mode; a valid first mode is set, initialised once, then updated exactly once with pause 1; a later live call without a started server raises AttributeError; any other later call keeps the mode and updates exactly once |
| RenderLifecycle.Close | gym_anm/envs/anm6_env/anm6.py:259-272 | a live close with no server ever started raises AttributeError before any change; save mode with no path raises ValueError before any change, so the mode stays save; every other close clears the mode; it returns the history exactly in save mode; live modes stop the server; save mode writes the history to the path |
| RenderLifecycle.StepColumns | gym_anm/envs/anm6_env/anm6.py:229-239 | the columns can be read exactly when every row is a step row; each column then has one entry per row, in row order |
| RenderLifecycle.Unpack | gym_anm/envs/anm6_env/anm6.py:227-241 | succeeds exactly on a header row followed by at least one step row and step rows only; the specs come from row 0; each of the four columns has n-1 entries, and entry i comes from row i+1; an empty table raises one error; a header-only table, which has no step columns, and a malformed table raise another |
| RenderLifecycle.UpdateAll | gym_anm/envs/anm6_env/anm6.py:197-198 | the update loop never changes the mode or the server attributes; with no mode, or in a live mode with no server, it raises exactly when there is a frame, and then changes nothing |
| RenderLifecycle.UpdateAllLive | gym_anm/envs/anm6_env/anm6.py:157-163 | in a live mode with a started server the loop pushes every frame in order and changes nothing else |
| RenderLifecycle.PlayBack | gym_anm/envs/anm6_env/anm6.py:189-200 | an empty, header-only or malformed history raises after the mode is already set to replay; a well-formed one starts the server, pushes one frame per step row, stops the server and clears the mode |
| RenderLifecycle.ReplayAsWritten | gym_anm/envs/anm6_env/anm6.py:177-200 | replay as written: a history that is not a header plus at least one step row raises in replay mode; otherwise n-1 pushes for an n-row history (so at least one), each given the whole cost column, between the server start and the close |
| RenderLifecycle.ReplayCorrected | gym_anm/envs/anm6_env/anm6.py:177-200 | replay with `costs[i]`: a history that is not a header plus at least one step row raises in replay mode; otherwise push i carries exactly the time, state values, potential and costs of row i+1, between the server start and the close |
| RenderProperties.ModeNamesRoundTrip | gym_anm/envs/anm6_env/anm6.py:80-85 | mode names and modes correspond one to one |
| RenderProperties.ModeArgumentIgnored | gym_anm/envs/anm6_env/anm6.py:78-101 | once a mode is set, two different mode arguments give the same outcome |
| RenderProperties.RenderAll | gym_anm/envs/anm6_env/anm6.py:78-101 | repeated renders from no mode with an invalid name raise NotImplementedError at once; a successful run leaves a mode set |
| RenderProperties.SaveSessionLog | gym_anm/envs/anm6_env/anm6.py:125-172 | k save-mode renders leave k+1 rows: the header, then one row per call in order, and no server events |
| RenderProperties.HumanSessionEvents | gym_anm/envs/anm6_env/anm6.py:78-163 | k human-mode renders start the server once and push k frames, the first with pause 1 and the rest with the caller's pause |
| RenderProperties.SavedLogShape | gym_anm/envs/anm6_env/anm6.py:165-172 | the log of a save session of k >= 1 renders is well formed: k+1 rows, with row i+1 the row of step i |
| RenderProperties.SaveSessionClose | gym_anm/envs/anm6_env/anm6.py:264-270 | a save session closed with a path clears the mode, writes its log to the path and returns it; that log is the header followed by one row per rendered step |
| RenderProperties.UnpackSavedRows | gym_anm/envs/anm6_env/anm6.py:227-241 | unpacking a saved log gives back the specs and, for every step, its time, state values, potential and cost pair |
| RenderProperties.ReplayedFrame | gym_anm/envs/anm6_env/anm6.py:166-169 | the frame replayed for a saved step equals the live frame of that step, except that it is stamped one `timestep_length` later (`self.time` is saved where `self.time - timestep_length` is pushed live) |
| RenderProperties.ReplaySavedRows | gym_anm/envs/anm6_env/anm6.py:197-198 | a log shaped like a save session replays, with per-step costs, one frame per step: the replayed frame of that step |
| RenderProperties.SaveReplayRoundTrip | gym_anm/envs/anm6_env/anm6.py:189-200 | save, close, then corrected replay: the page is written and the server started once with the saved specs, one replayed frame is pushed per rendered step, in order, the server is closed, nothing else happens, and the mode ends cleared |
| RenderProperties.AsWrittenReplayLosesStepCosts | gym_anm/envs/anm6_env/anm6.py:198 | the as-written replay never pushes a saved cost pair: every push differs from its row's costs |
| RenderProperties.AsWrittenReplayExample | gym_anm/envs/anm6_env/anm6.py:198 | a concrete one-step history saved with costs [0, 0] is replayed with costs [[0, 0]] |
| RenderProperties.HeaderOnlyHistoryRaises | gym_anm/envs/anm6_env/anm6.py:227-229 | a table of the header row alone (what `_init_render` builds in save mode) has no step columns: unpacking it fails, and replay raises with the mode already set to replay |
| RenderProperties.FailedReplayStrandsMode | gym_anm/envs/anm6_env/anm6.py:189-193 | a replay whose history cannot be read, on an object that never started a server, leaves replay mode set; every later render and close then raises AttributeError, until a replay of a readable history succeeds and clears the mode |
| RenderProperties.CloseTwice | gym_anm/envs/anm6_env/anm6.py:259-272 | after a close that did not raise, a second close changes nothing and returns nothing |

## Left out

- Visualisation server calls (`rendering.write_html`, `start`, `update`, `close`). They are
  recorded as `Event` values. The server objects and their network addresses are not modelled.
- `time.sleep` pacing is not modelled. The requested pause is kept in each `Pushed` event. The
  `ValueError` that `time.sleep` raises after the push for a negative pause is not modelled either:
  such an update is reported as done.
- pandas and file I/O are not modelled. The history table is a sequence of `Row`s.
  `to_csv`/`read_csv` are the identity on rows. `ast.literal_eval` and `datetime.strptime`
  read back exactly what was written. A table row that fills both column groups cannot be
  represented. A missing file is not modelled.
- `self.reset()` at the start of `replay` belongs to the numerical environment base class,
  which is not part of this model. `replay` takes `self.time` after the reset as a parameter,
  and replay mode never reads it.
- The numerical environment (`ANMEnv`, the network, P, Q, SoC, `e_loss`, `penalty`) is not
  part of this model. `EnvView` supplies the values `render` reads as opaque payloads.
- The selection of rendered specs and state values through `RENDERED_NETWORK_SPECS` and
  `RENDERED_STATE_VALUES` is not modelled. Those constants live in a module that is not part of
  this model, so the selected values come directly from `EnvView`.
- The title is fixed to `ANM6` (`type(self).__name__`). Subclasses are not modelled.
- `metadata['render.modes']` is static metadata and not modelled. It lists only human and save.
- The base environment class is not part of this model. The model assumes it starts with no
  render mode and does not assign `http_server` or `ws_server`, so a fresh object has no
  server attributes.
- The default arguments of `render` (`mode='human'`, `sleep_time=0.`), `replay`
  (`sleep_time=0.1`) and `close` (`path=None`) are not modelled. The model's callers pass every
  argument. `PlayBack` passes `None` as the path of its `close`, as `self.close()` does.
- `__init__` only forwards constants to the base class. It is not modelled beyond the
  `Fresh` state.
- `RenderLifecycle.Unpack`: every failure of `ast.literal_eval` and `strptime` on a cell is
  modelled as the single error `MalformedHistory`.

## Findings

| source | as written | input that shows it | evidently intended | confidence | as-written member | corrected member |
|---|---|---|---|---|---|---|
| gym_anm/envs/anm6_env/anm6.py:198 | `replay` passes `costs`, the list of every step's cost pair, to each `_update_render` call | a saved history with one step whose costs are `[0, 0]`: the update receives `[[0, 0]]` (`RenderProperties.AsWrittenReplayExample`) | `costs[i]`, the pair of step i, the same shape `render` passes (`[e_loss, penalty]`) | medium, not executed | RenderLifecycle.ReplayAsWritten | RenderLifecycle.ReplayCorrected |
