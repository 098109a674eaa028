/** The values the rendering of the 6-bus environment (class ANM6 in
    gym_anm/envs/anm6_env/anm6.py) reads, writes and passes around. */
module RenderTypes {

  datatype Option<+T> = None | Some(value: T)

  datatype Result<+T> = Ok(value: T) | Err(error: Error)

  /** The three rendering modes the environment accepts. */
  datatype Mode = Human | Replay | Save

  /** The text a caller passes to select a mode. */
  function ModeName(m: Mode): string {
    match m
    case Human => "human"
    case Replay => "replay"
    case Save => "save"
  }

  /** A simulation timestamp; the calendar value itself plays no role. */
  type Time = int

  /** A Python literal as `ast.literal_eval` reads it back: a number or a
      list. Network specs, state values, generation potentials and cost
      pairs are all of this shape and are otherwise opaque. */
  datatype Lit = Num(x: real) | List(items: seq<Lit>)

  /** One row of the save-mode history table. Row 0 carries the title and
      the network specs; every later row carries one rendered step. */
  datatype Row =
    | Header(title: string, specs: Lit)
    | StepRow(time: Time, stateValues: Lit, potential: Lit, costs: Lit)

  /** What one visualisation update is given. */
  datatype Frame = Frame(time: Time, stateValues: Lit, potential: Lit, costs: Lit)

  /** The per-step columns read back from a saved history, one entry per
      step row, in row order. */
  datatype Columns = Columns(stateValues: seq<Lit>, potentials: seq<Lit>, times: seq<Time>, costs: seq<Lit>)

  /** What `_unpack_history` returns: the network specs and the columns. */
  datatype Unpacked = Unpacked(specs: Lit, steps: Columns)

  /** Effects on the world outside the environment: calls to the
      visualisation server and the history file written by `close`. */
  datatype Event =
    | HtmlWritten
    | ServerStarted(title: string, specs: Lit)
    | Pushed(frame: Frame, pause: real)
    | ServerClosed
    | HistoryWritten(path: string, rows: seq<Row>)

  /** The exceptions the rendering code raises:
      NotImplemented is `NotImplementedError` (unknown mode),
      NoSavePath is the `ValueError` of `close` in save mode,
      NoServer is the `AttributeError` of reading `self.http_server` or
      `self.ws_server` before `_init_render` has ever assigned them,
      EmptyHistory is the lookup of row 0 in an empty table,
      MalformedHistory is a column the table does not have (a table of the
      header row alone has no step columns) or a field `ast.literal_eval`
      cannot read (a missing cell of the wrong kind of row). */
  datatype Error = NotImplemented | NoSavePath | NoServer | EmptyHistory | MalformedHistory

  /** The rendering part of the environment object: `render_mode`,
      `render_history`, the effects performed so far, and whether the
      server attributes `http_server` and `ws_server` have been assigned
      (they are set by the first live `_init_render` and never removed). */
  datatype RenderState = RenderState(mode: Option<Mode>, log: seq<Row>, events: seq<Event>, server: bool)

  /** The outcome of a call: it returns a value, or it raises; either way
      the object is left in some state. */
  datatype Outcome<+T> = Done(st: RenderState, value: T) | Raised(st: RenderState, error: Error)

  /** The attributes of the running environment `render` reads. */
  datatype EnvView = EnvView(
    specs: Lit,            // the rendered network specs
    time: Time,            // self.time, the end of the last step
    timestepLength: int,   // self.timestep_length
    stateValues: Lit,      // the rendered state values
    potential: Lit,        // self.P_gen_potential
    eLoss: real,           // self.e_loss
    penalty: real)         // self.penalty

  /** `type(self).__name__` for this environment. */
  const Title: string := "ANM6"

  /** The state of a freshly built environment: nothing rendered yet. */
  const Fresh: RenderState := RenderState(None, [], [], false)
}
