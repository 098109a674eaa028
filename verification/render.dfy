/** The rendering lifecycle of the 6-bus environment: `render`,
    `_init_render`, `_update_render`, `close`, `_unpack_history` and
    `replay` of class ANM6 (gym_anm/envs/anm6_env/anm6.py), as pure
    transitions of a `RenderState`. */
module RenderLifecycle {
  import opened RenderTypes

  /** The mode names `render` accepts on its first call. */
  function ParseMode(name: string): (m: Option<Mode>)
    ensures m.Some? <==> name in {"human", "replay", "save"}
    ensures m.Some? ==> ModeName(m.value) == name
  {
    if name == "human" then Some(Human)
    else if name == "replay" then Some(Replay)
    else if name == "save" then Some(Save)
    else None
  }

  /** Human and replay modes drive the visualisation server. */
  predicate Live(m: Option<Mode>) {
    m.Some? && m.value != Save
  }

  /** The cost pair `[e_loss, penalty]` of the current step. */
  function LiveCosts(env: EnvView): Lit {
    List([Num(env.eLoss), Num(env.penalty)])
  }

  /** What `render` hands to `_update_render`: it is stamped with the start
      of the last step, `self.time - self.timestep_length`. */
  function LiveFrame(env: EnvView): Frame {
    Frame(env.time - env.timestepLength, env.stateValues, env.potential, LiveCosts(env))
  }

  /** The row save mode appends for the current step. */
  function LiveRow(env: EnvView): (row: Row)
    ensures row.StepRow? && row.time == env.time
    ensures row.stateValues == LiveFrame(env).stateValues
    ensures row.potential == LiveFrame(env).potential && row.costs == LiveFrame(env).costs
  {
    StepRow(env.time, env.stateValues, env.potential, LiveCosts(env))
  }

  /** `_init_render`: start the server in a live mode, which assigns the
      server attributes, start a one-row history in save mode, raise when
      no mode is set. */
  function InitRender(st: RenderState, specs: Lit): (r: Outcome<()>)
    ensures r.st.mode == st.mode
    ensures r.Raised? <==> st.mode.None?
    ensures r.Raised? ==> r == Raised(st, NotImplemented)
    ensures Live(st.mode) ==> r.st.log == st.log && r.st.server
    ensures Live(st.mode) ==> r.st.events == st.events + [HtmlWritten, ServerStarted(Title, specs)]
    ensures st.mode == Some(Save) ==>
              r.st.log == [Header(Title, specs)] && r.st.events == st.events && r.st.server == st.server
  {
    match st.mode
    case Some(Human) | Some(Replay) =>
      Done(st.(events := st.events + [HtmlWritten, ServerStarted(Title, specs)], server := true), ())
    case Some(Save) =>
      Done(st.(log := [Header(Title, specs)]), ())
    case None =>
      Raised(st, NotImplemented)
  }

  /** `_update_render`: push one frame in a live mode, append one row in
      save mode, raise when no mode is set. A live push reads
      `self.ws_server`, so it raises when no server was ever started. A
      saved row is stamped with `now` (`self.time`), not with the frame's
      time. */
  function UpdateRender(st: RenderState, now: Time, frame: Frame, sleepTime: real): (r: Outcome<()>)
    ensures r.st.mode == st.mode && r.st.server == st.server
    ensures r.Raised? <==> st.mode.None? || (Live(st.mode) && !st.server)
    ensures st.mode.None? ==> r == Raised(st, NotImplemented)
    ensures Live(st.mode) && !st.server ==> r == Raised(st, NoServer)
    ensures Live(st.mode) && st.server ==>
              r.st.log == st.log && r.st.events == st.events + [Pushed(frame, sleepTime)]
    ensures st.mode == Some(Save) ==>
              && r.st.events == st.events
              && r.st.log == st.log + [StepRow(now, frame.stateValues, frame.potential, frame.costs)]
  {
    match st.mode
    case Some(Human) | Some(Replay) =>
      if !st.server then Raised(st, NoServer)
      else Done(st.(events := st.events + [Pushed(frame, sleepTime)]), ())
    case Some(Save) =>
      Done(st.(log := st.log + [StepRow(now, frame.stateValues, frame.potential, frame.costs)]), ())
    case None =>
      Raised(st, NotImplemented)
  }

  /** `render`. On the first call (no mode yet) the mode name is checked,
      the mode is set, the rendering is initialised and the method calls
      itself once with a pause of 1, which then takes the update branch.
      On every later call the mode name is ignored and exactly one update
      is made in the established mode. */
  function Render(st: RenderState, env: EnvView, mode: string, sleepTime: real): (r: Outcome<()>)
    // An unknown mode on the first call raises and sets nothing.
    ensures st.mode.None? && ParseMode(mode).None? ==> r == Raised(st, NotImplemented)
    // A valid first call sets the mode, initialises once and updates once.
    ensures st.mode.None? && ParseMode(mode).Some? ==>
              && r.Done?
              && r.st.mode == ParseMode(mode)
              && (ParseMode(mode) == Some(Save) ==>
                    && r.st.log == [Header(Title, env.specs), LiveRow(env)]
                    && r.st.events == st.events
                    && r.st.server == st.server)
              && (ParseMode(mode) != Some(Save) ==>
                    && r.st.log == st.log
                    && r.st.events == st.events + [HtmlWritten, ServerStarted(Title, env.specs), Pushed(LiveFrame(env), 1.0)]
                    && r.st.server)
    // A later live call on an object that never started a server raises.
    ensures Live(st.mode) && !st.server ==> r == Raised(st, NoServer)
    // Any other later call keeps the mode and updates exactly once.
    ensures st.mode.Some? && (st.mode == Some(Save) || st.server) ==>
              && r.Done?
              && r.st.mode == st.mode
              && (st.mode == Some(Save) ==> r.st.log == st.log + [LiveRow(env)] && r.st.events == st.events)
              && (st.mode != Some(Save) ==> r.st.log == st.log && r.st.events == st.events + [Pushed(LiveFrame(env), sleepTime)])
    decreases if st.mode.None? then 1 else 0
  {
    if st.mode.None? then
      match ParseMode(mode)
      case None => Raised(st, NotImplemented)
      case Some(m) =>
        var st1 := st.(mode := Some(m), log := if m == Save then [] else st.log);
        match InitRender(st1, env.specs)
        case Raised(st2, e) => Raised(st2, e)
        case Done(st2, _) => Render(st2, env, mode, 1.0)
    else
      UpdateRender(st, env.time, LiveFrame(env), sleepTime)
  }

  /** `close`: stop the server in a live mode, raising before anything
      changes when no server was ever started; in save mode write the
      history to `path` and return it, raising before anything changes when
      no path is given; then clear the mode. */
  function Close(st: RenderState, path: Option<string>): (r: Outcome<Option<seq<Row>>>)
    ensures r.st.server == st.server
    ensures Live(st.mode) && !st.server ==> r == Raised(st, NoServer)
    ensures st.mode == Some(Save) && path.None? ==> r == Raised(st, NoSavePath)
    ensures !(st.mode == Some(Save) && path.None?) && !(Live(st.mode) && !st.server) ==>
              && r.Done?
              && r.st.mode.None?
              && r.st.log == st.log
              && (r.value.Some? <==> st.mode == Some(Save))
              && (r.value.Some? ==> r.value.value == st.log)
    ensures Live(st.mode) && st.server ==> r.st.events == st.events + [ServerClosed]
    ensures st.mode == Some(Save) && path.Some? ==> r.st.events == st.events + [HistoryWritten(path.value, st.log)]
    ensures st.mode.None? ==> r == Done(st, None)
  {
    if Live(st.mode) && !st.server then Raised(st, NoServer)
    else
      var st1 := if Live(st.mode) then st.(events := st.events + [ServerClosed]) else st;
      if st1.mode == Some(Save) then
        if path.None? then Raised(st1, NoSavePath)
        else Done(st1.(mode := None, events := st1.events + [HistoryWritten(path.value, st1.log)]), Some(st1.log))
      else
        Done(st1.(mode := None), None)
  }

  /** The shape a save session writes: a header row, then at least one
      step row and step rows only. A table of the header row alone has no
      step columns at all. */
  predicate WellFormedHistory(history: seq<Row>) {
    && |history| >= 2
    && history[0].Header?
    && forall i :: 1 <= i < |history| ==> history[i].StepRow?
  }

  /** The per-step columns are equally long. */
  predicate Aligned(c: Columns) {
    && |c.potentials| == |c.stateValues|
    && |c.times| == |c.stateValues|
    && |c.costs| == |c.stateValues|
  }

  /** Reads the four per-step columns off a run of step rows; a row of the
      other kind has no value to read and fails. */
  function StepColumns(rows: seq<Row>): (r: Option<Columns>)
    ensures r.Some? <==> forall i :: 0 <= i < |rows| ==> rows[i].StepRow?
    ensures r.Some? ==> Aligned(r.value) && |r.value.stateValues| == |rows|
    ensures r.Some? ==> forall i :: 0 <= i < |rows| ==>
              && r.value.stateValues[i] == rows[i].stateValues
              && r.value.potentials[i] == rows[i].potential
              && r.value.times[i] == rows[i].time
              && r.value.costs[i] == rows[i].costs
  {
    if |rows| == 0 then Some(Columns([], [], [], []))
    else if !rows[0].StepRow? then None
    else
      match StepColumns(rows[1..])
      case None => None
      case Some(c) =>
        Some(Columns([rows[0].stateValues] + c.stateValues,
                     [rows[0].potential] + c.potentials,
                     [rows[0].time] + c.times,
                     [rows[0].costs] + c.costs))
  }

  /** `_unpack_history`: the specs from row 0 and the per-step columns from
      rows 1 .. n-1. A table of one row lacks the step columns, and reading
      `history.state_values` fails. */
  function Unpack(history: seq<Row>): (r: Result<Unpacked>)
    ensures r.Ok? <==> WellFormedHistory(history)
    ensures |history| == 0 ==> r == Err(EmptyHistory)
    ensures |history| == 1 ==> r == Err(MalformedHistory)
    ensures |history| > 0 && !WellFormedHistory(history) ==> r == Err(MalformedHistory)
    ensures r.Ok? ==>
              && r.value.specs == history[0].specs
              && Aligned(r.value.steps)
              && |r.value.steps.stateValues| == |history| - 1
              && forall i :: 0 <= i < |history| - 1 ==>
                   && r.value.steps.stateValues[i] == history[i + 1].stateValues
                   && r.value.steps.potentials[i] == history[i + 1].potential
                   && r.value.steps.times[i] == history[i + 1].time
                   && r.value.steps.costs[i] == history[i + 1].costs
  {
    if |history| == 0 then Err(EmptyHistory)
    else if !history[0].Header? || |history| == 1 then Err(MalformedHistory)
    else
      match StepColumns(history[1..])
      case None => Err(MalformedHistory)
      case Some(c) => Ok(Unpacked(history[0].specs, c))
  }

  /** The frames the replay loop pushes, `for i in range(len(obs))`. With
      `perStepCosts` false every frame carries the whole cost column, as
      the loop is written; with it true frame i carries the i-th cost. */
  function ReplayFrames(c: Columns, perStepCosts: bool): (frames: seq<Frame>)
    requires Aligned(c)
  {
    seq(|c.stateValues|, i requires 0 <= i < |c.stateValues| =>
      Frame(c.times[i], c.stateValues[i], c.potentials[i], if perStepCosts then c.costs[i] else List(c.costs)))
  }

  /** One `Pushed` event per frame, in order. */
  function Pushes(frames: seq<Frame>, sleepTime: real): seq<Event> {
    if |frames| == 0 then [] else [Pushed(frames[0], sleepTime)] + Pushes(frames[1..], sleepTime)
  }

  lemma {:induction false} PushesIndex(frames: seq<Frame>, sleepTime: real)
    ensures |Pushes(frames, sleepTime)| == |frames|
    ensures forall i :: 0 <= i < |frames| ==> Pushes(frames, sleepTime)[i] == Pushed(frames[i], sleepTime)
  {
    if |frames| > 0 {
      PushesIndex(frames[1..], sleepTime);
    }
  }

  /** The replay loop: `_update_render` once per frame, in order, stopping
      at the first exception. */
  function UpdateAll(st: RenderState, now: Time, frames: seq<Frame>, sleepTime: real): (r: Outcome<()>)
    ensures r.st.mode == st.mode && r.st.server == st.server
    ensures st.mode.None? || (Live(st.mode) && !st.server) ==> r.st == st && (r.Raised? <==> |frames| > 0)
    decreases |frames|
  {
    if |frames| == 0 then Done(st, ())
    else
      var first := UpdateRender(st, now, frames[0], sleepTime);
      if first.Raised? then first
      else UpdateAll(first.st, now, frames[1..], sleepTime)
  }

  /** In a live mode with a started server the loop pushes every frame, in
      order, and nothing else. */
  lemma {:induction false} UpdateAllLive(st: RenderState, now: Time, frames: seq<Frame>, sleepTime: real)
    requires Live(st.mode) && st.server
    ensures UpdateAll(st, now, frames, sleepTime) == Done(st.(events := st.events + Pushes(frames, sleepTime)), ())
    decreases |frames|
  {
    if |frames| == 0 {
      assert st.events + Pushes(frames, sleepTime) == st.events;
    } else {
      var st1 := st.(events := st.events + [Pushed(frames[0], sleepTime)]);
      UpdateAllLive(st1, now, frames[1..], sleepTime);
      assert st.events + Pushes(frames, sleepTime) == st1.events + Pushes(frames[1..], sleepTime);
    }
  }

  /** `replay`: set the mode to replay, read the history back, initialise,
      push every step and close. `now` is `self.time` after the reset,
      which the replay mode never reads. */
  function PlayBack(st: RenderState, now: Time, history: seq<Row>, sleepTime: real, perStepCosts: bool): (r: Outcome<()>)
    ensures !WellFormedHistory(history) ==>
              r == Raised(st.(mode := Some(Replay)), if |history| == 0 then EmptyHistory else MalformedHistory)
    ensures WellFormedHistory(history) ==>
              && r.Done?
              && r.st.mode.None?
              && r.st.log == st.log
              && r.st.server
              && r.st.events ==
                   st.events
                   + [HtmlWritten, ServerStarted(Title, history[0].specs)]
                   + Pushes(ReplayFrames(Unpack(history).value.steps, perStepCosts), sleepTime)
                   + [ServerClosed]
  {
    var st1 := st.(mode := Some(Replay));
    match Unpack(history)
    case Err(e) => Raised(st1, e)
    case Ok(u) =>
      match InitRender(st1, u.specs)
      case Raised(st2, e) => Raised(st2, e)
      case Done(st2, _) =>
        var frames := ReplayFrames(u.steps, perStepCosts);
        UpdateAllLive(st2, now, frames, sleepTime);
        match UpdateAll(st2, now, frames, sleepTime)
        case Raised(st3, e) => Raised(st3, e)
        case Done(st3, _) =>
          match Close(st3, None)
          case Raised(st4, e) => Raised(st4, e)
          case Done(st4, _) => Done(st4, ())
  }

  /** The cost column of a well-formed history, row by row. */
  function CostColumn(history: seq<Row>): (costs: seq<Lit>)
    requires WellFormedHistory(history)
  {
    seq(|history| - 1, i requires 0 <= i < |history| - 1 => history[i + 1].costs)
  }

  /** `replay` as written: step i is pushed with the whole cost column. */
  function ReplayAsWritten(st: RenderState, now: Time, history: seq<Row>, sleepTime: real): (r: Outcome<()>)
    ensures !WellFormedHistory(history) ==> r.Raised? && r.st.mode == Some(Replay)
    ensures WellFormedHistory(history) ==>
              && r.Done? && r.st.mode.None?
              && |r.st.events| == |st.events| + |history| + 2
              && r.st.events[..|st.events|] == st.events
              && r.st.events[|st.events|] == HtmlWritten
              && r.st.events[|st.events| + 1] == ServerStarted(Title, history[0].specs)
              && r.st.events[|r.st.events| - 1] == ServerClosed
              && forall j :: 1 <= j < |history| ==>
                   r.st.events[|st.events| + 1 + j] ==
                     Pushed(Frame(history[j].time, history[j].stateValues,
                                  history[j].potential, List(CostColumn(history))), sleepTime)
  {
    if WellFormedHistory(history) then
      PushesIndex(ReplayFrames(Unpack(history).value.steps, false), sleepTime);
      assert Unpack(history).value.steps.costs == CostColumn(history);
      PlayBack(st, now, history, sleepTime, false)
    else
      PlayBack(st, now, history, sleepTime, false)
  }

  /** `replay` with step i pushed with its own cost pair, `costs[i]`. */
  function ReplayCorrected(st: RenderState, now: Time, history: seq<Row>, sleepTime: real): (r: Outcome<()>)
    ensures !WellFormedHistory(history) ==> r.Raised? && r.st.mode == Some(Replay)
    ensures WellFormedHistory(history) ==>
              && r.Done? && r.st.mode.None?
              && |r.st.events| == |st.events| + |history| + 2
              && r.st.events[..|st.events|] == st.events
              && r.st.events[|st.events|] == HtmlWritten
              && r.st.events[|st.events| + 1] == ServerStarted(Title, history[0].specs)
              && r.st.events[|r.st.events| - 1] == ServerClosed
              && forall j :: 1 <= j < |history| ==>
                   r.st.events[|st.events| + 1 + j] ==
                     Pushed(Frame(history[j].time, history[j].stateValues,
                                  history[j].potential, history[j].costs), sleepTime)
  {
    if WellFormedHistory(history) then
      PushesIndex(ReplayFrames(Unpack(history).value.steps, true), sleepTime);
      PlayBack(st, now, history, sleepTime, true)
    else
      PlayBack(st, now, history, sleepTime, true)
  }
}
