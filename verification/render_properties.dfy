/** Properties of render sessions that span several calls: the mode name
    matters only once, a save session's log grows by one row per call, and
    a saved log replays the steps that were rendered. */
module RenderProperties {
  import opened RenderTypes
  import opened RenderLifecycle

  /** The mode names and the modes correspond one to one. */
  lemma ModeNamesRoundTrip(m: Mode, name: string)
    ensures ParseMode(ModeName(m)) == Some(m)
    ensures ParseMode(name).Some? ==> ModeName(ParseMode(name).value) == name
  {
  }

  /** Once a mode is set, the mode argument of `render` has no effect. */
  lemma ModeArgumentIgnored(st: RenderState, env: EnvView, a: string, b: string, sleepTime: real)
    requires st.mode.Some?
    ensures Render(st, env, a, sleepTime) == Render(st, env, b, sleepTime)
  {
  }

  /** The agent loop: `render` called once per environment step, in order,
      stopping at the first exception. */
  function RenderAll(st: RenderState, envs: seq<EnvView>, mode: string, sleepTime: real): (r: Outcome<()>)
    ensures st.mode.None? && ParseMode(mode).None? && |envs| > 0 ==> r == Raised(st, NotImplemented)
    ensures r.Done? && |envs| > 0 ==> r.st.mode.Some?
    decreases |envs|
  {
    if |envs| == 0 then Done(st, ())
    else
      match RenderAll(st, envs[..|envs| - 1], mode, sleepTime)
      case Raised(s, e) => Raised(s, e)
      case Done(s, _) => Render(s, envs[|envs| - 1], mode, sleepTime)
  }

  /** The rows a save session records for each rendered step. */
  function LiveRows(envs: seq<EnvView>): (rows: seq<Row>)
  {
    seq(|envs|, i requires 0 <= i < |envs| => LiveRow(envs[i]))
  }

  /** k renders in save mode leave a log of k+1 rows: the header written by
      the first call, then one row per call in order; nothing is sent to
      the server. */
  lemma {:induction false} SaveSessionLog(st: RenderState, envs: seq<EnvView>, sleepTime: real)
    requires st.mode.None?
    requires |envs| >= 1
    ensures RenderAll(st, envs, "save", sleepTime).Done?
    ensures RenderAll(st, envs, "save", sleepTime).st ==
              RenderState(Some(Save), SavedLog(envs[0].specs, envs), st.events, st.server)
    decreases |envs|
  {
    var n := |envs| - 1;
    if n == 0 {
      assert envs[..0] == [];
      assert SavedLog(envs[0].specs, envs) == [Header(Title, envs[0].specs), LiveRow(envs[0])];
    } else {
      SaveSessionLog(st, envs[..n], sleepTime);
      assert envs[..n][0] == envs[0];
      assert LiveRows(envs) == LiveRows(envs[..n]) + [LiveRow(envs[n])];
    }
  }

  /** The live frames a human-mode session pushes after the first one. */
  function LivePushes(envs: seq<EnvView>, sleepTime: real): (evs: seq<Event>)
  {
    seq(|envs|, i requires 0 <= i < |envs| => Pushed(LiveFrame(envs[i]), sleepTime))
  }

  /** k renders in human mode start the server once and push k frames:
      the first with a pause of 1, the others with the caller's pause. */
  lemma {:induction false} HumanSessionEvents(st: RenderState, envs: seq<EnvView>, sleepTime: real)
    requires st.mode.None?
    requires |envs| >= 1
    ensures RenderAll(st, envs, "human", sleepTime).Done?
    ensures RenderAll(st, envs, "human", sleepTime).st ==
              RenderState(Some(Human), st.log,
                st.events + [HtmlWritten, ServerStarted(Title, envs[0].specs), Pushed(LiveFrame(envs[0]), 1.0)]
                + LivePushes(envs[1..], sleepTime),
                true)
    decreases |envs|
  {
    var n := |envs| - 1;
    if n == 0 {
      assert envs[..0] == [];
      assert LivePushes(envs[1..], sleepTime) == [];
    } else {
      HumanSessionEvents(st, envs[..n], sleepTime);
      assert envs[..n][0] == envs[0];
      assert envs[..n][1..] == envs[1..n];
      assert LivePushes(envs[1..], sleepTime) == LivePushes(envs[1..n], sleepTime) + [Pushed(LiveFrame(envs[n]), sleepTime)];
    }
  }

  /** The log a save session writes: a header, then the live rows. */
  function SavedLog(specs: Lit, envs: seq<EnvView>): seq<Row> {
    [Header(Title, specs)] + LiveRows(envs)
  }

  /** Row i+1 of a saved log is the row of step i. A save session renders
      at least once, and so writes at least one step row. */
  lemma SavedLogShape(specs: Lit, envs: seq<EnvView>)
    requires |envs| >= 1
    ensures WellFormedHistory(SavedLog(specs, envs))
    ensures |SavedLog(specs, envs)| == |envs| + 1
    ensures forall i :: 0 <= i < |envs| ==> SavedLog(specs, envs)[i + 1] == LiveRow(envs[i])
  {
    var log := SavedLog(specs, envs);
    assert forall j :: 1 <= j < |log| ==> log[j] == LiveRow(envs[j - 1]);
  }

  /** A log of the shape a save session writes unpacks into the specs of
      its header and the values of its step rows. */
  lemma UnpackSavedRows(specs: Lit, envs: seq<EnvView>)
    requires |envs| >= 1
    ensures var u := Unpack(SavedLog(specs, envs));
            && u.Ok?
            && u.value.specs == specs
            && |u.value.steps.stateValues| == |envs|
            && forall i :: 0 <= i < |envs| ==>
                 && u.value.steps.times[i] == envs[i].time
                 && u.value.steps.stateValues[i] == envs[i].stateValues
                 && u.value.steps.potentials[i] == envs[i].potential
                 && u.value.steps.costs[i] == LiveCosts(envs[i])
  {
    var log := SavedLog(specs, envs);
    SavedLogShape(specs, envs);
    var u := Unpack(log).value;
    forall i | 0 <= i < |envs|
      ensures u.steps.times[i] == envs[i].time
      ensures u.steps.stateValues[i] == envs[i].stateValues
      ensures u.steps.potentials[i] == envs[i].potential
      ensures u.steps.costs[i] == LiveCosts(envs[i])
    {
      assert log[i + 1] == LiveRow(envs[i]);
    }
  }

  /** A save session followed by `close(path)` clears the mode, writes its
      log to `path` and returns it; that log is the header followed by one
      row per rendered step. */
  lemma SaveSessionClose(st: RenderState, envs: seq<EnvView>, sleepTime: real, path: string)
    requires st.mode.None?
    requires |envs| >= 1
    ensures var s := RenderAll(st, envs, "save", sleepTime).st;
            var c := Close(s, Some(path));
            && c.Done?
            && c.st.mode.None?
            && c.value == Some(s.log)
            && c.st.events == s.events + [HistoryWritten(path, s.log)]
            && |s.log| == |envs| + 1
            && s.log == SavedLog(envs[0].specs, envs)
  {
    SaveSessionLog(st, envs, sleepTime);
  }

  /** The frame a replay shows for a saved step: the live frame of that
      step, stamped one `timestep_length` later, since a saved row carries
      `self.time` where `render` pushes `self.time - timestep_length`. */
  function ReplayedFrame(env: EnvView): (f: Frame)
    ensures f.time == LiveFrame(env).time + env.timestepLength
    ensures f.stateValues == LiveFrame(env).stateValues
    ensures f.potential == LiveFrame(env).potential
    ensures f.costs == LiveFrame(env).costs
  {
    Frame(env.time, env.stateValues, env.potential, LiveCosts(env))
  }

  /** A log of the shape a save session writes replays, with per-step
      costs, one frame per step row carrying that row's values. */
  lemma ReplaySavedRows(st: RenderState, log: seq<Row>, envs: seq<EnvView>, now: Time, pause: real)
    requires WellFormedHistory(log)
    requires |log| == |envs| + 1
    requires forall i :: 0 <= i < |envs| ==> log[i + 1] == LiveRow(envs[i])
    ensures var r := ReplayCorrected(st, now, log, pause);
            && r.Done?
            && r.st.mode.None?
            && |r.st.events| == |st.events| + |envs| + 3
            && forall i :: 0 <= i < |envs| ==>
                 r.st.events[|st.events| + 2 + i] ==
                   Pushed(ReplayedFrame(envs[i]), pause)
  {
    var r := ReplayCorrected(st, now, log, pause);
    forall i | 0 <= i < |envs|
      ensures r.st.events[|st.events| + 2 + i] ==
                Pushed(ReplayedFrame(envs[i]), pause)
    {
      var j := i + 1;
      assert log[j] == LiveRow(envs[i]);
      assert r.st.events[|st.events| + 1 + j] ==
               Pushed(Frame(log[j].time, log[j].stateValues, log[j].potential, log[j].costs), pause);
    }
  }

  /** Save, close, then replay with per-step costs: the replay writes the
      page, starts the server once with the saved specs, pushes one frame
      per rendered step, the `ReplayedFrame` of that step, and closes the
      server; nothing else happens. */
  lemma SaveReplayRoundTrip(st: RenderState, envs: seq<EnvView>, sleepTime: real, path: string,
                            now: Time, replayPause: real)
    requires st.mode.None?
    requires |envs| >= 1
    ensures var s := RenderAll(st, envs, "save", sleepTime).st;
            var c := Close(s, Some(path));
            var r := ReplayCorrected(c.st, now, s.log, replayPause);
            && r.Done?
            && r.st.mode.None?
            && |r.st.events| == |c.st.events| + |envs| + 3
            && r.st.events[..|c.st.events|] == c.st.events
            && r.st.events[|c.st.events|] == HtmlWritten
            && r.st.events[|c.st.events| + 1] == ServerStarted(Title, envs[0].specs)
            && (forall i :: 0 <= i < |envs| ==>
                  r.st.events[|c.st.events| + 2 + i] == Pushed(ReplayedFrame(envs[i]), replayPause))
            && r.st.events[|r.st.events| - 1] == ServerClosed
  {
    SaveSessionClose(st, envs, sleepTime, path);
    var s := RenderAll(st, envs, "save", sleepTime).st;
    var log := SavedLog(envs[0].specs, envs);
    assert s.log == log;
    SavedLogShape(envs[0].specs, envs);
    ReplaySavedRows(Close(s, Some(path)).st, log, envs, now, replayPause);
  }

  /** A push of a step row's values under some other cost value. */
  predicate StepCostsLost(ev: Event, row: Row) {
    && ev.Pushed? && row.StepRow?
    && ev.frame.time == row.time
    && ev.frame.stateValues == row.stateValues
    && ev.frame.potential == row.potential
    && ev.frame.costs != row.costs
  }

  /** The replay as written never shows a saved cost pair: each step is
      pushed with the whole cost column, which contains that step's pair
      and so differs from it. */
  lemma AsWrittenReplayLosesStepCosts(st: RenderState, now: Time, history: seq<Row>, sleepTime: real)
    requires WellFormedHistory(history)
    ensures forall j :: 1 <= j < |history| ==>
              StepCostsLost(ReplayAsWritten(st, now, history, sleepTime).st.events[|st.events| + 1 + j], history[j])
  {
    var r := ReplayAsWritten(st, now, history, sleepTime);
    var col := CostColumn(history);
    forall j | 1 <= j < |history|
      ensures StepCostsLost(r.st.events[|st.events| + 1 + j], history[j])
    {
      assert r.st.events[|st.events| + 1 + j] ==
               Pushed(Frame(history[j].time, history[j].stateValues, history[j].potential, List(col)), sleepTime);
      assert col[j - 1] == history[j].costs;
      assert col[j - 1] in List(col).items;
    }
  }

  /** A concrete one-step history: the as-written replay pushes `[[0, 0]]`
      where `[0, 0]` was saved. */
  lemma AsWrittenReplayExample()
    ensures var pair := List([Num(0.0), Num(0.0)]);
            var h := [Header(Title, List([])), StepRow(0, List([]), List([]), pair)];
            var r := ReplayAsWritten(Fresh, 0, h, 0.0);
            && r.st.events[2] == Pushed(Frame(0, List([]), List([]), List([pair])), 0.0)
            && r.st.events[2].frame.costs != pair
  {
    var pair := List([Num(0.0), Num(0.0)]);
    var h := [Header(Title, List([])), StepRow(0, List([]), List([]), pair)];
    assert CostColumn(h) == [pair];
    assert pair in List([pair]).items;
  }

  /** A table of the header row alone, what `close` would write had no
      step been rendered, cannot be read back: replay raises once the mode
      is already set to replay. */
  lemma HeaderOnlyHistoryRaises(st: RenderState, now: Time, specs: Lit, sleepTime: real, perStepCosts: bool)
    ensures Unpack([Header(Title, specs)]) == Err(MalformedHistory)
    ensures PlayBack(st, now, [Header(Title, specs)], sleepTime, perStepCosts) ==
              Raised(st.(mode := Some(Replay)), MalformedHistory)
  {
  }

  /** A replay that fails to read its history before any server was ever
      started leaves the object in replay mode with no server: every later
      `render` and `close` raises, until a replay of a readable history
      starts a server and clears the mode. */
  lemma FailedReplayStrandsMode(st: RenderState, now: Time, history: seq<Row>, sleepTime: real,
                                perStepCosts: bool, env: EnvView, mode: string, path: Option<string>,
                                readable: seq<Row>)
    requires !st.server
    requires !WellFormedHistory(history)
    ensures var f := PlayBack(st, now, history, sleepTime, perStepCosts).st;
            && f.mode == Some(Replay)
            && Render(f, env, mode, sleepTime) == Raised(f, NoServer)
            && Close(f, path) == Raised(f, NoServer)
            && (WellFormedHistory(readable) ==>
                  && PlayBack(f, now, readable, sleepTime, perStepCosts).Done?
                  && PlayBack(f, now, readable, sleepTime, perStepCosts).st.mode.None?)
  {
  }

  /** A `close` that did not raise leaves no mode, so closing again changes
      nothing and returns nothing. */
  lemma CloseTwice(st: RenderState, p: Option<string>, q: Option<string>)
    requires Close(st, p).Done?
    ensures Close(Close(st, p).st, q) == Done(Close(st, p).st, None)
  {
  }
}
