/** The web application: the parameter objects it shares with the simulation, the run
    and reset queues that button clicks fill, and the two loops that drain them. The
    widgets appear only through the state the loops set: the run button, the plot pane
    and the four download buttons. The clock, the random bytes and the files the
    engines leave behind are inputs of each run (`Observation`). */
module App {
  import opened Wrappers
  import opened Paths
  import opened Params
  import opened SpecTemplates
  import opened SimspecFiles
  import opened SpecSim
  import opened Session

  /** What the plot pane shows: nothing, the placeholder, or the plot of one run's results. */
  datatype Plot = NoPlot | DummyPlot | SimspecPlot(simspec: seq<SimspecRow>, snline: seq<SnlineRow>, sncont: seq<SncontRow>)

  /** One download button: the file it offers and whether it is shown. */
  datatype Download = Download(file: Option<string>, visible: bool)

  datatype Downloads = Downloads(simspecFits: Download, simspecCsv: Download, snlineFits: Download, snlineCsv: Download)

  datatype RunButton = RunButton(disabled: bool, name: string)

  /** A click; the loops never look inside it. */
  datatype ClickEvent = ClickEvent

  /** What the world supplies to one run: the clock, eight random bytes, and the rows of the
      simulated spectrum, line S/N and continuum S/N files the engines wrote. */
  datatype Observation = Observation(
    now: DateTime, random: seq<byte>,
    simspec: seq<SimspecRow>, snline: seq<SnlineRow>, sncont: seq<SncontRow>)

  predicate ValidObservation(obs: Observation) {
    ValidDateTime(obs.now) && |obs.random| == 8
  }

  predicate ValidObservations(obs: seq<Observation>) {
    forall k :: 0 <= k < |obs| ==> ValidObservation(obs[k])
  }

  /** The session directory a run creates. */
  function SessionOf(obs: Observation): string
    requires ValidObservation(obs)
  {
    NewSessionId(obs.now, obs.random)
  }

  /** The output settings a run works with. */
  function RunOutput(o: Output, obs: Observation): Output
    requires ValidObservation(obs)
  {
    o.(sessiondir := SessionOf(obs))
  }

  function NoDownloads(): Downloads {
    Downloads(Download(None, false), Download(None, false), Download(None, false), Download(None, false))
  }

  function Hidden(d: Downloads): Downloads {
    Downloads(d.simspecFits.(visible := false), d.simspecCsv.(visible := false),
              d.snlineFits.(visible := false), d.snlineCsv.(visible := false))
  }

  /** The buttons after a completed run: both tables, as FITS and as ECSV, from the session directory. */
  function Offered(o: Output): Downloads {
    Downloads(Download(Some(SimspecPrefix(o) + ".fits"), true), Download(Some(SimspecPrefix(o) + ".ecsv"), true),
              Download(Some(SnlinePrefix(o) + ".fits"), true), Download(Some(SnlinePrefix(o) + ".ecsv"), true))
  }

  /** The engine calls of one completed run. */
  function RunCalls(t: Target, e: Environment, i: Instrument, tel: Telescope, o: Output, pkgdir: string)
    : seq<EngineCall>
  {
    var m := MagFileOf(t, TmpDir(o));
    [EtcRun(EtcParams(t, e, i, tel, o, m)), SimSpec(SimParams(m, i, o, SimulationDefaults()))]
  }

  /** The engine calls of the first `count` completed runs, in order: two per run. */
  function ExecCalls(t: Target, e: Environment, i: Instrument, tel: Telescope, o: Output, pkgdir: string,
                     obs: seq<Observation>, count: nat): (r: seq<EngineCall>)
    requires count <= |obs| && ValidObservations(obs)
    ensures |r| == 2 * count
  {
    seq(2 * count, n requires 0 <= n < 2 * count => RunCalls(t, e, i, tel, RunOutput(o, obs[n / 2]), pkgdir)[n % 2])
  }

  /** The directories are there and the source resolves: both engines run. */
  predicate RunCompletes(t: Target, o: Output, pkgdir: string, dirs: set<string>, refused: set<string>) {
    CreateDirs([OutDir(o), TmpDir(o)], dirs, refused).1 && Resolve(t, pkgdir, TmpDir(o)).outcome.Ok?
  }

  /** A run that completes with the disk's directories `dirs` also completes once more directories
      exist, whatever `mag_file` an earlier run left. */
  lemma RunCompletesMonotone(t: Target, m: MagFile, o: Output, pkgdir: string, dirs: set<string>, more: set<string>,
                             refused: set<string>)
    requires dirs <= more && RunCompletes(t, o, pkgdir, dirs, refused)
    ensures RunCompletes(t.(magFile := m), o, pkgdir, more, refused)
  {
    CreateDirsMonotone([OutDir(o), TmpDir(o)], dirs, more, refused);
    ResolveIgnoresMagFile(t, m, pkgdir, TmpDir(o));
  }

  /** Every queued run would complete and could be presented, judged from the state before the loop. */
  predicate AllRunsSucceed(t: Target, o: Output, pkgdir: string, dirs: set<string>, refused: set<string>,
                           obs: seq<Observation>)
    requires ValidObservations(obs)
  {
    forall k {:trigger RunOutput(o, obs[k])} | 0 <= k < |obs| :: RunCompletes(t, RunOutput(o, obs[k]), pkgdir, dirs, refused) && Presentable(obs[k])
  }

  /** When every queued run would succeed from the state before the loop, run `k` succeeds from
      the state the earlier runs leave: more directories and another `mag_file`. */
  lemma StepSucceeds(t0: Target, m: MagFile, o0: Output, pkgdir: string, d0: set<string>, dirs: set<string>,
                     refused: set<string>, obs: seq<Observation>, k: nat)
    requires ValidObservations(obs) && k < |obs| && d0 <= dirs
    requires AllRunsSucceed(t0, o0, pkgdir, d0, refused, obs)
    ensures RunCompletes(t0.(magFile := m), RunOutput(o0, obs[k]), pkgdir, dirs, refused) && Presentable(obs[k])
  {
    RunCompletesMonotone(t0, m, RunOutput(o0, obs[k]), pkgdir, d0, dirs, refused);
  }

  /** The engines' tables of a completed run can be packaged and plotted. */
  predicate Presentable(obs: Observation) {
    ColumnsFit(|obs.simspec|, |obs.sncont|) && |obs.sncont| > 0
  }

  class App {
    const target: TargetConf
    const environment: EnvironmentConf
    const instrument: InstrumentConf
    const telescope: TelescopeConf
    const output: OutputConf
    const disk: Disk
    const engine: Engine
    const pkgdir: string
    const ompEnv: Option<int>
    var queueExec: seq<ClickEvent>
    var queueReset: seq<ClickEvent>
    var runButton: RunButton
    var plot: Plot
    var downloads: Downloads

    /** Parameter objects at their defaults, the placeholder plot, the run button enabled and the
        downloads hidden and empty. */
    constructor (pkgdir: string, ompEnv: Option<int>, disk: Disk, engine: Engine)
      ensures target.Value() == TargetDefaults() && environment.Value() == EnvironmentDefaults()
      ensures instrument.Value() == InstrumentDefaults() && telescope.Value() == TelescopeDefaults()
      ensures output.Value() == OutputDefaults()
      ensures fresh(target) && fresh(environment) && fresh(instrument) && fresh(telescope) && fresh(output)
      ensures this.disk == disk && this.engine == engine && this.pkgdir == pkgdir && this.ompEnv == ompEnv
      ensures queueExec == [] && queueReset == []
      ensures runButton == RunButton(false, "Run") && plot == DummyPlot && downloads == NoDownloads()
    {
      target := new TargetConf();
      environment := new EnvironmentConf();
      instrument := new InstrumentConf();
      telescope := new TelescopeConf();
      output := new OutputConf();
      this.disk, this.engine, this.pkgdir, this.ompEnv := disk, engine, pkgdir, ompEnv;
      queueExec, queueReset := [], [];
      runButton, plot, downloads := RunButton(false, "Run"), DummyPlot, NoDownloads();
    }

    /** The run button's handler: queue the click. */
    method OnClickExec(event: ClickEvent)
      modifies this`queueExec
      ensures queueExec == old(queueExec) + [event]
    {
      queueExec := queueExec + [event];
    }

    /** The reset button's handler: queue the click. */
    method OnClickReset(event: ClickEvent)
      modifies this`queueReset
      ensures queueReset == old(queueReset) + [event]
    {
      queueReset := queueReset + [event];
    }

    /** One pass of the run loop's body. A new session directory is chosen and the page shows
        the run as busy; the simulation runs; on success the plot, the downloads and the enabled
        button come back. An exception ends the loop's thread with the page still busy. */
    method ExecOne(obs: Observation) returns (r: Result<()>)
      requires ValidObservation(obs)
      modifies this`runButton, this`plot, this`downloads, output, target, disk, engine
      ensures output.Value() == RunOutput(old(output.Value()), obs)
      ensures target.Value() == old(target.Value()).(magFile := target.Value().magFile)
      ensures disk.dirs == CreateDirs([OutDir(output.Value()), TmpDir(output.Value())], old(disk.dirs), disk.refused).0
      ensures target.Value().magFile
              == if CreateDirs([OutDir(output.Value()), TmpDir(output.Value())], old(disk.dirs), disk.refused).1
                 then MagFileOf(old(target.Value()), TmpDir(output.Value())) else old(target.Value()).magFile
      ensures r.Ok? <==>
        RunCompletes(old(target.Value()), output.Value(), pkgdir, old(disk.dirs), disk.refused)
        && Presentable(obs)
      ensures engine.calls
              == old(engine.calls)
                 + if RunCompletes(old(target.Value()), output.Value(), pkgdir, old(disk.dirs), disk.refused)
                   then RunCalls(old(target.Value()), environment.Value(), instrument.Value(), telescope.Value(),
                                 output.Value(), pkgdir)
                   else []
      ensures r.Ok? ==> ShowsRun(obs)
      ensures r.Err? ==> runButton == RunButton(true, "Running") && plot == DummyPlot && downloads == Hidden(old(downloads))
    {
      BeginRun(obs);
      var specsim, ran := Simulate();
      if ran.Err? {
        return Err(ran.error);
      }
      r := Present(specsim, obs);
    }

    /** One pass of the run loop over `show()` as written. `show()` raises `ValueError` on every
        call, so the rest of the pass (the plot, the button and the downloads) is never reached:
        a run whose simulation completes has run both engines and still leaves the page busy. */
    method ExecOneAsWritten(obs: Observation) returns (r: Result<()>)
      requires ValidObservation(obs)
      modifies this`runButton, this`plot, this`downloads, output, target, disk, engine
      ensures output.Value() == RunOutput(old(output.Value()), obs)
      ensures r.Err? && runButton == RunButton(true, "Running") && plot == DummyPlot && downloads == Hidden(old(downloads))
      ensures RunCompletes(old(target.Value()), output.Value(), pkgdir, old(disk.dirs), disk.refused) ==>
        r.error.ValueError?
        && engine.calls == old(engine.calls)
                           + RunCalls(old(target.Value()), environment.Value(), instrument.Value(), telescope.Value(),
                                      output.Value(), pkgdir)
    {
      BeginRun(obs);
      var specsim, ran := Simulate();
      if ran.Err? {
        return Err(ran.error);
      }
      r := PresentAsWritten(specsim, obs);
    }

    /** `show()` as written, where the pass would go on to present the run. */
    method PresentAsWritten(specsim: PfsSpecSim, obs: Observation) returns (r: Result<()>)
      modifies specsim
      ensures r.Err? && r.error.ValueError?
    {
      var shown := specsim.ShowAsWritten(obs.simspec, obs.snline, obs.sncont);
      r := Err(shown.error);
    }

    /** The run loop over `show()` as written. Its first pass raises, which ends the loop's
        thread: only the first queued click is simulated, the queue is never cleared and the
        page stays busy. */
    method DrainExecAsWritten(obs: seq<Observation>) returns (r: Result<()>)
      requires |obs| == |queueExec| && ValidObservations(obs)
      modifies this`queueExec, this`runButton, this`plot, this`downloads, output, target, disk, engine
      ensures obs == [] ==> r == Ok(()) && queueExec == [] && engine.calls == old(engine.calls)
      ensures obs != [] ==>
        r.Err? && queueExec == old(queueExec) && runButton == RunButton(true, "Running")
        && output.Value() == RunOutput(old(output.Value()), obs[0])
      ensures obs != [] && RunCompletes(old(target.Value()), output.Value(), pkgdir, old(disk.dirs), disk.refused) ==>
        r.error.ValueError?
        && engine.calls == old(engine.calls)
                           + RunCalls(old(target.Value()), environment.Value(), instrument.Value(), telescope.Value(),
                                      output.Value(), pkgdir)
    {
      for k := 0 to |queueExec|
        invariant k == 0 && queueExec == old(queueExec) && engine.calls == old(engine.calls)
        invariant target.Value() == old(target.Value()) && output.Value() == old(output.Value())
        invariant disk.dirs == old(disk.dirs)
      {
        r := ExecOneAsWritten(obs[k]);
        return;
      }
      queueExec := [];
      r := Ok(());
    }

    /** A fresh session directory, and the page shows the run as busy. */
    method BeginRun(obs: Observation)
      requires ValidObservation(obs)
      modifies this`runButton, this`plot, this`downloads, output
      ensures output.Value() == RunOutput(old(output.Value()), obs)
      ensures runButton == RunButton(true, "Running") && plot == DummyPlot && downloads == Hidden(old(downloads))
    {
      output.sessiondir := SessionOf(obs);
      runButton := RunButton(true, "Running");
      plot := DummyPlot;
      downloads := Hidden(downloads);
    }

    /** A new adapter over the shared parameter objects, and its `exec()`. */
    method Simulate() returns (specsim: PfsSpecSim, r: Result<()>)
      modifies target, disk, engine
      ensures fresh(specsim) && specsim.output == output && specsim.target == target
      ensures specsim.environment == environment && specsim.instrument == instrument && specsim.telescope == telescope
      ensures disk.dirs == CreateDirs([OutDir(output.Value()), TmpDir(output.Value())], old(disk.dirs), disk.refused).0
      ensures target.Value() == if CreateDirs([OutDir(output.Value()), TmpDir(output.Value())], old(disk.dirs), disk.refused).1
                                then old(target.Value()).(magFile := MagFileOf(old(target.Value()), TmpDir(output.Value())))
                                else old(target.Value())
      ensures r.Ok? <==> RunCompletes(old(target.Value()), output.Value(), pkgdir, old(disk.dirs), disk.refused)
      ensures r.Ok? ==>
        engine.calls == old(engine.calls)
                        + RunCalls(old(target.Value()), environment.Value(), instrument.Value(), telescope.Value(), output.Value(), pkgdir)
      ensures r.Err? ==> engine.calls == old(engine.calls)
    {
      specsim := new PfsSpecSim(target, environment, instrument, telescope, output, SimulationDefaults(), pkgdir, ompEnv);
      r := specsim.Exec(false, disk, engine);
      ResolveMagFile(old(target.Value()), pkgdir, TmpDir(output.Value()));
      if r.Ok? {
        ghost var o := output.Value();
        ghost var m := MagFileOf(old(target.Value()), TmpDir(o));
        EmptyMerge(DirParams(o));
        EmptyMerge(SimParams(m, instrument.Value(), o, SimulationDefaults()));
      }
    }

    /** `show()`, then the plot, the run button and the four downloads of the finished run. */
    method Present(specsim: PfsSpecSim, obs: Observation) returns (r: Result<()>)
      requires specsim.output == output && specsim.target == target
      requires specsim.environment == environment && specsim.instrument == instrument && specsim.telescope == telescope
      modifies this`runButton, this`plot, this`downloads, specsim
      ensures r.Ok? <==> Presentable(obs)
      ensures r.Ok? ==>
        runButton == old(runButton).(disabled := false, name := "Run")
        && plot == SimspecPlot(obs.simspec, obs.snline, obs.sncont) && downloads == Offered(output.Value())
      ensures r.Err? ==> runButton == old(runButton) && plot == old(plot) && downloads == old(downloads)
    {
      var shown := specsim.Show(obs.simspec, obs.snline, obs.sncont);
      if shown.Err? {
        return Err(shown.error);
      }
      plot := SimspecPlot(obs.simspec, obs.snline, obs.sncont);
      runButton := runButton.(name := "Run");
      var simspecPrefix, snlinePrefix := specsim.outfileSimspecPrefix.value, specsim.outfileSnlinePrefix.value;
      downloads := Downloads(Download(Some(simspecPrefix + ".fits"), true), Download(Some(simspecPrefix + ".ecsv"), true),
                             Download(Some(snlinePrefix + ".fits"), true), Download(Some(snlinePrefix + ".ecsv"), true));
      runButton := runButton.(disabled := false);
      r := Ok(());
    }

    /** The run loop: every queued click in turn, then the queue is cleared. The first failing run
        ends the loop and leaves the queue as it was. */
    method DrainExec(obs: seq<Observation>) returns (r: Result<()>)
      requires |obs| == |queueExec| && ValidObservations(obs)
      modifies this`queueExec, this`runButton, this`plot, this`downloads, output, target, disk, engine
      ensures target.Value() == old(target.Value()).(magFile := target.Value().magFile)
      ensures output.Value() == old(output.Value()).(sessiondir := output.sessiondir)
      ensures r.Err? ==> queueExec == old(queueExec) && runButton == RunButton(true, "Running")
      ensures r.Ok? ==>
        queueExec == []
        && engine.calls == old(engine.calls)
           + ExecCalls(old(target.Value()), environment.Value(), instrument.Value(), telescope.Value(),
                       old(output.Value()), pkgdir, obs, |obs|)
      ensures r.Ok? && obs != [] ==> ShowsRun(obs[|obs| - 1])
      ensures obs == [] ==> r.Ok?
      ensures AllRunsSucceed(old(target.Value()), old(output.Value()), pkgdir, old(disk.dirs), disk.refused, obs) ==> r.Ok?
    {
      ghost var t0, o0 := target.Value(), output.Value();
      ghost var e, i, tel := environment.Value(), instrument.Value(), telescope.Value();
      ghost var c0 := engine.calls;
      var k := 0;
      while k < |queueExec|
        invariant 0 <= k <= |obs| && queueExec == old(queueExec)
        invariant engine.calls == c0 + ExecCalls(t0, e, i, tel, o0, pkgdir, obs, k)
        invariant target.Value() == t0.(magFile := target.Value().magFile)
        invariant output.Value() == o0.(sessiondir := output.sessiondir)
        invariant environment.Value() == e && instrument.Value() == i && telescope.Value() == tel
        invariant k > 0 ==> ShowsRun(obs[k - 1])
        invariant old(disk.dirs) <= disk.dirs
      {
        r := ExecStep(obs, k, t0, o0, c0, old(disk.dirs));
        if r.Err? {
          return;
        }
        k := k + 1;
      }
      assert k == |obs|;
      queueExec := [];
      r := Ok(());
    }

    /** The page after a completed run: its plot, the enabled run button and the four downloads of
        the tables in the current session directory. */
    ghost predicate ShowsRun(obs: Observation)
      reads this, output
    {
      runButton == RunButton(false, "Run") && plot == SimspecPlot(obs.simspec, obs.snline, obs.sncont)
      && downloads == Offered(output.Value())
    }

    /** The body of the run loop for the `k`-th queued click, in terms of the runs before it. */
    method ExecStep(obs: seq<Observation>, k: nat, ghost t0: Target, ghost o0: Output, ghost c0: seq<EngineCall>,
                    ghost d0: set<string>)
      returns (r: Result<()>)
      requires k < |obs| && ValidObservations(obs) && d0 <= disk.dirs
      requires target.Value() == t0.(magFile := target.Value().magFile)
      requires output.Value() == o0.(sessiondir := output.sessiondir)
      requires engine.calls == c0 + ExecCalls(t0, environment.Value(), instrument.Value(), telescope.Value(), o0, pkgdir, obs, k)
      modifies this`runButton, this`plot, this`downloads, output, target, disk, engine
      ensures target.Value() == t0.(magFile := target.Value().magFile)
      ensures output.Value() == o0.(sessiondir := output.sessiondir)
      ensures r.Err? ==> runButton == RunButton(true, "Running")
      ensures d0 <= disk.dirs
      ensures r.Ok? <==> RunCompletes(t0, RunOutput(o0, obs[k]), pkgdir, old(disk.dirs), disk.refused) && Presentable(obs[k])
      ensures AllRunsSucceed(t0, o0, pkgdir, d0, disk.refused, obs) ==> r.Ok?
      ensures r.Ok? ==>
        engine.calls == c0 + ExecCalls(t0, environment.Value(), instrument.Value(), telescope.Value(), o0, pkgdir, obs, k + 1)
        && ShowsRun(obs[k])
    {
      ghost var before, current := target.Value(), output.Value();
      r := ExecOne(obs[k]);
      assert output.Value() == RunOutput(o0, obs[k]);
      CreateDirsGrows([OutDir(output.Value()), TmpDir(output.Value())], old(disk.dirs), disk.refused);
      ResolveIgnoresMagFile(t0, before.magFile, pkgdir, TmpDir(output.Value()));
      if AllRunsSucceed(t0, o0, pkgdir, d0, disk.refused, obs) {
        StepSucceeds(t0, before.magFile, o0, pkgdir, d0, old(disk.dirs), disk.refused, obs, k);
      }
      if r.Ok? {
        var e, i, tel := environment.Value(), instrument.Value(), telescope.Value();
        ExecCallsSnoc(t0, before, e, i, tel, o0, current, pkgdir, obs, k);
        AppendAssoc(c0, ExecCalls(t0, e, i, tel, o0, pkgdir, obs, k), RunCalls(before, e, i, tel, output.Value(), pkgdir));
      }
    }

    /** The reset loop: every queued click restores the four parameter groups and empties the
        plot and the downloads; then the queue is cleared. Repeated resets act as one. */
    method DrainReset()
      modifies this`queueReset, this`plot, this`downloads, target, environment, instrument, telescope
      ensures queueReset == []
      ensures old(queueReset) == [] ==>
        target.Value() == old(target.Value()) && environment.Value() == old(environment.Value())
        && instrument.Value() == old(instrument.Value()) && telescope.Value() == old(telescope.Value())
        && plot == old(plot) && downloads == old(downloads)
      ensures old(queueReset) != [] ==>
        target.Value() == ResetTarget(old(target.Value()))
        && environment.Value() == ResetEnvironment(old(environment.Value()))
        && instrument.Value() == ResetInstrument(old(instrument.Value()))
        && telescope.Value() == ResetTelescope(old(telescope.Value()))
        && plot == NoPlot && downloads == NoDownloads()
    {
      ghost var t0, e0, i0, tel0 := target.Value(), environment.Value(), instrument.Value(), telescope.Value();
      var k := 0;
      while k < |queueReset|
        invariant 0 <= k <= |queueReset| && queueReset == old(queueReset)
        invariant k == 0 ==>
          target.Value() == t0 && environment.Value() == e0 && instrument.Value() == i0 && telescope.Value() == tel0
          && plot == old(plot) && downloads == old(downloads)
        invariant k > 0 ==>
          target.Value() == ResetTarget(t0) && environment.Value() == ResetEnvironment(e0)
          && instrument.Value() == ResetInstrument(i0) && telescope.Value() == ResetTelescope(tel0)
          && plot == NoPlot && downloads == NoDownloads()
      {
        ResetTargetRestoresDefaults(t0);
        ResetEnvironmentRestoresDefaults(e0);
        ResetInstrumentRestoresDefaults(i0);
        ResetTelescopeRestoresDefaults(tel0);
        target.Reset();
        environment.Reset();
        instrument.Reset();
        telescope.Reset();
        plot := NoPlot;
        downloads := NoDownloads();
        k := k + 1;
      }
      queueReset := [];
    }
  }

  /** `pfs_etc_app`: the parameter objects and widgets, and the base directory made when missing.
      A refused base directory stops the application from starting. */
  method Launch(pkgdir: string, ompEnv: Option<int>, disk: Disk, engine: Engine) returns (r: Result<App>)
    modifies disk
    ensures var basedir := OutputDefaults().basedir;
      disk.dirs == (if basedir in old(disk.dirs) || basedir in disk.refused then old(disk.dirs) else old(disk.dirs) + {basedir})
      && (r.Ok? <==> basedir in old(disk.dirs) || basedir !in disk.refused)
      && (r.Err? ==> r.error == OSError(basedir))
      && (r.Ok? ==> fresh(r.value) && r.value.disk == disk && r.value.engine == engine
                    && r.value.output.Value() == OutputDefaults() && r.value.queueExec == [] && r.value.queueReset == [])
  {
    var app := new App(pkgdir, ompEnv, disk, engine);
    var basedir := app.output.basedir;
    if basedir !in disk.dirs {
      var ok := disk.MakeDirs(basedir);
      if !ok {
        return Err(OSError(basedir));
      }
    }
    r := Ok(app);
  }

  // --------------------------------------------------------------- properties

  /** The calls of the first `k + 1` runs extend those of the first `k` by the calls of run `k`,
      whatever `mag_file` and session directory the previous run left behind. */
  lemma ExecCallsSnoc(t0: Target, t: Target, e: Environment, i: Instrument, tel: Telescope, o0: Output, o: Output,
                      pkgdir: string, obs: seq<Observation>, k: nat)
    requires k < |obs| && ValidObservations(obs)
    requires t == t0.(magFile := t.magFile) && o == o0.(sessiondir := o.sessiondir)
    ensures ExecCalls(t0, e, i, tel, o0, pkgdir, obs, k + 1)
            == ExecCalls(t0, e, i, tel, o0, pkgdir, obs, k) + RunCalls(t, e, i, tel, RunOutput(o, obs[k]), pkgdir)
  {
    var longer, shorter := ExecCalls(t0, e, i, tel, o0, pkgdir, obs, k + 1), ExecCalls(t0, e, i, tel, o0, pkgdir, obs, k);
    var last := RunCalls(t, e, i, tel, RunOutput(o, obs[k]), pkgdir);
    assert RunOutput(o, obs[k]) == RunOutput(o0, obs[k]);
    forall n | 0 <= n < 2 * k + 2
      ensures longer[n] == (shorter + last)[n]
    {
      if n >= 2 * k {
        assert n / 2 == k;
      }
    }
  }

  lemma AppendAssoc<T>(a: seq<T>, b: seq<T>, c: seq<T>)
    ensures a + (b + c) == a + b + c
  {
  }

  lemma EmptyMerge<K, V>(m: map<K, V>)
    ensures map[] + m == m
  {
  }

  /** Runs started from different clock readings or random bytes write into different directories. */
  lemma DistinctRunsDistinctDirs(o: Output, obs1: Observation, obs2: Observation)
    requires ValidObservation(obs1) && ValidObservation(obs2)
    requires (obs1.now, obs1.random) != (obs2.now, obs2.random)
    ensures OutDir(RunOutput(o, obs1)) != OutDir(RunOutput(o, obs2))
  {
    SessionIdInjective(obs1.now, obs1.random, obs2.now, obs2.random);
    SessionIdIsComponent(obs1.now, obs1.random);
    SessionIdIsComponent(obs2.now, obs2.random);
    JoinInjective(o.basedir, SessionOf(obs1), SessionOf(obs2));
  }

  /** The files one run offers for download are never those of another run. */
  lemma OffersDistinctAcrossRuns(o: Output, obs1: Observation, obs2: Observation)
    requires ValidObservation(obs1) && ValidObservation(obs2)
    requires (obs1.now, obs1.random) != (obs2.now, obs2.random)
    ensures var d1, d2 := Offered(RunOutput(o, obs1)), Offered(RunOutput(o, obs2));
      d1.simspecFits.file != d2.simspecFits.file && d1.simspecCsv.file != d2.simspecCsv.file
      && d1.snlineFits.file != d2.snlineFits.file && d1.snlineCsv.file != d2.snlineCsv.file
  {
    var o1, o2 := RunOutput(o, obs1), RunOutput(o, obs2);
    SessionIdInjective(obs1.now, obs1.random, obs2.now, obs2.random);
    SessionIdIsComponent(obs1.now, obs1.random);
    SessionIdIsComponent(obs2.now, obs2.random);
    ArtifactsDistinct(o1, o2);
    SuffixCancels(SimspecPrefix(o1), SimspecPrefix(o2), ".fits");
    SuffixCancels(SimspecPrefix(o1), SimspecPrefix(o2), ".ecsv");
    SuffixCancels(SnlinePrefix(o1), SnlinePrefix(o2), ".fits");
    SuffixCancels(SnlinePrefix(o1), SnlinePrefix(o2), ".ecsv");
  }

  lemma SuffixCancels(a: string, b: string, ext: string)
    requires a != b
    ensures a + ext != b + ext
  {
    if |a| == |b| {
      assert (a + ext)[..|a|] == a && (b + ext)[..|b|] == b;
    } else {
      assert |a + ext| != |b + ext|;
    }
  }
}
