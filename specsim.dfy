/** The adapter between the parameter groups and the external engines: the
    exposure-time calculator's parameter map, the spectrum simulator's parameter
    map, the order of the two engine calls, and the names of the packaged
    artifacts. The engines and the filesystem are external and appear only as
    the records they keep (`Engine`, `Disk`). */
module SpecSim {
  import opened Wrappers
  import opened Paths
  import opened Params
  import opened SpecTemplates
  import opened SimspecFiles

  /** A value handed to an engine's `set_param`. `FloatStr(x)` is the decimal text
      Python writes for the number `x`; its digits are not modelled. */
  datatype Value = Num(r: real) | Int(i: int) | Str(s: string) | FloatStr(x: real)

  /** The calculator's parameter names. */
  datatype EtcKey =
    | OutDirKey | TmpDirKey | Seeing | Degrade | MoonZenithAng | MoonTargetAng | MoonPhase
    | ExpTime | ExpNum | FieldAng | MrMode | ZenithAng | GalacticExt
    | MagFileKey | Reff | LineFlux | LineWidth
    | OutfileNoise | OutfileSnc | OutfileSnl | OutfileOii

  /** The name the calculator's `set_param` receives. */
  function EtcKeyName(k: EtcKey): string {
    match k
    case OutDirKey => "OUTDIR"
    case TmpDirKey => "TMPDIR"
    case Seeing => "SEEING"
    case Degrade => "degrade"
    case MoonZenithAng => "MOON_ZENITH_ANG"
    case MoonTargetAng => "MOON_TARGET_ANG"
    case MoonPhase => "MOON_PHASE"
    case ExpTime => "EXP_TIME"
    case ExpNum => "EXP_NUM"
    case FieldAng => "FIELD_ANG"
    case MrMode => "MR_MODE"
    case ZenithAng => "ZENITH_ANG"
    case GalacticExt => "GALACTIC_EXT"
    case MagFileKey => "MAG_FILE"
    case Reff => "REFF"
    case LineFlux => "LINE_FLUX"
    case LineWidth => "LINE_WIDTH"
    case OutfileNoise => "OUTFILE_NOISE"
    case OutfileSnc => "OUTFILE_SNC"
    case OutfileSnl => "OUTFILE_SNL"
    case OutfileOii => "OUTFILE_OII"
  }

  /** The simulator's parameter names. */
  datatype SimKey =
    | SimMagFile | EtcFile | SimExpNum | AsciiTable | Nrealize | SimOutDir | WriteFits | WritePfsArm

  function SimKeyName(k: SimKey): string {
    match k
    case SimMagFile => "MAG_FILE"
    case EtcFile => "etcFile"
    case SimExpNum => "EXP_NUM"
    case AsciiTable => "asciiTable"
    case Nrealize => "nrealize"
    case SimOutDir => "outDir"
    case WriteFits => "writeFits"
    case WritePfsArm => "writePfsArm"
  }

  /** One call into an engine, with the parameter map it saw. */
  datatype EngineCall = EtcRun(etc: map<EtcKey, Value>) | SimSpec(sim: map<SimKey, Value>)

  /** The engines, seen only through the calls they receive. */
  class Engine {
    var calls: seq<EngineCall>

    constructor ()
      ensures calls == []
    {
      calls := [];
    }

    method Call(c: EngineCall)
      modifies this
      ensures calls == old(calls) + [c]
    {
      calls := calls + [c];
    }
  }

  /** The server's filesystem, seen only through its directories; creating a path in
      `refused` fails as `os.makedirs` does when the operating system refuses it. */
  class Disk {
    var dirs: set<string>
    const refused: set<string>

    constructor (dirs: set<string>, refused: set<string>)
      ensures this.dirs == dirs && this.refused == refused
    {
      this.dirs, this.refused := dirs, refused;
    }

    /** `os.makedirs(path)`, and the start-up's `os.mkdir`. The missing parents that
        `os.makedirs` also creates are not recorded: `dirs` holds the paths asked for. */
    method MakeDirs(path: string) returns (ok: bool)
      modifies this
      ensures ok <==> path !in refused
      ensures dirs == if ok then old(dirs) + {path} else old(dirs)
    {
      ok := path !in refused;
      if ok {
        dirs := dirs + {path};
      }
    }
  }

  // --------------------------------------------------------- derived paths

  function OutDir(o: Output): string {
    Join(o.basedir, o.sessiondir)
  }

  function TmpDir(o: Output): string {
    Join3(o.basedir, o.sessiondir, o.tmpdir)
  }

  /** An output-file setting: `"-"` (do not write) passes through, a name is placed in the session directory. */
  function OutfileValue(o: Output, name: string): string {
    if name != "-" then Join3(o.basedir, o.sessiondir, name) else name
  }

  function MagFileText(m: MagFile): Value {
    match m
    case NoMagFile => Str("None")
    case MagValue(x) => FloatStr(x)
    case MagPath(p) => Str(p)
  }

  /** The two directories `run_etc` sets first. */
  function DirParams(o: Output): map<EtcKey, Value> {
    map[OutDirKey := Str(OutDir(o)), TmpDirKey := Str(TmpDir(o))]
  }

  /** Environment, instrument, telescope and extinction settings. */
  function ConditionParams(t: Target, e: Environment, i: Instrument, tel: Telescope): map<EtcKey, Value> {
    map[
      Seeing := Num(e.seeing),
      Degrade := Num(e.degrade),
      MoonZenithAng := Int(e.moonZenithAngle),
      MoonTargetAng := Int(e.moonTargetAngle),
      MoonPhase := Num(e.moonPhase),
      ExpTime := Int(i.expTime),
      ExpNum := Int(i.expNum),
      FieldAng := Num(i.fieldAngle),
      MrMode := Str(if i.mrMode then "Y" else "N"),
      ZenithAng := Int(tel.zenithAngle),
      GalacticExt := Num(t.galacticExtinction)
    ]
  }

  /** The settings `run_etc` makes after the spectral source is resolved. */
  function SourceParams(m: MagFile, t: Target, o: Output): map<EtcKey, Value> {
    map[
      MagFileKey := MagFileText(m),
      Reff := Num(t.rEff),
      LineFlux := Num(t.lineFlux),
      LineWidth := Num(t.lineWidth),
      OutfileNoise := Str(OutfileValue(o, o.noise)),
      OutfileSnc := Str(OutfileValue(o, o.snCont)),
      OutfileSnl := Str(OutfileValue(o, o.snLine)),
      OutfileOii := Str(OutfileValue(o, o.snOii))
    ]
  }

  /** Everything a complete `run_etc` sets, `m` being the source's resolved `mag_file`. */
  function EtcParams(t: Target, e: Environment, i: Instrument, tel: Telescope, o: Output, m: MagFile)
    : map<EtcKey, Value>
  {
    DirParams(o) + ConditionParams(t, e, i, tel) + SourceParams(m, t, o)
  }

  /** Everything `run_sim` sets. */
  function SimParams(m: MagFile, i: Instrument, o: Output, sc: SimulationConf): map<SimKey, Value> {
    map[
      SimMagFile := MagFileText(m),
      EtcFile := Str(Join3(o.basedir, o.sessiondir, o.snCont)),
      SimExpNum := Int(i.expNum),
      AsciiTable := Str(o.simspec),
      Nrealize := Int(sc.nrealize),
      SimOutDir := Str(Join(o.basedir, o.sessiondir)),
      WriteFits := Str(o.writeFits),
      WritePfsArm := Str(o.writePfsArm)
    ]
  }

  /** Directories `run_etc` needs, created in order; creation stops at the first refusal. */
  function CreateDirs(paths: seq<string>, dirs: set<string>, refused: set<string>): (set<string>, bool) {
    if paths == [] then (dirs, true)
    else if paths[0] in dirs then CreateDirs(paths[1..], dirs, refused)
    else if paths[0] in refused then (dirs, false)
    else CreateDirs(paths[1..], dirs + {paths[0]}, refused)
  }

  /** Creating directories never removes one. */
  lemma {:induction false} CreateDirsGrows(paths: seq<string>, dirs: set<string>, refused: set<string>)
    ensures dirs <= CreateDirs(paths, dirs, refused).0
  {
    if paths != [] && paths[0] !in dirs && paths[0] !in refused {
      CreateDirsGrows(paths[1..], dirs + {paths[0]}, refused);
    } else if paths != [] && paths[0] in dirs {
      CreateDirsGrows(paths[1..], dirs, refused);
    }
  }

  /** Directories that exist already can only help: what succeeds from `dirs` succeeds from
      any larger set. */
  lemma {:induction false} CreateDirsMonotone(paths: seq<string>, dirs: set<string>, more: set<string>,
                                              refused: set<string>)
    requires dirs <= more && CreateDirs(paths, dirs, refused).1
    ensures CreateDirs(paths, more, refused).1
  {
    if paths != [] {
      var next := if paths[0] in dirs then dirs else dirs + {paths[0]};
      var nextMore := if paths[0] in more then more else more + {paths[0]};
      CreateDirsMonotone(paths[1..], next, nextMore, refused);
    }
  }

  /** Names of the packaged artifacts, all in the session directory. */
  function PfsObjectPath(o: Output): string {
    Join(OutDir(o), "pfsObject-" + o.sessiondir + ".fits")
  }

  function SimspecPrefix(o: Output): string {
    Join(OutDir(o), "pfs_etc_simspec-" + o.sessiondir)
  }

  function SnlinePrefix(o: Output): string {
    Join(OutDir(o), "pfs_etc_snline-" + o.sessiondir)
  }

  // ------------------------------------------------------------ the adapter

  class PfsSpecSim {
    const target: TargetConf
    const environment: EnvironmentConf
    const instrument: InstrumentConf
    const telescope: TelescopeConf
    const output: OutputConf
    const simconf: SimulationConf
    /** Directory of the installed package, where the template catalog lives. */
    const pkgdir: string
    var ompNumThreads: int
    var etcParams: map<EtcKey, Value>
    var simParams: map<SimKey, Value>
    var outfileSimspecPrefix: Option<string>
    var outfileSnlinePrefix: Option<string>
    var outfilePfsobject: Option<string>

    /** `ompEnv` is `OMP_NUM_THREADS` from the process environment, when set, read as a number. */
    constructor (target: TargetConf, environment: EnvironmentConf, instrument: InstrumentConf,
                 telescope: TelescopeConf, output: OutputConf, simconf: SimulationConf,
                 pkgdir: string, ompEnv: Option<int>)
      ensures this.target == target && this.environment == environment && this.instrument == instrument
      ensures this.telescope == telescope && this.output == output && this.simconf == simconf
      ensures this.pkgdir == pkgdir
      ensures ompNumThreads == (if ompEnv.Some? then ompEnv.value else 4)
      ensures etcParams == map[] && simParams == map[]
      ensures outfileSimspecPrefix == None && outfileSnlinePrefix == None && outfilePfsobject == None
    {
      this.target, this.environment, this.instrument := target, environment, instrument;
      this.telescope, this.output, this.simconf := telescope, output, simconf;
      this.pkgdir := pkgdir;
      ompNumThreads := if ompEnv.Some? then ompEnv.value else 4;
      etcParams, simParams := map[], map[];
      outfileSimspecPrefix, outfileSnlinePrefix, outfilePfsobject := None, None, None;
    }

    /** Builds the calculator's parameters one key at a time and runs it. A refused directory
        ends the process before any other key is set; an unknown template ends the run before
        the source keys are set and before the engine is called. */
    method RunEtc(disk: Disk, engine: Engine) returns (r: Result<()>)
      modifies this`etcParams, target, disk, engine
      ensures var o, created := output.Value(), CreateDirs([OutDir(output.Value()), TmpDir(output.Value())], old(disk.dirs), disk.refused);
        disk.dirs == created.0
        && (!created.1 ==>
              r == Err(SystemExit("Unable to create outDir")) && etcParams == old(etcParams) + DirParams(o)
              && target.Value() == old(target.Value()) && engine.calls == old(engine.calls))
      ensures var o, res := output.Value(), Resolve(old(target.Value()), pkgdir, TmpDir(output.Value()));
        CreateDirs([OutDir(o), TmpDir(o)], old(disk.dirs), disk.refused).1 ==>
          target.Value() == old(target.Value()).(magFile := res.magFile)
          && (res.outcome.Err? ==>
                r == Err(res.outcome.error) && engine.calls == old(engine.calls)
                && etcParams == old(etcParams) + DirParams(o)
                   + ConditionParams(old(target.Value()), environment.Value(), instrument.Value(), telescope.Value()))
          && (res.outcome.Ok? ==>
                r == Ok(())
                && etcParams == old(etcParams) + DirParams(o)
                   + ConditionParams(old(target.Value()), environment.Value(), instrument.Value(), telescope.Value())
                   + SourceParams(res.magFile, old(target.Value()), o)
                && engine.calls == old(engine.calls) + [EtcRun(etcParams)])
    {
      var o := output.Value();
      SetDirParams();
      var ok := MakeSessionDirs(disk);
      if !ok {
        return Err(SystemExit("Unable to create outDir"));
      }
      SetConditionParams();
      var resolved := CreateTemplateSpectrum(target, pkgdir, TmpDir(o));
      if resolved.Err? {
        return Err(resolved.error);
      }
      SetSourceParams();
      engine.Call(EtcRun(etcParams));
      r := Ok(());
    }

    /** `OUTDIR` and `TMPDIR`, the session's directories. */
    method SetDirParams()
      modifies this`etcParams
      ensures etcParams == old(etcParams) + DirParams(output.Value())
    {
      var params := etcParams;
      params := params[OutDirKey := Str(Join(output.basedir, output.sessiondir))];
      params := params[TmpDirKey := Str(Join3(output.basedir, output.sessiondir, output.tmpdir))];
      etcParams := params;
    }

    /** `os.makedirs` on each missing session directory, stopping at the first refusal. */
    method MakeSessionDirs(disk: Disk) returns (ok: bool)
      modifies disk
      ensures (disk.dirs, ok) == CreateDirs([OutDir(output.Value()), TmpDir(output.Value())], old(disk.dirs), disk.refused)
    {
      var paths := [OutDir(output.Value()), TmpDir(output.Value())];
      var i := 0;
      ok := true;
      while i < |paths| && ok
        invariant 0 <= i <= |paths|
        invariant CreateDirs(paths, old(disk.dirs), disk.refused)
               == if ok then CreateDirs(paths[i..], disk.dirs, disk.refused) else (disk.dirs, false)
      {
        if paths[i] !in disk.dirs {
          ok := disk.MakeDirs(paths[i]);
        }
        i := i + 1;
      }
    }

    /** The observing conditions, one key at a time. */
    method SetConditionParams()
      modifies this`etcParams
      ensures etcParams == old(etcParams) + ConditionParams(target.Value(), environment.Value(), instrument.Value(), telescope.Value())
    {
      var params := etcParams;
      var e, inst, tel := environment, instrument, telescope;
      params := params[Seeing := Num(e.seeing)];
      params := params[Degrade := Num(e.degrade)];
      params := params[MoonZenithAng := Int(e.moonZenithAngle)];
      params := params[MoonTargetAng := Int(e.moonTargetAngle)];
      params := params[MoonPhase := Num(e.moonPhase)];
      params := params[ExpTime := Int(inst.expTime)];
      params := params[ExpNum := Int(inst.expNum)];
      params := params[FieldAng := Num(inst.fieldAngle)];
      params := params[MrMode := Str(if inst.mrMode then "Y" else "N")];
      params := params[ZenithAng := Int(tel.zenithAngle)];
      params := params[GalacticExt := Num(target.galacticExtinction)];
      etcParams := params;
    }

    /** The resolved source and the output files, one key at a time. */
    method SetSourceParams()
      modifies this`etcParams
      ensures etcParams == old(etcParams) + SourceParams(target.Value().magFile, target.Value(), output.Value())
    {
      var o, t := output.Value(), target.Value();
      var params := etcParams;
      params := params[MagFileKey := MagFileText(t.magFile)];
      params := params[Reff := Num(t.rEff)];
      params := params[LineFlux := Num(t.lineFlux)];
      params := params[LineWidth := Num(t.lineWidth)];
      params := params[OutfileNoise := Str(OutfileValue(o, o.noise))];
      params := params[OutfileSnc := Str(OutfileValue(o, o.snCont))];
      params := params[OutfileSnl := Str(OutfileValue(o, o.snLine))];
      params := params[OutfileOii := Str(OutfileValue(o, o.snOii))];
      etcParams := params;
    }

    /** Builds the simulator's parameters from the resolved source and the session directory and runs it. */
    method RunSim(engine: Engine)
      modifies this`simParams, engine
      ensures simParams == old(simParams) + SimParams(target.magFile, instrument.Value(), output.Value(), simconf)
      ensures engine.calls == old(engine.calls) + [SimSpec(simParams)]
    {
      var params := simParams;
      params := params[SimMagFile := MagFileText(target.magFile)];
      params := params[EtcFile := Str(Join3(output.basedir, output.sessiondir, output.snCont))];
      params := params[SimExpNum := Int(instrument.expNum)];
      params := params[AsciiTable := Str(output.simspec)];
      params := params[Nrealize := Int(simconf.nrealize)];
      params := params[SimOutDir := Str(Join(output.basedir, output.sessiondir))];
      params := params[WriteFits := Str(output.writeFits)];
      params := params[WritePfsArm := Str(output.writePfsArm)];
      simParams := params;
      engine.Call(SimSpec(simParams));
    }

    /** `exec(skip)`: nothing when skipped; otherwise the calculator strictly before the simulator,
        and the simulator only when the calculator's run completed. */
    method Exec(skip: bool, disk: Disk, engine: Engine) returns (r: Result<()>)
      modifies this`etcParams, this`simParams, target, disk, engine
      ensures skip ==> r == Ok(()) && engine.calls == old(engine.calls) && disk.dirs == old(disk.dirs)
                       && etcParams == old(etcParams) && simParams == old(simParams)
                       && target.Value() == old(target.Value())
      ensures var o := output.Value();
        var res := Resolve(old(target.Value()), pkgdir, TmpDir(o));
        var etc := old(etcParams) + DirParams(o)
                   + ConditionParams(old(target.Value()), environment.Value(), instrument.Value(), telescope.Value())
                   + SourceParams(res.magFile, old(target.Value()), o);
        var sim := old(simParams) + SimParams(res.magFile, instrument.Value(), o, simconf);
        !skip ==>
          (r.Ok? <==> CreateDirs([OutDir(o), TmpDir(o)], old(disk.dirs), disk.refused).1 && res.outcome.Ok?)
          && disk.dirs == CreateDirs([OutDir(o), TmpDir(o)], old(disk.dirs), disk.refused).0
          && target.Value() == (if CreateDirs([OutDir(o), TmpDir(o)], old(disk.dirs), disk.refused).1
                                then old(target.Value()).(magFile := res.magFile) else old(target.Value()))
          && (r.Ok? ==> engine.calls == old(engine.calls) + [EtcRun(etc), SimSpec(sim)]
                        && etcParams == etc && simParams == sim)
          && (r.Err? ==> engine.calls == old(engine.calls) && simParams == old(simParams))
    {
      if skip {
        return Ok(());
      }
      r := RunEtc(disk, engine);
      if r.Err? {
        return;
      }
      RunSim(engine);
    }

    /** `show()` with the unpacking of `create_simspec_files` corrected to take its first two results:
        names every artifact after the session directory, packages the loaded engine outputs (the
        two tables stand for the files written from them) and scales the plot's S/N axis. */
    method Show(simspec: seq<SimspecRow>, snline: seq<SnlineRow>, sncont: seq<SncontRow>)
      returns (r: Result<(SpectrumTable, LineTable, (real, real))>)
      modifies this`outfilePfsobject, this`outfileSimspecPrefix, this`outfileSnlinePrefix
      ensures outfilePfsobject == Some(PfsObjectPath(output.Value()))
      ensures outfileSimspecPrefix == Some(SimspecPrefix(output.Value()))
      ensures outfileSnlinePrefix == Some(SnlinePrefix(output.Value()))
      ensures var files := CreateSimspecFiles(target.Value(), environment.Value(), instrument.Value(),
                                              telescope.Value(), simspec, snline, sncont);
        (r.Ok? <==> files.Ok? && |sncont| > 0)
        && (r.Ok? ==> r.value == (files.value.spectrum, files.value.line, SnAxis(sncont).value))
        && (files.Err? ==> r == Err(files.error))
        && (files.Ok? && |sncont| == 0 ==> r.Err? && r.error.ValueError?)
    {
      NameArtifacts();
      var files := CreateSimspecFiles(target.Value(), environment.Value(), instrument.Value(),
                                      telescope.Value(), simspec, snline, sncont);
      if files.Err? {
        return Err(files.error);
      }
      var axis := SnAxis(sncont);
      if axis.Err? {
        return Err(axis.error);
      }
      r := Ok((files.value.spectrum, files.value.line, axis.value));
    }

    /** `show()` as written: it unpacks the three results of `create_simspec_files` into two
        names, which raises `ValueError` on every call. */
    method ShowAsWritten(simspec: seq<SimspecRow>, snline: seq<SnlineRow>, sncont: seq<SncontRow>)
      returns (r: Result<(PyValue, PyValue)>)
      modifies this`outfilePfsobject, this`outfileSimspecPrefix, this`outfileSnlinePrefix
      ensures outfilePfsobject == Some(PfsObjectPath(output.Value()))
      ensures r.Err? && r.error.ValueError?
    {
      NameArtifacts();
      var files := CreateSimspecFiles(target.Value(), environment.Value(), instrument.Value(),
                                      telescope.Value(), simspec, snline, sncont);
      if files.Err? {
        return Err(files.error);
      }
      r := UnpackPair(AsTuple(files.value));
      ShowUnpackFails(files.value);
    }

    method NameArtifacts()
      modifies this`outfilePfsobject, this`outfileSimspecPrefix, this`outfileSnlinePrefix
      ensures outfilePfsobject == Some(PfsObjectPath(output.Value()))
      ensures outfileSimspecPrefix == Some(SimspecPrefix(output.Value()))
      ensures outfileSnlinePrefix == Some(SnlinePrefix(output.Value()))
    {
      var outdir := Join(output.basedir, output.sessiondir);
      outfilePfsobject := Some(Join(outdir, "pfsObject-" + output.sessiondir + ".fits"));
      outfileSimspecPrefix := Some(Join(outdir, "pfs_etc_simspec-" + output.sessiondir));
      outfileSnlinePrefix := Some(Join(outdir, "pfs_etc_snline-" + output.sessiondir));
    }
  }

  // ------------------------------------------------------------ the plot

  /** `np.nanmax`: the largest entry; an array without entries raises `ValueError`.
      NaN entries are not modelled. */
  function NanMax(xs: seq<real>): (r: Result<real>)
    ensures r.Ok? <==> |xs| > 0
    ensures r.Ok? ==> r.value in xs && forall k :: 0 <= k < |xs| ==> xs[k] <= r.value
  {
    if |xs| == 0 then Err(ValueError("zero-size array to reduction operation fmax which has no identity"))
    else if |xs| == 1 then Ok(xs[0])
    else
      var rest := NanMax(xs[1..]);
      Ok(if xs[0] >= rest.value then xs[0] else rest.value)
  }

  /** The `sncont` column of the continuum S/N file. */
  function SnColumn(sncont: seq<SncontRow>): (r: seq<real>)
    ensures |r| == |sncont| && forall k :: 0 <= k < |r| ==> r[k] == sncont[k].sncont
  {
    seq(|sncont|, k requires 0 <= k < |sncont| => sncont[k].sncont)
  }

  /** The S/N axis of `create_simspec_plot`: from 0 to one and a half times the largest continuum
      S/N, so every point is on the plot. The input-flux axis, computed just before it, fails in the
      same way on an empty file. */
  function SnAxis(sncont: seq<SncontRow>): (r: Result<(real, real)>)
    ensures r.Ok? <==> |sncont| > 0
    ensures r.Err? ==> r.error.ValueError?
    ensures r.Ok? ==> r.value.0 == 0.0
                      && (exists k :: 0 <= k < |sncont| && r.value.1 == 1.5 * sncont[k].sncont)
                      && forall k :: 0 <= k < |sncont| ==> 1.5 * sncont[k].sncont <= r.value.1
  {
    var column := SnColumn(sncont);
    var m := NanMax(column);
    if m.Err? then Err(m.error)
    else Ok((0.0, 1.5 * m.value))
  }

  // ------------------------------------------- tuple unpacking as written

  /** The members of a Python tuple returned by `create_simspec_files`. */
  datatype PyValue = SpectrumValue(spectrum: SpectrumTable) | LineValue(line: LineTable)
                   | SummaryValue(summary: seq<SummaryItem>)

  function AsTuple(f: SimspecFiles): seq<PyValue> {
    [SpectrumValue(f.spectrum), LineValue(f.line), SummaryValue(f.summary)]
  }

  /** `a, b = xs`. */
  function UnpackPair(xs: seq<PyValue>): Result<(PyValue, PyValue)> {
    if |xs| == 2 then Ok((xs[0], xs[1]))
    else if |xs| > 2 then Err(ValueError("too many values to unpack (expected 2)"))
    else Err(ValueError("not enough values to unpack (expected 2)"))
  }

  /** Whatever the inputs, the three results never unpack into two names. */
  lemma ShowUnpackFails(f: SimspecFiles)
    ensures UnpackPair(AsTuple(f)) == Err(ValueError("too many values to unpack (expected 2)"))
  {
  }

  // --------------------------------------------------- stated properties

  /** The temporary directory lies inside the session's output directory. */
  lemma TmpDirUnderOutDir(o: Output)
    requires !IsAbsolute(o.tmpdir)
    ensures |TmpDir(o)| > |OutDir(o)| || o.tmpdir == []
    ensures TmpDir(o)[..|OutDir(o)|] == OutDir(o)
    ensures TmpDir(o) == DirPrefix(OutDir(o)) + o.tmpdir
  {
    JoinShape(OutDir(o), o.tmpdir);
  }

  /** An output-file key is `"-"` exactly when its setting is; otherwise it names a file in the session. */
  lemma OutfileDash(o: Output, name: string)
    requires o.sessiondir != []
    ensures OutfileValue(o, name) == "-" <==> name == "-"
    ensures name != "-" ==> OutfileValue(o, name) == Join(OutDir(o), name)
  {
    if name != "-" {
      var a := OutDir(o);
      JoinShape(o.basedir, o.sessiondir);
      assert |a| > 0;
      if IsAbsolute(name) {
        assert Join(a, name) == name;
      } else if a[|a| - 1] == '/' {
        assert Join(a, name)[|a| - 1] == '/';
      } else {
        assert |Join(a, name)| >= 2;
      }
    }
  }

  /** Medium resolution is passed as `"Y"`, low resolution as `"N"`. */
  lemma MrModeFlag(t: Target, e: Environment, i: Instrument, tel: Telescope, o: Output, m: MagFile)
    ensures EtcParams(t, e, i, tel, o, m)[MrMode] == Str("Y") <==> i.mrMode
    ensures EtcParams(t, e, i, tel, o, m)[MrMode] == Str("N") <==> !i.mrMode
  {
  }

  /** The keys `run_etc` sets in each phase. */
  const DirKeys: set<EtcKey> := {OutDirKey, TmpDirKey}
  const ConditionKeys: set<EtcKey> :=
    {Seeing, Degrade, MoonZenithAng, MoonTargetAng, MoonPhase, ExpTime, ExpNum, FieldAng, MrMode, ZenithAng, GalacticExt}
  const SourceKeys: set<EtcKey> :=
    {MagFileKey, Reff, LineFlux, LineWidth, OutfileNoise, OutfileSnc, OutfileSnl, OutfileOii}

  /** Each phase sets its own keys, and no phase sets a key of another, so no setting is overwritten. */
  lemma EtcKeyGroups(t: Target, e: Environment, i: Instrument, tel: Telescope, o: Output, m: MagFile)
    ensures DirParams(o).Keys == DirKeys
    ensures ConditionParams(t, e, i, tel).Keys == ConditionKeys
    ensures SourceParams(m, t, o).Keys == SourceKeys
    ensures DirKeys !! ConditionKeys && DirKeys !! SourceKeys && ConditionKeys !! SourceKeys
  {
    KeyGroupsDisjoint();
  }

  lemma KeyGroupsDisjoint()
    ensures DirKeys !! ConditionKeys && DirKeys !! SourceKeys && ConditionKeys !! SourceKeys
  {
  }

  /** Every observing-condition setting reaches the calculator unchanged. */
  lemma ConditionsPassThrough(t: Target, e: Environment, i: Instrument, tel: Telescope, o: Output, m: MagFile)
    ensures var p, c := EtcParams(t, e, i, tel, o, m), ConditionParams(t, e, i, tel);
      forall k :: k in c ==> k in p && p[k] == c[k]
  {
    EtcKeyGroups(t, e, i, tel, o, m);
  }

  /** The session directories reach the calculator unchanged. */
  lemma DirsPassThrough(t: Target, e: Environment, i: Instrument, tel: Telescope, o: Output, m: MagFile)
    ensures var p, d := EtcParams(t, e, i, tel, o, m), DirParams(o);
      forall k :: k in d ==> k in p && p[k] == d[k]
  {
    EtcKeyGroups(t, e, i, tel, o, m);
  }

  /** The source and output-file settings reach the calculator unchanged, the source key being the
      resolved `mag_file`. */
  lemma SourcePassThrough(t: Target, e: Environment, i: Instrument, tel: Telescope, o: Output, m: MagFile)
    ensures var p, src := EtcParams(t, e, i, tel, o, m), SourceParams(m, t, o);
      forall k :: k in src ==> k in p && p[k] == src[k]
  {
  }

  /** The simulator reads the continuum S/N file the calculator was told to write, and writes into the
      calculator's output directory. */
  lemma SimReadsEtcOutput(t: Target, e: Environment, i: Instrument, tel: Telescope, o: Output,
                          m: MagFile, sc: SimulationConf)
    requires o.snCont != "-"
    ensures var etc, sim := EtcParams(t, e, i, tel, o, m), SimParams(m, i, o, sc);
      sim[EtcFile] == etc[OutfileSnc] && sim[SimOutDir] == etc[OutDirKey]
  {
  }

  /** The simulator uses the calculator's source and number of exposures. */
  lemma SimSharesSource(t: Target, e: Environment, i: Instrument, tel: Telescope, o: Output,
                        m: MagFile, sc: SimulationConf)
    ensures var etc, sim := EtcParams(t, e, i, tel, o, m), SimParams(m, i, o, sc);
      sim[SimMagFile] == etc[MagFileKey] && sim[SimExpNum] == etc[ExpNum]
  {
  }

  /** Distinct session directories under one base directory give distinct artifact names. */
  lemma ArtifactsDistinct(o1: Output, o2: Output)
    requires o1.basedir == o2.basedir
    requires IsComponent(o1.sessiondir) && IsComponent(o2.sessiondir) && o1.sessiondir != o2.sessiondir
    ensures PfsObjectPath(o1) != PfsObjectPath(o2)
    ensures SimspecPrefix(o1) != SimspecPrefix(o2)
    ensures SnlinePrefix(o1) != SnlinePrefix(o2)
  {
    var d, s1, s2 := DirPrefix(o1.basedir), o1.sessiondir, o2.sessiondir;
    JoinComponent(o1.basedir, s1);
    JoinComponent(o2.basedir, s2);
    NamedInjective(d, s1, s2, "pfsObject-", ".fits");
    NamedInjective(d, s1, s2, "pfs_etc_simspec-", "");
    NamedInjective(d, s1, s2, "pfs_etc_snline-", "");
    assert "pfs_etc_simspec-" + s1 + "" == "pfs_etc_simspec-" + s1;
    assert "pfs_etc_simspec-" + s2 + "" == "pfs_etc_simspec-" + s2;
    assert "pfs_etc_snline-" + s1 + "" == "pfs_etc_snline-" + s1;
    assert "pfs_etc_snline-" + s2 + "" == "pfs_etc_snline-" + s2;
  }

  /** The file name `stem + s + ext` made from a component is itself a component. */
  lemma SessionNamed(s: string, stem: string, ext: string)
    requires IsComponent(s) && IsComponent(stem) && (ext == [] || IsComponent(ext))
    ensures IsComponent(stem + s + ext)
  {
    var n := stem + s + ext;
    forall k | 0 <= k < |n| ensures n[k] != '/' {
      if k < |stem| { assert n[k] == stem[k]; }
      else if k < |stem| + |s| { assert n[k] == s[k - |stem|]; }
      else { assert n[k] == ext[k - |stem| - |s|]; }
    }
  }

  /** `d + s + "/" + stem + s + ext` determines `s`. */
  lemma NamedInjective(d: string, s1: string, s2: string, stem: string, ext: string)
    requires IsComponent(s1) && IsComponent(s2) && s1 != s2
    requires |stem| > 0 && stem[0] != '/'
    ensures Join(d + s1, stem + s1 + ext) != Join(d + s2, stem + s2 + ext)
  {
    var n1, n2 := stem + s1 + ext, stem + s2 + ext;
    assert n1[0] == stem[0] && n2[0] == stem[0];
    assert (d + s1)[|d + s1| - 1] == s1[|s1| - 1];
    assert (d + s2)[|d + s2| - 1] == s2[|s2| - 1];
    var p1, p2 := d + s1 + "/" + n1, d + s2 + "/" + n2;
    assert Join(d + s1, n1) == p1 && Join(d + s2, n2) == p2;
    if |s1| != |s2| {
      assert |p1| != |p2|;
    } else {
      assert p1[|d|..|d| + |s1|] == s1;
      assert p2[|d|..|d| + |s2|] == s2;
    }
  }
}
