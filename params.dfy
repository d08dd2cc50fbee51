/** The parameter groups of the calculator: the frozen defaults record, the four
    user-editable groups with their declared bounds and `reset`, and the output
    and simulation settings. */
module Params {
  import opened Wrappers

  newtype byte = x: int | 0 <= x < 256

  /** What `target.mag_file` holds: nothing yet, the magnitude itself (flat source),
      or the path of a magnitude file. */
  datatype MagFile = NoMagFile | MagValue(mag: real) | MagPath(path: string)

  /** The frozen record every default is read from. */
  datatype PfsSpecParameter = PfsSpecParameter(
    // target
    template: string, mag: real, magFile: MagFile, wavelength: real, redshift: real,
    customInput: Option<seq<byte>>, rEff: real, galacticExtinction: real,
    lineFlux: real, lineWidth: real, lineSn: bool,
    // observing condition
    seeing: real, degrade: real, moonZenithAngle: int, moonTargetAngle: int, moonPhase: real,
    // instrument
    expTime: int, expNum: int, fieldAngle: real, mrMode: bool,
    // telescope
    zenithAngle: int,
    // misc
    noiseReused: bool,
    // output for the exposure-time calculator
    basedir: string, sessiondir: string, tmpdir: string,
    outfileNoise: string, outfileSnContinuum: string, outfileSnLine: string, outfileSnOii: string,
    // output for the simulator
    outfileSimspec: string, nrealize: int, writeFits: string, writePfsArm: string,
    outfilePfsobject: Option<string>,
    tract: int, patch: string, visit0: int, objId: int, catId: int, countsMin: real,
    spectrograph: int)

  const DefaultParameters: PfsSpecParameter := PfsSpecParameter(
    "Flat in frequency", 20.0, NoMagFile, 550.0, 0.0,
    None, 0.3, 0.0,
    0.00000000000000001, 70.0, true,
    0.8, 1.0, 30, 60, 0.0,
    900, 1, 0.0, false,
    45,
    false,
    "tmp", "out", "tmp",
    "noise.dat", "sn_continuum.dat", "sn_line.dat", "-",
    "simulated_spectrum", 1, "True", "False",
    None,
    0, "0,0", 1, 1, 0, 0.1,
    1)

  // ---------------------------------------------------------------- target

  datatype Target = Target(
    template: string, mag: real, magFile: MagFile, wavelength: real, redshift: real,
    customInput: Option<seq<byte>>, rEff: real, galacticExtinction: real,
    lineFlux: real, lineWidth: real, lineSn: bool)

  /** The declared bounds of the target group (all inclusive; `None` is unbounded). */
  predicate TargetInBounds(t: Target) {
    440.0 <= t.wavelength <= 1240.0 && 0.0 <= t.redshift <= 20.0
    && 0.0 <= t.lineFlux && 0.0 <= t.lineWidth
    && 0.0 <= t.galacticExtinction && 0.0 <= t.rEff
  }

  /** A freshly constructed target group. The undeclared `mag_file` attribute does not exist yet. */
  function TargetDefaults(): Target {
    var d := DefaultParameters;
    Target(d.template, d.mag, NoMagFile, d.wavelength, d.redshift, d.customInput,
           d.rEff, d.galacticExtinction, d.lineFlux, d.lineWidth, d.lineSn)
  }

  /** The state `TargetConf.reset` leaves: every assigned field from the defaults record. */
  function ResetTarget(t: Target): Target {
    var d := DefaultParameters;
    Target(d.template, d.mag, d.magFile, d.wavelength, d.redshift, t.customInput,
           d.rEff, d.galacticExtinction, d.lineFlux, d.lineWidth, d.lineSn)
  }

  /** Reset restores the constructed state except for the uploaded spectrum, which it keeps. */
  lemma ResetTargetRestoresDefaults(t: Target)
    ensures ResetTarget(t) == TargetDefaults().(customInput := t.customInput)
    ensures ResetTarget(t).customInput == t.customInput
    ensures TargetInBounds(ResetTarget(t))
    ensures ResetTarget(ResetTarget(t)) == ResetTarget(t)
  {
  }

  class TargetConf {
    var template: string
    var mag: real
    var magFile: MagFile
    var wavelength: real
    var redshift: real
    var customInput: Option<seq<byte>>
    var rEff: real
    var galacticExtinction: real
    var lineFlux: real
    var lineWidth: real
    var lineSn: bool

    function Value(): Target
      reads this
    {
      Target(template, mag, magFile, wavelength, redshift, customInput,
             rEff, galacticExtinction, lineFlux, lineWidth, lineSn)
    }

    predicate Valid()
      reads this
    {
      TargetInBounds(Value())
    }

    constructor ()
      ensures Value() == TargetDefaults() && Valid()
    {
      var d := DefaultParameters;
      template, mag, magFile, wavelength, redshift := d.template, d.mag, NoMagFile, d.wavelength, d.redshift;
      customInput, rEff, galacticExtinction := d.customInput, d.rEff, d.galacticExtinction;
      lineFlux, lineWidth, lineSn := d.lineFlux, d.lineWidth, d.lineSn;
    }

    method Reset()
      modifies this
      ensures Value() == ResetTarget(old(Value())) && Valid()
      ensures customInput == old(customInput)
    {
      var d := DefaultParameters;
      template := d.template;
      mag := d.mag;
      wavelength := d.wavelength;
      redshift := d.redshift;
      magFile := d.magFile;
      galacticExtinction := d.galacticExtinction;
      rEff := d.rEff;
      lineFlux := d.lineFlux;
      lineWidth := d.lineWidth;
      lineSn := d.lineSn;
    }
  }

  // ----------------------------------------------------------- environment

  datatype Environment = Environment(
    seeing: real, degrade: real, moonZenithAngle: int, moonTargetAngle: int, moonPhase: real)

  predicate EnvironmentInBounds(e: Environment) {
    0.0 <= e.seeing <= 2.0 && 0.0 <= e.degrade <= 1.0
    && 0 <= e.moonZenithAngle <= 90 && 0 <= e.moonTargetAngle <= 180
    && 0.0 <= e.moonPhase <= 1.0
  }

  function EnvironmentDefaults(): Environment {
    var d := DefaultParameters;
    Environment(d.seeing, d.degrade, d.moonZenithAngle, d.moonTargetAngle, d.moonPhase)
  }

  /** `EnvironmentConf.reset` assigns all five fields, so the old state does not matter. */
  function ResetEnvironment(e: Environment): Environment {
    EnvironmentDefaults()
  }

  lemma ResetEnvironmentRestoresDefaults(e: Environment)
    ensures EnvironmentInBounds(ResetEnvironment(e))
    ensures ResetEnvironment(ResetEnvironment(e)) == ResetEnvironment(e)
    ensures ResetEnvironment(e).seeing == 0.8 && ResetEnvironment(e).degrade == 1.0
  {
  }

  class EnvironmentConf {
    var seeing: real
    var degrade: real
    var moonZenithAngle: int
    var moonTargetAngle: int
    var moonPhase: real

    function Value(): Environment
      reads this
    {
      Environment(seeing, degrade, moonZenithAngle, moonTargetAngle, moonPhase)
    }

    predicate Valid()
      reads this
    {
      EnvironmentInBounds(Value())
    }

    constructor ()
      ensures Value() == EnvironmentDefaults() && Valid()
    {
      var d := DefaultParameters;
      seeing, degrade, moonZenithAngle, moonTargetAngle, moonPhase :=
        d.seeing, d.degrade, d.moonZenithAngle, d.moonTargetAngle, d.moonPhase;
    }

    method Reset()
      modifies this
      ensures Value() == ResetEnvironment(old(Value())) && Valid()
    {
      var d := DefaultParameters;
      seeing := d.seeing;
      degrade := d.degrade;
      moonZenithAngle := d.moonZenithAngle;
      moonTargetAngle := d.moonTargetAngle;
      moonPhase := d.moonPhase;
    }
  }

  // ------------------------------------------------------------ instrument

  datatype Instrument = Instrument(expTime: int, expNum: int, fieldAngle: real, mrMode: bool)

  predicate InstrumentInBounds(i: Instrument) {
    0 <= i.expTime && 1 <= i.expNum && 0.0 <= i.fieldAngle <= 0.7
  }

  function InstrumentDefaults(): Instrument {
    var d := DefaultParameters;
    Instrument(d.expTime, d.expNum, d.fieldAngle, d.mrMode)
  }

  function ResetInstrument(i: Instrument): Instrument {
    InstrumentDefaults()
  }

  lemma ResetInstrumentRestoresDefaults(i: Instrument)
    ensures InstrumentInBounds(ResetInstrument(i))
    ensures ResetInstrument(ResetInstrument(i)) == ResetInstrument(i)
    ensures ResetInstrument(i) == Instrument(900, 1, 0.0, false)
  {
  }

  class InstrumentConf {
    var expTime: int
    var expNum: int
    var fieldAngle: real
    var mrMode: bool

    function Value(): Instrument
      reads this
    {
      Instrument(expTime, expNum, fieldAngle, mrMode)
    }

    predicate Valid()
      reads this
    {
      InstrumentInBounds(Value())
    }

    constructor ()
      ensures Value() == InstrumentDefaults() && Valid()
    {
      var d := DefaultParameters;
      expTime, expNum, fieldAngle, mrMode := d.expTime, d.expNum, d.fieldAngle, d.mrMode;
    }

    method Reset()
      modifies this
      ensures Value() == ResetInstrument(old(Value())) && Valid()
    {
      var d := DefaultParameters;
      expTime := d.expTime;
      expNum := d.expNum;
      fieldAngle := d.fieldAngle;
      mrMode := d.mrMode;
    }
  }

  // ------------------------------------------------------------- telescope

  datatype Telescope = Telescope(zenithAngle: int)

  predicate TelescopeInBounds(t: Telescope) {
    30 <= t.zenithAngle <= 90
  }

  function TelescopeDefaults(): Telescope {
    Telescope(DefaultParameters.zenithAngle)
  }

  function ResetTelescope(t: Telescope): Telescope {
    TelescopeDefaults()
  }

  lemma ResetTelescopeRestoresDefaults(t: Telescope)
    ensures TelescopeInBounds(ResetTelescope(t))
    ensures ResetTelescope(ResetTelescope(t)) == ResetTelescope(t)
    ensures ResetTelescope(t).zenithAngle == 45
  {
  }

  class TelescopeConf {
    var zenithAngle: int

    function Value(): Telescope
      reads this
    {
      Telescope(zenithAngle)
    }

    predicate Valid()
      reads this
    {
      TelescopeInBounds(Value())
    }

    constructor ()
      ensures Value() == TelescopeDefaults() && Valid()
    {
      zenithAngle := DefaultParameters.zenithAngle;
    }

    method Reset()
      modifies this
      ensures Value() == ResetTelescope(old(Value())) && Valid()
    {
      zenithAngle := DefaultParameters.zenithAngle;
    }
  }

  // ---------------------------------------------------------------- output

  datatype Output = Output(
    basedir: string, sessiondir: string, tmpdir: string,
    noise: string, snCont: string, snLine: string, snOii: string,
    simspec: string, writeFits: string, writePfsArm: string, pfsobject: Option<string>)

  function OutputDefaults(): Output {
    var d := DefaultParameters;
    Output(d.basedir, d.sessiondir, d.tmpdir,
           d.outfileNoise, d.outfileSnContinuum, d.outfileSnLine, d.outfileSnOii,
           d.outfileSimspec, d.writeFits, d.writePfsArm, d.outfilePfsobject)
  }

  /** Output settings: the session subdirectory is reassigned for every run. */
  class OutputConf {
    var basedir: string
    var sessiondir: string
    var tmpdir: string
    var noise: string
    var snCont: string
    var snLine: string
    var snOii: string
    var simspec: string
    var writeFits: string
    var writePfsArm: string
    var pfsobject: Option<string>

    function Value(): Output
      reads this
    {
      Output(basedir, sessiondir, tmpdir, noise, snCont, snLine, snOii,
             simspec, writeFits, writePfsArm, pfsobject)
    }

    constructor ()
      ensures Value() == OutputDefaults()
      ensures basedir == "tmp" && sessiondir == "out" && tmpdir == "tmp" && snOii == "-"
    {
      var d := DefaultParameters;
      basedir, sessiondir, tmpdir := d.basedir, d.sessiondir, d.tmpdir;
      noise, snCont, snLine, snOii := d.outfileNoise, d.outfileSnContinuum, d.outfileSnLine, d.outfileSnOii;
      simspec, writeFits, writePfsArm, pfsobject := d.outfileSimspec, d.writeFits, d.writePfsArm, d.outfilePfsobject;
    }
  }

  // ------------------------------------------------------------ simulation

  /** Settings handed to the spectrum simulator; never changed after construction. */
  datatype SimulationConf = SimulationConf(
    nrealize: int, tract: int, patch: string, visit0: int, objId: int, catId: int,
    countsMin: real, spectrograph: int)

  function SimulationDefaults(): SimulationConf {
    var d := DefaultParameters;
    SimulationConf(d.nrealize, d.tract, d.patch, d.visit0, d.objId, d.catId, d.countsMin, d.spectrograph)
  }

  // ----------------------------------------------------------- all groups

  /** Every default of the four user-editable groups lies within its declared bound. */
  lemma DefaultsInBounds()
    ensures TargetInBounds(TargetDefaults()) && EnvironmentInBounds(EnvironmentDefaults())
    ensures InstrumentInBounds(InstrumentDefaults()) && TelescopeInBounds(TelescopeDefaults())
  {
  }
}
