# PFS spectral simulator web application — verified model

This project models the core of the web front end of the PFS exposure-time calculator and
spectrum simulator (`pfs_etc_web`). The modelled parts:

- **Parameter groups** (module `Params`, `pfs_etc_params.py`). The frozen defaults record, the target,
  observing-condition, instrument and telescope groups, their declared bounds and their `reset`, and the
  output and simulation settings. Each group that the application updates in place is a class, and
  `Value()` reads its current settings as one record.
- **Spectral source resolution** (module `SpecTemplates`, `pfs_etc_spectemplates.py`).
  `create_template_spectrum` picks one of three sources: a custom upload, a catalog template, or the
  analytic "Flat in frequency" source. It sets `mag_file` in place. A template name outside the catalog is
  a `KeyError`. The module also models the wavelength window that `prepare_spectrum` writes out.
- **Packaging of one result** (module `SimspecFiles`, `create_simspec_files` in `pfs_etc_utils.py`).
  It covers:
  - the spectrum table: rows, columns and header cards;
  - the emission-line table, with its header;
  - the fifteen-item parameter summary.
- **The adapter** (module `SpecSim`, `pfs_etc_specsim.py`). It builds the calculator's and the simulator's
  parameter maps key by key and creates the session directories. It runs the calculator strictly before
  the simulator, and it names the packaged artifacts after the session directory.
- **The application** (module `App`, `pn_app.py`). It covers:
  - the click handlers that queue events;
  - the run loop: a fresh session id per run, the busy page, the simulation, then the plot, the run button
    and the four downloads;
  - the reset loop;
  - start-up, which creates the base directory.

  The run loop is modelled over the corrected `show()` of the Findings section. As written, `show()` raises
  `ValueError` after both engines have run, which ends the loop's thread with the page busy and the queue
  kept; `App.App.ExecOneAsWritten` and `App.App.DrainExecAsWritten` model that behaviour.
- **Session ids** (module `Session`). A run's id is the local time as `YYYYMMDD-HHMMSS`, `_`, then 8 random
  bytes as 16 lowercase hex digits. Proved properties: the id parses back to its clock reading and its bytes,
  and it is usable as a single directory name.
- **Path joining** (module `Paths`). `os.path.join` on POSIX.

The external engines and the filesystem appear only through what they record:
- `Engine.calls` is the sequence of calculator and simulator runs, each with the parameter map it received;
- `Disk.dirs` is the set of existing directories, and `Disk.refused` the paths the operating system refuses to create.

The clock, the random bytes and the rows of the files the engines write are inputs of each run (`App.Observation`).
Errors that the source raises become `Err` values of `Wrappers.Result`:
- `sys.exit` is `SystemExit`;
- a missing catalog name is `KeyError`;
- a tuple that cannot be unpacked, or a continuum S/N column that neither matches the spectrum's length nor
  has a single row to repeat over a non-empty table, is `ValueError`;
- a refused `mkdir` is `OSError`.

An exception inside the run loop ends the loop's thread. The model's drain method therefore stops at the
first failing run and leaves the queue and the busy page as they are.

## Model

| member | source | states |
|---|---|---|
| Params.ResetTargetRestoresDefaults | src/pfs_etc_web/pfs_etc_params.py:138-148 | target reset restores every constructed default except the uploaded spectrum, which it keeps; the result is within bounds and a second reset changes nothing |
| Params.TargetConf.Reset | src/pfs_etc_web/pfs_etc_params.py:138-148 | the target group's new settings are `ResetTarget` of the old ones, within the declared bounds, and `custom_input` is untouched |
| Params.TargetConf.constructor | src/pfs_etc_web/pfs_etc_params.py:77-136 | a new target group holds the defaults record's values and lies within its bounds |
| Params.ResetEnvironmentRestoresDefaults | src/pfs_etc_web/pfs_etc_params.py:178-183 | environment reset gives seeing 0.8 and degrade 1.0, within bounds, and is idempotent |
| Params.EnvironmentConf.Reset | src/pfs_etc_web/pfs_etc_params.py:178-183 | the environment group is back at its defaults, within bounds |
| Params.EnvironmentConf.constructor | src/pfs_etc_web/pfs_etc_params.py:151-176 | a new environment group holds the defaults and lies within its bounds |
| Params.ResetInstrumentRestoresDefaults | src/pfs_etc_web/pfs_etc_params.py:207-211 | instrument reset gives 900 s, 1 exposure, field angle 0, low resolution; within bounds and idempotent |
| Params.InstrumentConf.Reset | src/pfs_etc_web/pfs_etc_params.py:207-211 | the instrument group is back at its defaults, within bounds |
| Params.InstrumentConf.constructor | src/pfs_etc_web/pfs_etc_params.py:186-205 | a new instrument group holds the defaults and lies within its bounds |
| Params.ResetTelescopeRestoresDefaults | src/pfs_etc_web/pfs_etc_params.py:221-222 | telescope reset gives zenith angle 45, within 30..90, and is idempotent |
| Params.TelescopeConf.Reset | src/pfs_etc_web/pfs_etc_params.py:221-222 | the telescope group is back at its default, within bounds |
| Params.TelescopeConf.constructor | src/pfs_etc_web/pfs_etc_params.py:214-219 | a new telescope group holds the default and lies within its bounds |
| Params.OutputConf.constructor | src/pfs_etc_web/pfs_etc_params.py:225-272 | the output settings start at the defaults: base `tmp`, session `out`, temporary `tmp`, no [OII] file |
| Params.DefaultsInBounds | src/pfs_etc_web/pfs_etc_params.py:13-74 | every default of the four editable groups lies within that group's declared bounds |
| Paths.JoinShape | src/pfs_etc_web/pfs_etc_specsim.py:53-61 | `os.path.join`: an absolute part replaces the path, a relative one extends it, and the result ends with the last part |
| Paths.JoinComponent | src/pfs_etc_web/pfs_etc_specsim.py:53-61 | joining a single component appends it after one separator |
| Paths.JoinInjective | src/pfs_etc_web/pn_app.py:96 | one directory joined with two components gives the same path exactly when the components are equal |
| Session.DecimalRoundTrip | src/pfs_etc_web/pn_app.py:89 | a zero-padded field of the timestamp reads back as the number it was written from |
| Session.Timestamp | src/pfs_etc_web/pn_app.py:89 | `%Y%m%d-%H%M%S` is 15 characters, with a dash at position 8 and digits everywhere else |
| Session.TokenHex | src/pfs_etc_web/pn_app.py:91 | `token_hex` writes two lowercase hex digits per byte |
| Session.HexRoundTrip | src/pfs_etc_web/pn_app.py:91 | the hex digits read back as the random bytes |
| Session.NewSessionId | src/pfs_etc_web/pn_app.py:88-92 | a session id is 32 characters: timestamp digits, `-` at 8, `_` at 15, then 16 hex digits |
| Session.ParseNewSessionId | src/pfs_etc_web/pn_app.py:88-92 | a session id gives back the clock reading and the random bytes it was made from |
| Session.SessionIdInjective | src/pfs_etc_web/pn_app.py:88-92 | two ids are equal exactly when clock readings and random bytes are equal |
| Session.SessionIdIsComponent | src/pfs_etc_web/pn_app.py:96 | a session id contains no separator, so it names one directory |
| SpecTemplates.CatalogShape | src/pfs_etc_web/pfs_etc_spectemplates.py:60-73 | the catalog has twelve names, and the flat source is the only one mapped to no file |
| SpecTemplates.ResolveMagFile | src/pfs_etc_web/pfs_etc_spectemplates.py:75-97 | the new `mag_file` is the magnitude for the flat source without an upload, else the temporary magnitude file, whether or not the name resolves |
| SpecTemplates.CustomInputWins | src/pfs_etc_web/pfs_etc_spectemplates.py:75-91 | with an upload, the upload is converted into the temporary magnitude file, whatever template is selected |
| SpecTemplates.FlatUsesMagnitude | src/pfs_etc_web/pfs_etc_spectemplates.py:93-95 | without an upload the flat source sets `mag_file` to the magnitude and writes no file |
| SpecTemplates.CatalogTemplate | src/pfs_etc_web/pfs_etc_spectemplates.py:96-104 | any other name gets the temporary file as `mag_file` and succeeds exactly when it is in the catalog; otherwise `KeyError(name)` |
| SpecTemplates.ResolveIgnoresMagFile | src/pfs_etc_web/pfs_etc_spectemplates.py:57-108 | the previous `mag_file` never influences resolution |
| SpecTemplates.CreateTemplateSpectrum | src/pfs_etc_web/pfs_etc_spectemplates.py:57-108 | only `mag_file` changes, to the resolved value, also on `KeyError`; success returns the same target object |
| SpecTemplates.Window | src/pfs_etc_web/pfs_etc_spectemplates.py:50 | the written points are points of the spectrum, all with `wmin <= w <= wmax` |
| SpecTemplates.WindowAppend | src/pfs_etc_web/pfs_etc_spectemplates.py:50-54 | selection commutes with concatenation, so the original order is kept |
| SpecTemplates.WindowComplete | src/pfs_etc_web/pfs_etc_spectemplates.py:50-54 | every point inside the window is written |
| SpecTemplates.WriteWindow | src/pfs_etc_web/pfs_etc_spectemplates.py:52-54 | the write loop emits exactly the windowed points, in order |
| SimspecFiles.KeyNameInjective | src/pfs_etc_web/pfs_etc_utils.py:340-378 | different header keys are written as different keywords |
| SimspecFiles.CreateSimspecFiles | src/pfs_etc_web/pfs_etc_utils.py:306-338 | packaging succeeds exactly when the continuum S/N rows match the spectrum rows in number, or there is one of them and the spectrum is not empty (the table repeats a one-row column); then one table row per spectrum row, and the line rows are kept as they are |
| SimspecFiles.SpectrumRowsCopied | src/pfs_etc_web/pfs_etc_utils.py:306-338 | each spectrum-table row copies wavelength, flux, error, sky and arm, makes the mask boolean, and takes S/N and pixel from the continuum row of the same index, or from the single continuum row |
| SimspecFiles.SncontBroadcast | src/pfs_etc_web/pfs_etc_utils.py:318-338 | a one-row continuum file is repeated down a non-empty spectrum table (S/N, input flux and pixel alike) and is an error against an empty one |
| SimspecFiles.LookupAt | src/pfs_etc_web/pfs_etc_utils.py:340-378 | looking up the key of a card that no earlier card shares yields that card's value |
| SimspecFiles.LookupCards | src/pfs_etc_web/pfs_etc_utils.py:340-378 | a header written from a key list holds a key's value exactly when the key is listed |
| SimspecFiles.MetaKeysDistinct | src/pfs_etc_web/pfs_etc_utils.py:418-469 | neither header repeats a key |
| SimspecFiles.ExposureHeaders | src/pfs_etc_web/pfs_etc_utils.py:352-357 | in both tables the total exposure time is the single exposure time times the number of exposures, and both factors are recorded |
| SimspecFiles.TemplateHeaders | src/pfs_etc_web/pfs_etc_utils.py:294-302 | the template cards hold the template's name, magnitude, wavelength and redshift, or "Custom" and three `None`s after an upload |
| SimspecFiles.SharedKeysAgree | src/pfs_etc_web/pfs_etc_utils.py:426-469 | both tables record the same value for each of the seventeen shared keys |
| SimspecFiles.LineOnlyHeaders | src/pfs_etc_web/pfs_etc_utils.py:418-425 | only the line table carries the emission-line flux and width |
| SimspecFiles.SummaryNumbered | src/pfs_etc_web/pfs_etc_utils.py:471-487 | the summary has items 1 to 15 in order, each with one value per label |
| SimspecFiles.SummaryTemplateItems | src/pfs_etc_web/pfs_etc_utils.py:471-475 | summary items 1 to 4 repeat the template header values |
| SimspecFiles.SummaryExposureItems | src/pfs_etc_web/pfs_etc_utils.py:483-484 | summary items 12 and 13 repeat the single exposure time and the number of exposures |
| SpecSim.Engine.Call | src/pfs_etc_web/pfs_etc_specsim.py:146 | an engine run is appended to the call record |
| SpecSim.Disk.MakeDirs | src/pfs_etc_web/pfs_etc_specsim.py:64-67 | `os.makedirs` succeeds exactly when the path is not refused, and then adds the directory |
| SpecSim.PfsSpecSim.constructor | src/pfs_etc_web/pfs_etc_specsim.py:24-50 | the adapter shares the given parameter objects, takes `OMP_NUM_THREADS` or 4, and starts with empty parameter maps and no artifact names |
| SpecSim.PfsSpecSim.RunEtc | src/pfs_etc_web/pfs_etc_specsim.py:52-146 | a refused directory exits before anything else is set; an unknown template stops before the source keys and the engine; otherwise the full parameter map is passed to exactly one calculator run |
| SpecSim.PfsSpecSim.SetDirParams | src/pfs_etc_web/pfs_etc_specsim.py:53-61 | `OUTDIR` and `TMPDIR` are the session directory and its temporary directory |
| SpecSim.PfsSpecSim.MakeSessionDirs | src/pfs_etc_web/pfs_etc_specsim.py:62-67 | the missing directories are created in order, stopping at the first refusal |
| SpecSim.PfsSpecSim.SetConditionParams | src/pfs_etc_web/pfs_etc_specsim.py:69-86 | the condition, instrument, telescope and extinction keys are set from the parameter groups |
| SpecSim.PfsSpecSim.SetSourceParams | src/pfs_etc_web/pfs_etc_specsim.py:92-139 | the source keys and the four output-file keys are set |
| SpecSim.PfsSpecSim.RunSim | src/pfs_etc_web/pfs_etc_specsim.py:148-174 | the simulator's map is set, then exactly one simulator run receives it |
| SpecSim.PfsSpecSim.Exec | src/pfs_etc_web/pfs_etc_specsim.py:176-179 | skipped: nothing changes. Otherwise the run succeeds exactly when the directories exist and the source resolves; success means a calculator run then a simulator run, and failure means no engine call |
| SpecSim.PfsSpecSim.NameArtifacts | src/pfs_etc_web/pfs_etc_specsim.py:182-202 | the pfsObject file and both table prefixes are named after the session directory |
| SpecSim.PfsSpecSim.Show | src/pfs_etc_web/pfs_etc_specsim.py:181-247 | corrected `show()`: names the artifacts, packages the two tables (they stand for the files written from them at lines 213-230) and scales the plot's S/N axis. It succeeds exactly when packaging succeeds and the continuum file is not empty; otherwise it fails with packaging's error, or with `ValueError` from the plot |
| SpecSim.NanMax | src/pfs_etc_web/pfs_etc_utils.py:143-144 | `np.nanmax` gives an entry that no entry exceeds, and raises `ValueError` exactly for an empty array |
| SpecSim.SnAxis | src/pfs_etc_web/pfs_etc_utils.py:143-144 | the plot's S/N axis runs from 0 to one and a half times the largest continuum S/N, so it holds every point; an empty continuum file raises `ValueError` |
| SpecSim.PfsSpecSim.ShowAsWritten | src/pfs_etc_web/pfs_etc_specsim.py:204-212 | `show()` as written always ends in `ValueError` |
| SpecSim.ShowUnpackFails | src/pfs_etc_web/pfs_etc_utils.py:489 | the three results of `create_simspec_files` never unpack into two names |
| SpecSim.TmpDirUnderOutDir | src/pfs_etc_web/pfs_etc_specsim.py:53-61 | the temporary directory lies inside the session directory: it is the session directory, a `/` unless one ends it already, then the `tmpdir` setting |
| SpecSim.OutfileDash | src/pfs_etc_web/pfs_etc_specsim.py:101-139 | an output-file key is `-` exactly when its setting is; otherwise it names a file in the session directory |
| SpecSim.MrModeFlag | src/pfs_etc_web/pfs_etc_specsim.py:80 | `MR_MODE` is `Y` exactly for medium resolution and `N` exactly for low |
| SpecSim.EtcKeyGroups | src/pfs_etc_web/pfs_etc_specsim.py:52-139 | the directory, condition and source phases set disjoint key sets, so no setting is overwritten |
| SpecSim.ConditionsPassThrough | src/pfs_etc_web/pfs_etc_specsim.py:69-86 | every condition setting reaches the calculator unchanged |
| SpecSim.DirsPassThrough | src/pfs_etc_web/pfs_etc_specsim.py:53-61 | the session directories reach the calculator unchanged |
| SpecSim.SourcePassThrough | src/pfs_etc_web/pfs_etc_specsim.py:88-139 | the resolved `mag_file` and the other source and output settings reach the calculator unchanged |
| SpecSim.SimReadsEtcOutput | src/pfs_etc_web/pfs_etc_specsim.py:154-168 | the simulator reads the continuum S/N file the calculator writes, and writes into the calculator's output directory |
| SpecSim.SimSharesSource | src/pfs_etc_web/pfs_etc_specsim.py:150-161 | the simulator uses the calculator's `mag_file` and number of exposures |
| SpecSim.ArtifactsDistinct | src/pfs_etc_web/pfs_etc_specsim.py:193-202 | different session directories under one base give different pfsObject paths and table prefixes |
| SpecSim.SessionNamed | src/pfs_etc_web/pfs_etc_specsim.py:193-202 | a file name built from a session id is a single path component |
| SpecSim.NamedInjective | src/pfs_etc_web/pfs_etc_specsim.py:193-202 | a session-named file in a session directory determines the session |
| App.App.constructor | src/pfs_etc_web/pn_app.py:43-80 | fresh parameter objects at their defaults, the placeholder plot, the enabled `Run` button, hidden downloads and empty queues |
| App.App.OnClickExec | src/pfs_etc_web/pn_app.py:194-195 | a run click is appended to the run queue |
| App.App.OnClickReset | src/pfs_etc_web/pn_app.py:197-198 | a reset click is appended to the reset queue |
| App.App.BeginRun | src/pfs_etc_web/pn_app.py:88-105 | the session directory becomes the new id; the button shows `Running` and is disabled, the placeholder plot is shown and the downloads are hidden |
| App.App.Simulate | src/pfs_etc_web/pn_app.py:109-119 | a new adapter over the shared objects runs. The directories are created as far as the disk allows, and once they exist `mag_file` becomes the resolved file. The run succeeds exactly when the directories exist and the source resolves; it then adds one calculator run and one simulator run, and on failure none |
| App.App.Present | src/pfs_etc_web/pn_app.py:122-145 | presenting succeeds exactly when the tables can be packaged and the continuum file is not empty. Then the plot shows the run, the button is `Run` and enabled, and the four downloads offer both tables as FITS and ECSV; otherwise the page is unchanged |
| App.App.ExecOne | src/pfs_etc_web/pn_app.py:85-145 | one run: a new session directory, the directories created and the new `mag_file`. It succeeds exactly when the simulation completes and the tables can be packaged and plotted. A completed simulation adds its two engine calls, and an incomplete one adds none; on success the page shows the run, on failure it stays busy |
| App.App.PresentAsWritten | src/pfs_etc_web/pn_app.py:122 | the call of `show()` as written always raises `ValueError` |
| App.App.ExecOneAsWritten | src/pfs_etc_web/pn_app.py:85-122 | one run over `show()` as written always fails and leaves the page busy; when the simulation completes, its two engine calls were made and the error is `ValueError` |
| App.App.DrainExecAsWritten | src/pfs_etc_web/pn_app.py:82-161 | over `show()` as written, a non-empty queue ends after its first run with the queue kept and the page busy, having made only that run's two engine calls; an empty queue is cleared |
| SpecSim.CreateDirsGrows | src/pfs_etc_web/pfs_etc_specsim.py:62-67 | creating the session directories never removes a directory |
| SpecSim.CreateDirsMonotone | src/pfs_etc_web/pfs_etc_specsim.py:62-67 | directory creation that succeeds succeeds again when more directories exist already |
| App.RunCompletesMonotone | src/pfs_etc_web/pn_app.py:109-119 | a simulation that completes still completes with more directories present and whatever `mag_file` an earlier run left |
| App.StepSucceeds | src/pfs_etc_web/pn_app.py:85-145 | when every queued run would succeed from the initial state, so does run `k` from the state the earlier runs leave |
| App.App.ExecStep | src/pfs_etc_web/pn_app.py:85-145 | run `k` succeeds exactly when it completes with the directories present at that step and its tables can be presented; the `mag_file` earlier runs left does not matter. The directories only grow. If every queued run would succeed from the state before the loop, run `k` succeeds. On success it extends the calls of runs `0..k-1` by its own two calls |
| App.App.DrainExec | src/pfs_etc_web/pn_app.py:82-161 | all queued runs in order, two engine calls each, then the queue is cleared and the last run is shown; the first failure stops the loop with the queue kept and the button busy. An empty queue succeeds, and so does a queue whose every run would complete and could be presented from the state before the loop |
| App.App.DrainReset | src/pfs_etc_web/pn_app.py:163-183 | any number of queued resets acts as one: the four groups are reset, the plot and downloads emptied, the queue cleared; with no clicks nothing changes |
| App.Launch | src/pfs_etc_web/pn_app.py:43-53 | start-up creates the base directory when it is missing; a refused directory stops start-up with `OSError` |
| App.ExecCallsSnoc | src/pfs_etc_web/pn_app.py:85-161 | the calls of `k + 1` runs are those of `k` runs followed by run `k`'s, whatever `mag_file` and session the earlier runs left |
| App.DistinctRunsDistinctDirs | src/pfs_etc_web/pn_app.py:88-96 | runs with different clock readings or random bytes write into different directories |
| App.OffersDistinctAcrossRuns | src/pfs_etc_web/pn_app.py:131-142 | the four files one run offers for download are never those of another run |

## Left out

- Threads, condition variables, `time.sleep` and the endless `while True` loop are not modelled. `DrainExec` and `DrainReset` model one pass, and the model does not cover clicks that arrive during a pass.
- The calculator and simulator engines (`pfsetc`, `pfsspec`) are external. The model records the parameter maps they receive and the order of their runs, not their computation or their own defaults.
- Reading the engines' output files (`load_simspec`, `load_snline`, `load_sncont`) is not modelled. Their rows are inputs of each run (`App.Observation`).
- Writing the tables as FITS and ECSV, the pfsObject `glob`/`rename`, and the `output.pfsobject` update are not modelled. A `glob` that finds no file would raise `IndexError`; that path is not modelled either.
- `prepare_spectrum`'s synphot normalization, redshifting, unit conversion and the replacement of non-finite magnitudes by 99.9 are floating-point library work. Only its wavelength window and write loop are modelled.
- Parsing an uploaded CSV spectrum and converting it to AB magnitudes is not modelled. `flux_input` is kept as the input AB magnitude (`SpectrumRow.inputAbMag`), without the nJy conversion.
- `SpecSim.FloatStr` keeps the decimal text Python writes for a float symbolic; its digits are not modelled.
- The plot objects (`create_dummy_plot`, `create_simspec_plot`) are reduced to `App.Plot`. Of `create_simspec_plot` only the S/N axis and the `ValueError` on an empty continuum file are modelled (`SpecSim.SnAxis`); the input-flux axis needs the AB-to-nJy conversion, and NaN entries, which `np.nanmax` skips, are not modelled. `pfs_etc_plots.py` and `pfs_etc_widgets.py` are not part of this model.
- Logging and `print` calls are not modelled.
- `show()`'s `infile` argument is not modelled; the application never passes it.
- The header comments are a function of the key (`SimspecFiles.KeyComment`) rather than a field of each card.
- `Session.NewSessionId`: only years 1000 to 9999 are modelled, because `%Y` pads shorter years differently across platforms.
- `App.App.DrainExec`: with an empty queue the contract states success, no engine calls and the cleared queue. It does not state that the page is untouched.
- `App.App.DrainExec` states a sufficient condition for success, not the exact one: directories made by an earlier run can let a later run succeed that would fail from the initial state.
- `App.App.DrainExec` does not restate the session id of the last run; `App.App.ExecOne` and `App.App.BeginRun` state it for each run.
- `App.App.DrainExec`: after a failure it does not state the engine calls of the runs before it. `App.App.ExecStep` states them run by run.
- `SpecSim.PfsSpecSim.Exec` assumes that the engines, the parsing of an uploaded CSV spectrum and synphot's normalization in `prepare_spectrum` do not fail. Its "succeeds exactly when" holds under that assumption: an exception from any of them is not modelled.
- `App.App.Simulate` inherits that assumption from `SpecSim.PfsSpecSim.Exec`. Its "succeeds exactly when" holds only for engines and library calls that do not raise.
- `App.App.ExecOne`, `App.App.DrainExec` and `App.App.ExecOneAsWritten` inherit the same assumption through `App.App.Simulate`.
- `SpecSim.PfsSpecSim.constructor` takes `OMP_NUM_THREADS` already read as a number. `int()` raises `ValueError` for a non-numeric value, and that error is not modelled; `App.App.constructor` and `App.Launch` take the same parsed value.
- `main.py` and the `bak` and `cli` directories are not part of this model.

## Findings

| source | as written | input that shows it | evidently intended | confidence | as-written member | corrected member |
|---|---|---|---|---|---|---|
| src/pfs_etc_web/pfs_etc_specsim.py:204-212 | `show()` unpacks the result of `create_simspec_files` into two names. That function returns three values (`pfs_etc_utils.py:489`), so the unpacking raises `ValueError`. | any completed run: every call of `show()`, whatever the tables hold. In the application this happens after both engines ran, so the run loop's thread ends with the button at `Running` and the queue kept | take the spectrum table and the line table, and drop the summary text | not executed | SpecSim.PfsSpecSim.ShowAsWritten | SpecSim.PfsSpecSim.Show |
