# HGCAL module testing bench — a Dafny model

This project models the control logic of the HGCAL module testing GUI, the program an operator uses to test a
hexaboard or a live silicon module on a test bench. A session brings the bench up step by step:
- connect the high-voltage (HV) supply and check the leakage current;
- power the module through the DCDC/LV board and its trophy board;
- power and reach the Trenz hexacontroller, load its firmware and start its DAQ and I2C servers;
- run pedestal, trimming and other test scripts on a DAQ PC;
- tear everything down again in reverse dependency order.

The GUI shows the bench's state as a dictionary of boolean LED flags. The model keeps those flags as a map and proves
the order in which every procedure raises and lowers them.

The modules follow the source files:

- `Bench`: the LED flags, the bench snapshot and the generic step and log machinery shared by the procedures.
- `Sessions`: the mutable session (`state`, the instrument and PC handles, the event log) as a class.
- `Interaction`: `open_close_box` and the nested teardown `end_session`.
- `Procedures`: `connect_HV`, `check_leakage_current`, `initial_module_checks` and `configure_test_stand`.
- `Pedestals`: `run_pedestals`, `multi_run_pedestals`, `trim_pedestals` and the `restart_services` guard.
- `SetupForm` and `ModuleSerial`: the setup form of `TestingGUIBase.py`.
  - The module index is normalised and the serial number is composed.
  - `init_state` resets the flags.
  - Setup and test runs are validated.
- `ExternalPc`: `ExternalPC.py`.
  - It selects a configuration from the serial.
  - It merges nested configuration trees (`recursive_update`, `updateconf`).
  - It supervises a detached test script (`ScriptProcess`), including the `-I` initialisation flag and `init_outdir`.
- `CentosPc`: the older `CentosPC.py`, with the same duties.
- `Keithley2410Driver` and `Keithley2400Driver`: the two source-meter drivers. Each is a class that records every command
  it writes. Commands are SCPI strings and IEEE 488.2 common commands (section 10 of IEEE 488.2), kept as opaque strings.
- `TrenzStand`: firmware selection and the checks on the test stand's command output.
- `PostgresTools`: the INSERT and SELECT query builders.
- `HexmapSummary`: channel classification, patch shapes and the label and path derivation of `hexmap/plot_summary.py`.
- `Text`, `Paths` and `Wrappers`: string helpers (`split`, `join`, `rstrip`, `zfill`), path helpers and the
  `Option`/`Result` types.

Everything outside the program becomes a parameter or a field of the model. This covers:
- the operator's answers to prompts (always "continue" unless the prompt may end the session) and the lid switch;
- instrument readings and error-queue entries;
- a process's poll code, the run directories a glob finds, and a command's stdout and stderr;
- the configuration files on disk, as a map from path to configuration tree.

Voltages and currents are `real`s.

### Where the description and the code differ

The model follows the code in each of these cases.
- `end_session` does not walk a dependency graph that skips a failing step. It is a fixed nested sequence. A failure,
  such as a handle that is still a placeholder, ends the teardown there.
- The older PC's `pedestal_run` is modelled both as written and over the corrected `_run_script`
  (`PedestalRunIntended`); see Findings.
- Stopping a running script does not discard its results. `end_test` still merges the script's output into the
  configuration (see Findings).
- The Keithley 2410 `voltage_sweep` switches the output off after the read with no exception guard. The Keithley 2400
  `takeIV` leaves the output on if a step fails.
- `set_source_voltage` writes the target voltage directly. There is no ramp, and switching the output off does not set
  0 V first.

## Model

| member | source | states |
|---|---|---|
| Bench.LedList | TestingGUIBase.py:151-152 | `ledlist` has exactly the fifteen LED flags, in the order the form declares them |
| Bench.LedIndex | TestingGUIBase.py:151-152 | every flag sits at exactly one position of `ledlist` |
| Bench.LedListIndex | TestingGUIBase.py:151-152 | no flag occurs twice in `ledlist` (position and flag determine each other) |
| Bench.ResetFlags | TestingGUIBase.py:249-256 | after the walk over `ledlist` every flag has the value `init_state` gives it: live and debug from the form, every other flag down |
| Bench.StagedWiden | InteractionGUI.py:88-181 | a run of flag changes that keeps a stage order within one band keeps it within any wider band |
| Bench.StagedConcat | InteractionGUI.py:88-181 | two staged runs, the second starting at the stage where the first may end, form one staged run |
| Bench.OnlyLowersConcat | InteractionGUI.py:88-181 | two runs that only lower flags form a run that only lowers flags |
| Bench.TornDownConcat | InteractionGUI.py:88-181 | two teardown runs in later-stage order form one teardown run |
| Bench.TornDownWiden | InteractionGUI.py:88-181 | a teardown run stays one in any wider band of stages |
| Bench.TornDownChain | InteractionGUI.py:88-181 | a log extended by two successive teardown runs has been extended by a single teardown run |
| Bench.StagedChain | InteractionGUI.py:485-591 | a log extended by two successive staged runs has been extended by a single staged run |
| Bench.StagedSet | InteractionGUI.py:195-203 | one `update_state` on a flag is a run of that flag's stage |
| Bench.StagedQuiet | InteractionGUI.py:43-69 | an entry that changes no flag (a prompt, an instrument call) fits any stage |
| Bench.StagedSkip | InteractionGUI.py:43-69 | putting a non-flag entry in front of a run changes neither its staging nor whether it only lowers |
| Bench.TellLowerEvents | InteractionGUI.py:111-177 | an instruction window followed by lowering one flag is a one-stage lowering run |
| Bench.Lowering | InteractionGUI.py:195-203 | lowering a list of flags logs exactly one flag change per flag |
| Bench.LowerFlagsEffect | InteractionGUI.py:195-203 | lowering flags one by one lowers exactly those flags and leaves every other flag as it was |
| Bench.LoweringStaged | InteractionGUI.py:145-160 | lowering flags that share one stage is a staged lowering run of that stage |
| Sessions.Session.constructor | TestingGUIBase.py:245 | the session object holds the given record |
| Sessions.Session.Update | InteractionGUI.py:195-203 | `update_state` sets the flag and logs the change; nothing else changes |
| Sessions.Session.Instruct | InteractionGUI.py:43-69 | an instruction window adds only a prompt to the log |
| Sessions.Session.Record | InteractionGUI.py:446-459 | an instrument call adds only its log entry |
| Sessions.Session.SwitchOutput | InteractionGUI.py:446-459 | `outputOn`/`outputOff` is logged and the supply's output follows it |
| Sessions.Session.InitState | TestingGUIBase.py:248-265 | every LED flag takes its initial value, the serial, inspector and status come from the form, the three handles are cleared, the trim mark is removed; the lid, readings and log are unchanged |
| Sessions.Session.LeakageScan | InteractionGUI.py:440-460 | the record ends as the leakage-check step function says; outside debug mode the check is nominal exactly when no key of the scan trips |
| Sessions.Session.ScanKeys | InteractionGUI.py:449-457 | the log gains a set-and-measure pair for each key up to and including the first that trips; nominal exactly when no key trips |
| Sessions.Session.MultiRunPedestals | InteractionGUI.py:671-685 | the record and status end as the multi-run step function says |
| Sessions.ScanEventsSnoc | InteractionGUI.py:449-457 | the supply calls for one more key follow those of the keys before it |
| Paths.LastPart | ExternalPC.py:130 | `split(c)[-1]` holds no separator |
| Paths.CutAtLast | ExternalPC.py:129-130 | cutting at the last separator and gluing the halves back together gives the path; without a separator the last part is the whole path |
| Paths.Head | hexmap/plot_summary.py:293 | the head `os.path.dirname` starts from, followed by the base name, is the path |
| Paths.StripSlashes | hexmap/plot_summary.py:293 | `rstrip('/')` keeps a prefix with no trailing slash and removes only slashes |
| Paths.DirName | hexmap/plot_summary.py:293 | `os.path.dirname` is a prefix of the path, and empty when the path has no slash |
| Paths.BaseNameOfChild | hexmap/plot_summary.py:278 | the base name of `dir/name` is `name` when `name` has no slash |
| Paths.DirNameOfChild | hexmap/plot_summary.py:293 | a directory without a trailing slash is the dirname of every file directly in it |
| ModuleSerial.Density | InteractionGUI.py:101 | `serial.split('-')[1][1]`; the only failure is IndexError |
| ModuleSerial.Shape | InteractionGUI.py:102 | `serial.split('-')[2][0]`; the only failure is IndexError |
| ModuleSerial.RocVersion | ExternalPC.py:67 | `serial.split('-')[2][-1]`; the only failure is IndexError |
| ModuleSerial.ComposeSerialNested | TestingGUIBase.py:384-386 | the composed serial, grouped from the right, puts one dash after each piece |
| ModuleSerial.ComposeSerialSplit | TestingGUIBase.py:384-386 | a serial composed from dash-free parts splits on `-` back into exactly those five parts |
| ModuleSerial.ComposeSerialParse | TestingGUIBase.py:384-386 | the density, shape and ROC version read back from a composed serial are the characters the form put in it |
| ModuleSerial.LeadingZerosValue | TestingGUIBase.py:377-378 | leading zeros do not change the value of a digit string |
| ModuleSerial.NormalizeIndexAccepted | TestingGUIBase.py:372-378 | a numeric index no longer than `serlen` is stored as exactly `serlen` digits of the same value |
| ModuleSerial.NormalizeIndexRejected | TestingGUIBase.py:372-380 | a numeric index longer than `serlen` leaves the stored index unchanged; a blank or non-numeric one clears it |
| CentosPc.CentosConfig | CentosPC.py:44-55 | low-density full boards take `initLD-trophyV3.yaml` and left/right boards `initLD-semi.yaml`; every other low-density shape and every high-density board raises NotImplementedError; any other density has no configuration; a malformed serial raises IndexError |
| CentosPc.PyIndex | CentosPC.py:121 | `runs[i]` with negative indices: defined exactly for `-len <= i < len` and counts from the end for negative `i` |
| CentosPc.HexmapLabel | CentosPC.py:157-176 | with the default index the label is `<module>_run<last>` (plus `_BV<bias>` when given) under the data location; an empty run list raises IndexError |
| CentosPc.HexmapLabelSplitFails | CentosPC.py:169-170 | a last run named with `BV` and no bias given fails with AttributeError (`runs.split` on a list) |
| CentosPc.RelativeNameMisses | CentosPC.py:119-136 | as written, the name handed to `mv` is never the run directory |
| CentosPc.AsWrittenPathMisses | CentosPC.py:131-137 | the path the as-written `pedestal_run` returns for a biased run is never the run directory with `_BV<bias>` appended |
| CentosPc.BaseNameFinds | CentosPC.py:119-136 | with the base name of the run, the data location plus the relative name gives back the run directory |
| CentosPc.CentosPC.constructor | CentosPC.py:25-42 | the PC starts uninitiated with the DAQ client restart as its only command |
| CentosPc.CentosPC.Create | CentosPC.py:25-55 | the object exists exactly when the configuration choice does not raise, with that configuration |
| CentosPc.CentosPC.Launch | CentosPC.py:108-122 | no configuration at all raises AttributeError and changes nothing; otherwise the script command (with `-I` exactly when not yet initiated) is run; no run raises IndexError before `initiated` is set; else the PC is initiated and the greatest run path is returned |
| CentosPc.CentosPC.RunScript | CentosPC.py:95-124 | as written: returns `scriptname/` followed by the whole greatest glob path |
| CentosPc.CentosPC.RunScriptIntended | CentosPC.py:95-124 | as documented: returns `scriptname/` followed by the base name of the greatest run |
| CentosPc.CentosPC.PedestalRun | CentosPC.py:126-140 | as written (over `RunScript`): with a bias, `<DataLoc>/<module>/pedestal_run/<whole glob path>` is moved to the same name with `_BV<bias>` and that name returned; without one nothing is moved and nothing returned |
| CentosPc.CentosPC.PedestalRunIntended | CentosPC.py:126-140 | as intended (over `RunScriptIntended`): with a bias the newest run directory is moved to `<dir>_BV<bias>` and that path returned; without one nothing is moved and nothing returned |
| CentosPc.CentosPC.StatusDaq | CentosPC.py:78-93 | the client counts as running exactly when some output line contains `Active: active (running)` |
| CentosPc.CentosPC.RestartDaq | CentosPC.py:57-76 | the restart command is run and the client status read back as `status_daq` reads it |
| SetupForm.MajorType | TestingGUIBase.py:305-332 | the two type characters after an event: the board kind and the density, each kept when no button of its group is set |
| SetupForm.MinorType | TestingGUIBase.py:334-358 | the four minor-type fields after an event: the shape, then thickness/baseplate/pre-series for a live module or the version with no mark for a hexaboard |
| SetupForm.ConcatDashFree | TestingGUIBase.py:384-386 | the joined minor type of dash-free fields is dash-free and starts with the shape |
| SetupForm.SerialHead | TestingGUIBase.py:384-386 | a composed serial splits at its first dashes into `320`, the major type and the minor type |
| SetupForm.SerialKind | TestingGUIBase.py:384-386 | density and shape read back from the serial are the characters the form chose |
| SetupForm.MinorTypeShape | TestingGUIBase.py:334-358 | the new minor type keeps a one-character shape and no dashes |
| SetupForm.ConfigureCheck | TestingGUIBase.py:395-419 | "Configure Test Stand" proceeds exactly when live or hexaboard is chosen, the index and a non-blank host name (returned stripped) are given, a hexaboard has a vendor id, the serial is composed, and the board is neither partial high-density nor low-density top, bottom or five; a refusal says "Not Implemented" exactly when only the board kind is at fault, otherwise "Invalid Setup" |
| SetupForm.ConfiguredBoardHasFirmware | TestingGUIBase.py:395-419 | every board the guard lets through has a Trenz firmware, chosen by the density the form shows |
| SetupForm.HighDensityFullOnCentos | TestingGUIBase.py:414-417 | a high-density full board passes the guard and has Trenz firmware, but the CentOS PC has no configuration for it |
| SetupForm.EditMajor | TestingGUIBase.py:305-332 | the button-by-button edit equals `MajorType` and keeps the characters dash-free |
| SetupForm.EditShape | TestingGUIBase.py:334-339 | the button-by-button edit equals the shape choice |
| SetupForm.EditMinor | TestingGUIBase.py:334-358 | the button-by-button edit equals `MinorType` |
| SetupForm.SerialForm.Start | TestingGUIBase.py:214-220 | the start values `['X','L']`, `['F','2','C','']`, no index, no vendor id and no serial |
| SetupForm.SerialForm.Refresh | TestingGUIBase.py:304-386 | one event: types edited, vendor id taken from a hexaboard form, index normalised, serial recomposed with the MAC serial or vendor id (kept when neither kind is chosen); the serial then reads back the density and shape shown |
| SetupForm.SerialForm.Recompose | TestingGUIBase.py:383-386 | the serial from the type lists, MAC serial or vendor id and index; other fields unchanged |
| SetupForm.ElectricalTestsRefused | TestingGUIBase.py:528-532 | an electrical test is refused exactly when one is requested and not all of DCDC-Powered, Hexactrl-Accessed, I2C-Server and DAQ-Client are up |
| SetupForm.FreshSessionRefusesTests | TestingGUIBase.py:528-532 | right after `init_state` every electrical test is refused |
| SetupForm.PedestalCount | TestingGUIBase.py:561-565 | the run count asked for, clamped to six |
| SetupForm.PedestalRequest | TestingGUIBase.py:552-584 | a list is handed on exactly when the count is numeric and, for a live module, each of the first fields is numeric; it then holds one stripped bias per run, or one None per run for a hexaboard |
| SetupForm.TrimBias | TestingGUIBase.py:539-549 | "Invalid Instructions" exactly for a live module without a numeric bias; a live module trims at the stripped bias, a hexaboard without one |
| PostgresTools.Placeholders | PostgresTools.py:55 | `n` placeholders, the k-th being `$k+1` |
| PostgresTools.GetQuery | PostgresTools.py:50-57 | the query is `pre_query` (a leading blank, `INSERT INTO <table> (<columns joined by ", ">) VALUES` and two blanks) followed by one more blank and the tuple of one placeholder per column |
| PostgresTools.PlaceholdersDistinct | PostgresTools.py:55 | no two placeholders of a query name the same parameter |
| PostgresTools.PlaceholderListPieces | PostgresTools.py:46-55 | the placeholder list has as many comma-separated pieces as placeholders |
| PostgresTools.GetQueryOld | PostgresTools.py:11-48 | for the four known tables the query is the table's multi-line header, line breaks and indentation included, then a blank and exactly one placeholder per column; any other table fails on the unassigned `pre_query` |
| PostgresTools.KnownColumnsCommaFree | PostgresTools.py:17-45 | no column name of the four known tables holds a comma, so counting comma pieces counts columns |
| PostgresTools.OldQueryAgrees | PostgresTools.py:46-56 | when neither table nor column names hold a comma, counting the header's comma pieces gives one placeholder per column, the same VALUES tuple `get_query` ends with |
| PostgresTools.GetQueryRead | PostgresTools.py:99-129 | a query exactly for the four known tables, None otherwise; every query starts with `SELECT`; the hexmap table with a part name selects `adc_mean_hexmap` and ends with `WHERE module_name = '<part>';`; without one it ends with the latest-ten ordering by plot-test number, and the other tables with the latest-ten ordering by date and time |
| PostgresTools.GetQueryReadNamesTable | PostgresTools.py:99-125 | every read query selects FROM the table it was asked for |
| Text.SplitPartsFree | CentosPC.py:44-45 | no part of Python `split` on one character holds the separator |
| Text.JoinSplit | CentosPC.py:44-45 | splitting on `c` and joining with `c` gives back the string |
| Text.SplitJoin | TestingGUIBase.py:384-386 | joining separator-free parts and splitting again gives back the parts |
| Text.SplitPieces | PostgresTools.py:46 | `split` gives one more piece than there are separators |
| Text.ZFill | TestingGUIBase.py:378 | `zfill` gives a string of the width (or the original length, if longer) that ends with the original |
| Text.RStrip | TestingGUIBase.py:372 | `rstrip` keeps a prefix that ends in a non-whitespace character and removes only whitespace, Python's whole whitespace set included |
| Text.NatToStringInjective | PostgresTools.py:55 | different numbers print differently |
| Text.AnyLineContains | CentosPC.py:84-89 | the status loop finds the marker exactly when some line contains it |
| Text.GreatestUnique | CentosPC.py:119-121 | a list has only one greatest string |
| Text.LastSorted | CentosPC.py:119-121 | `runs.sort(); runs[-1]` is an entry of the list not below any other |
| ExternalPc.MergeMaps | ExternalPC.py:295-314 | the merged mapping has the keys of both; keys only in `conf` keep their value and keys only in `mod` take theirs |
| ExternalPc.Merged | ExternalPC.py:295-314 | the merge succeeds exactly when no mapping has to be merged into a non-mapping; a failure is AttributeError |
| ExternalPc.MergeFails | ExternalPC.py:303-306 | one key whose values cannot be merged makes the whole merge raise |
| ExternalPc.MergeVisit | ExternalPC.py:301-312 | visiting one more key of `mod` stores its merged value and keeps the loop invariant |
| ExternalPc.MergeComplete | ExternalPC.py:301-314 | once every key of `mod` has been visited the mapping is the merge |
| ExternalPc.RecursiveUpdate | ExternalPC.py:295-314 | the loop over the keys of `mod` returns exactly the merge of `mod` into `conf`, or its AttributeError |
| ExternalPc.MergeValueIdempotent | ExternalPC.py:295-314 | merging the same value a second time changes nothing |
| ExternalPc.MergeMapsIdempotent | ExternalPC.py:295-314 | merging the same mapping a second time changes nothing |
| ExternalPc.MergedIdempotent | ExternalPC.py:295-314 | `recursive_update` is idempotent: merging the same `mod` twice equals merging it once |
| ExternalPc.MergedSelf | ExternalPC.py:295-314 | a mapping merged onto itself is unchanged |
| ExternalPc.UpdateConf | ExternalPC.py:316-335 | a missing configuration file raises FileNotFoundError; with no update file, or an empty one, the disk is unchanged; an update that is not a mapping, or a non-empty one onto a configuration that is not, raises AttributeError; otherwise the configuration file becomes `recursive_update(conf, mod)`, failing exactly when the merge does, and no other file changes |
| ExternalPc.UpdateConfIdempotent | ExternalPC.py:316-335 | rewriting the configuration with the same update file a second time leaves the disk as it is |
| ExternalPc.Location | ExternalPC.py:44-59 | a software location exists exactly for Centos7, or Alma9 with no branch, `feature-alma9` or `ROCv3` |
| ExternalPc.SoftwarePresent | ExternalPC.py:61-63 | the check passes exactly when the environment script and `pedestal_run.py` exist; otherwise AssertionError |
| ExternalPc.CheckHexactrlSw | ExternalPC.py:337-360 | passes exactly for a known location with both files present; fails with the unbound `env` or an AssertionError |
| ExternalPc.SelectConfig | ExternalPC.py:65-114 | as written (with `shape == 'R' or 'L'` always true): the chosen name under `etc/configs/` of the script location, failing exactly when the choice fails, and then only with IndexError, NotImplementedError, the unassigned `self.config`, or the misspelt `NotImplementedErro` |
| ExternalPc.SelectConfigIntended | ExternalPC.py:65-114 | the same choice with `shape == 'R' or shape == 'L'`: the intended name under `etc/configs/`, with the same possible failures |
| ExternalPc.SelectConfigLd | ExternalPC.py:72-93 | low density: full boards take the trophy file, left/right/top boards the semi file, bottom and five boards their own file, each in its V3 or V3b variant; a V3 bottom or five board raises NotImplementedError; an unknown shape or chip version leaves the configuration unassigned |
| ExternalPc.ConfigNameDensity | ExternalPC.py:72-114 | a configuration is chosen only for density L or H, and the file is an `initLD` one exactly for L and an `initHD` one exactly for H, as written and as intended |
| ExternalPc.SelectConfigHdSemi | ExternalPC.py:105-107 | as written, every high-density V3b board that is neither full nor bottom gets the semi-module file, top boards included |
| ExternalPc.SelectConfigIntendedHd | ExternalPC.py:105-114 | as intended, high-density V3b left/right boards get the semi file, top boards the top file, and other shapes none |
| ExternalPc.SelectConfigIntendedAgrees | ExternalPC.py:65-114 | outside high-density boards that are neither full nor bottom, the two choices agree |
| ExternalPc.HdTopTakesSemiConfig | ExternalPC.py:105-112 | for serial `320-MH-T2-CM-0001` the written choice is the semi file and the intended one the top file |
| ExternalPc.CopyFile | ExternalPC.py:117 | `cp` puts the source's content at the target and changes no other file; a missing source copies nothing |
| ExternalPc.Construct | ExternalPC.py:44-114 | the constructor goes ahead only with a known location, both files present, and the configuration the selection chose; an unknown system fails on the unassigned `self.env` and a missing file on the assert |
| ExternalPc.IsFinished | ExternalPC.py:376-386 | False while the process runs, True for exit code 0, RuntimeError for any other exit code |
| ExternalPc.Pc.constructor | ExternalPC.py:33-124 | the PC starts uninitiated, without an output directory, with `current_config.yaml` as its configuration, made by copying the chosen file |
| ExternalPc.Pc.Create | ExternalPC.py:25-124 | the object exists exactly when the constructor's checks and choice succeed; the chosen file is copied to `current_config.yaml`, which is used from then on |
| ExternalPc.Pc.InitOutdir | ExternalPC.py:126-130 | `dut` is the last component (no slash in it) and `basedir` the rest, so `basedir/dut` is the output directory; nothing else changes |
| ExternalPc.Pc.CreateProc | ExternalPC.py:214-224 | without an output directory the command cannot be built (AttributeError); otherwise a new process for the script with `-I` exactly when not initiated; the PC is unchanged |
| ExternalPc.Pc.CollectOutput | ExternalPC.py:196-212 | with no run the result is empty and nothing changes; otherwise the greatest run is returned, the PC is initiated and, when merging, the script's output file is folded into the configuration |
| ExternalPc.Pc.RunScript | ExternalPC.py:170-212 | the script command (with `-I` exactly when not initiated) is run, then the output collected with merging |
| ExternalPc.Pc.StatusDaq | ExternalPC.py:153-168 | the client counts as running exactly when some line contains `Active: active (running)` |
| ExternalPc.Pc.RestartDaq | ExternalPC.py:132-151 | the restart command is recorded and the status read back; nothing else changes |
| ExternalPc.ScriptProcess.constructor | ExternalPC.py:366-374 | the process holds its PC, script name and command and is not terminated |
| ExternalPc.ScriptProcess.EndTest | ExternalPC.py:388-411 | as written: never terminates and always merges the output of the greatest run |
| ExternalPc.ScriptProcess.EndTestIntended | ExternalPC.py:388-411 | as intended: a crashed process raises and changes nothing; a running one is terminated and its output collected without merging; a finished one is merged |
| ExternalPc.StoppedRunMerged | ExternalPC.py:391-407 | for a `pedestal_scan` stopped while running, the written merge rewrites the configuration and the intended one leaves it |
| TrenzStand.SelectFirmware | TrenzTestStand.py:62-76 | a firmware exactly for low-density full, left and right and high-density full boards (and any other density, with none): trophy v3 for low density, v2 for high; the board type is density plus shape; failures are IndexError or NotImplementedError |
| TrenzStand.ListedDevicesNested | TrenzTestStand.py:12-24 | both semi boards expect the same address rows, and the high-density full board answers every row a low-density full or semi board does |
| TrenzStand.StderrCleanCases | TrenzTestStand.py:140-144 | outside Alma 9 only empty error output is clean; two or more error lines, or one without the `uio_pdrv_genirq` message, always fail the check |
| TrenzStand.TrenzTestStand.Connected | TrenzTestStand.py:38-76 | a connected stand starts with the chosen firmware and board type, neither firmware nor services up, and no commands |
| TrenzStand.TrenzTestStand.Create | TrenzTestStand.py:32-76 | the stand exists exactly when the firmware choice does not raise; it starts with status False |
| TrenzStand.TrenzTestStand.RunCmd | TrenzTestStand.py:78-88 | the command joins the log and nothing else changes |
| TrenzStand.TrenzTestStand.LoadFw | TrenzTestStand.py:90-124 | the loader command is run; a board type with no address table raises KeyError; otherwise the result is True exactly when the overlay loaded and every address row answered, and only True sets `fwloaded` |
| TrenzStand.TrenzTestStand.ScanChannels | TrenzTestStand.py:112-115 | the channels count as found exactly when every address row appears in one of its two spellings |
| TrenzStand.TrenzTestStand.ScanDaq | TrenzTestStand.py:146-157 | the DAQ checks hold exactly when some line shows the service active and some line shows the client script started |
| TrenzStand.TrenzTestStand.ScanI2c | TrenzTestStand.py:169-184 | the I2C checks hold exactly when some line shows the service active and some line holds one of the board identifications |
| TrenzStand.TrenzTestStand.StartServers | TrenzTestStand.py:127-195 | True, and `services`, exactly when the DAQ server started its client, the I2C server identified the board and neither status had error output other than the Alma 9 message; `status()` is then `fwloaded` and this |
| TrenzStand.TrenzTestStand.StatusServers | TrenzTestStand.py:197-239 | each server is reported running exactly when a status line says it is active; `services` becomes their conjunction and error output does not change it |
| Keithley2410Driver.ScpiName | Keithley2410.py:106-122 | an element has a SCPI keyword exactly when it is one of the five known elements |
| Keithley2410Driver.ScpiNames | Keithley2410.py:105-118 | one keyword per element, in list order, each the keyword of its element |
| Keithley2410Driver.JoinCommaSpace | Keithley2410.py:107-108 | joining keywords with `", "` is joining them with `","` once each later keyword carries its blank |
| Keithley2410Driver.DecodeNames | Keithley2410.py:105-118 | decoding keyword pieces with at most one leading blank gives back the elements |
| Keithley2410Driver.KeywordClean | Keithley2410.py:109-118 | a keyword holds no comma and does not start with a blank |
| Keithley2410Driver.ElementStringRoundTrip | Keithley2410.py:99-123 | the `FORMat:ELEMents` string names the elements unambiguously: reading it back gives the list that was set |
| Keithley2410Driver.ElementStringSnoc | Keithley2410.py:105-118 | one more known element extends the element string by `", "` and its keyword |
| Keithley2410Driver.ZipKeys | Keithley2410.py:134 | `dict(zip(keys, values))` holds only the given keys |
| Keithley2410Driver.ZipLookup | Keithley2410.py:134 | with distinct keys each key maps to the value at its own position |
| Keithley2410Driver.RecordsBefore | Keithley2410.py:132-135 | exactly `m` records are built |
| Keithley2410Driver.GroupStep | Keithley2410.py:132-135 | group `i` fits in the pieces, is the next record, and the next group starts `n` pieces later |
| Keithley2410Driver.GroupRecords | Keithley2410.py:131-136 | the loop builds one record per full group of pieces, in order |
| Keithley2410Driver.RecordsBeforeAt | Keithley2410.py:133-134 | record `i` is built from the group starting at `n * i` |
| Keithley2410Driver.ParseShape | Keithley2410.py:125-138 | fewer pieces than elements returns the response itself; no elements at all (with any pieces) divides by zero; otherwise there are `len(pieces) // n` records |
| Keithley2410Driver.ParseFields | Keithley2410.py:128-136 | record `i` of a parsed reading is built from the `i`-th group of `n` comma pieces |
| Keithley2410Driver.RecordFields | Keithley2410.py:133-134 | with distinct names, each of the first `n - 1` names maps to the piece at its position; the last name (normally `status`) is never a key because the slice drops the group's last piece |
| Keithley2410Driver.RecordField | Keithley2410.py:133-134 | one field of a record, as `RecordFields` states for all of them |
| Keithley2410Driver.InitDistinct | Keithley2410.py:133-134 | without its last name a list of distinct names stays distinct and no longer holds that name |
| Keithley2410Driver.FirstField | Keithley2410.py:297-307 | `parse(...)[0][key]` is defined exactly when the reading parsed into records, there is a first one and it holds the key |
| Keithley2410Driver.SweepBracketed | Keithley2410.py:325-335 | in a sweep `OUTPut ON` opens the read, the fetch follows the trigger and `OUTPut OFF` comes right after it; neither output-on nor the fetch occurs earlier |
| Keithley2410Driver.DefaultsKnown | Keithley2410.py:27-35 | every default element is known |
| Keithley2410Driver.ShutdownOrder | Keithley2410.py:67-73 | shutdown zeroes the source before it switches the output off, disables it and returns to local |
| Keithley2410Driver.IVStepsCover | Keithley2410.py:353 | `int(Vmax // step) + 1` steps cover every multiple of the step from 0 V up to `Vmax`, and no more |
| Keithley2410Driver.Keithley2410.Defaults | Keithley2410.py:29-35 | the user defaults: 105 µA, 800 V, current sensing, the five elements, no curves, nothing written |
| Keithley2410Driver.Keithley2410.Create | Keithley2410.py:12-62 | the instrument exists exactly when the terminal is `Rear` or `Front` (RuntimeError otherwise); it has written the full start-up sequence and holds the default settings |
| Keithley2410Driver.Keithley2410.Limits | Keithley2410.py:51-54 | the default elements, limits and sense mode are written and stored |
| Keithley2410Driver.Keithley2410.ApplyLimits | Keithley2410.py:51-54 | the elements, both protection limits and current sensing are written and stored, each accepted by its setter |
| Keithley2410Driver.Keithley2410.Ready | Keithley2410.py:55-59 | the enable line (with an HV switch), output off and greeting are written; settings unchanged |
| Keithley2410Driver.Keithley2410.Reset | Keithley2410.py:38-49 | reset, remote mode, the chosen terminals, source auto-clear and no concurrent sensing are written; settings unchanged |
| Keithley2410Driver.Keithley2410.Send | Keithley2410.py:75-91 | the write or query joins the log; settings unchanged |
| Keithley2410Driver.Keithley2410.SetElements | Keithley2410.py:99-123 | the list is stored in any case; succeeds exactly when every name is known, then writes `FORMat:ELEMents` with their keywords; otherwise ValueError and nothing written |
| Keithley2410Driver.Keithley2410.ParseData | Keithley2410.py:125-138 | the parse with the stored elements is exactly the one `ParseShape` and `ParseFields` describe |
| Keithley2410Driver.Keithley2410.SetCurrentLimit | Keithley2410.py:190-197 | accepted exactly when the magnitude is at most 1.05 A, then stored and written; otherwise ValueError and nothing changes |
| Keithley2410Driver.Keithley2410.SetVoltageLimit | Keithley2410.py:199-206 | accepted exactly when the magnitude is at most 1100 V, then stored and written; otherwise ValueError and nothing changes |
| Keithley2410Driver.Keithley2410.SetSourceVoltageMode | Keithley2410.py:226-238 | the voltage function is always written first; fixed, list and sweep are accepted and written; anything else raises ValueError after the first command |
| Keithley2410Driver.Keithley2410.SetSourceCurrentMode | Keithley2410.py:240-252 | the same for a current source |
| Keithley2410Driver.Keithley2410.SetSourceVoltage | Keithley2410.py:254-261 | accepted exactly when the magnitude is within the stored voltage limit, then a fixed voltage source at that value; otherwise ValueError and nothing written |
| Keithley2410Driver.Keithley2410.SetSourceCurrent | Keithley2410.py:268-275 | accepted exactly when the magnitude is within the stored current limit, then a fixed current source; otherwise the same ValueError text and nothing written |
| Keithley2410Driver.Keithley2410.SetSenseMode | Keithley2410.py:276-288 | voltage or current is stored and configured; anything else raises ValueError and changes nothing |
| Keithley2410Driver.Keithley2410.GetSense | Keithley2410.py:290-307 | the sense mode is written only when it differs, and is afterwards the one asked for; a current reading shorter than two characters raises IndexError in the diagnostic print; otherwise the result is the named element of the first record of the reading, or the parse failure |
| Keithley2410Driver.Keithley2410.SetOutput | Keithley2410.py:172-188 | `OUTPut ON` or `OUTPut OFF` is written; settings unchanged |
| Keithley2410Driver.Keithley2410.SetOutputEnable | Keithley2410.py:164-170 | the enable line is switched on or off; settings unchanged |
| Keithley2410Driver.Keithley2410.DisplayString | Keithley2410.py:363-371 | the text is shown and the display returned to normal; settings unchanged |
| Keithley2410Driver.Keithley2410.SwitchState | Keithley2410.py:215-224 | the enable-line trip state is queried; true exactly for a non-zero answer |
| Keithley2410Driver.Keithley2410.Shutdown | Keithley2410.py:67-73 | succeeds exactly when the stored voltage limit is not negative and then writes the shutdown sequence; otherwise the first step raises and nothing is written |
| Keithley2410Driver.Keithley2410.VoltageSweep | Keithley2410.py:314-342 | out of range nothing is written (ValueError); zero steps fail with ZeroDivisionError after the first display; an invalid current limit raises after current sensing is set; otherwise the sweep is programmed, fetched between output on and off, parsed with the stored elements, and "Sweep complete." is shown only when parsing succeeded |
| Keithley2410Driver.Keithley2410.Execute | Keithley2410.py:325-340 | the programmed sweep runs and its data are parsed with the stored elements |
| Keithley2410Driver.Keithley2410.Program | Keithley2410.py:325-332 | source, range, step size, spacing, count and delay are written in that order |
| Keithley2410Driver.Keithley2410.Fetch | Keithley2410.py:333-335 | output on, trigger, fetch, output off |
| Keithley2410Driver.Keithley2410.TakeIV | Keithley2410.py:344-361 | as written: a zero step divides by zero before anything is written; otherwise the sweep runs from 0 V in `IVSteps(Vmax, step)` = `int(Vmax // step) + 1` steps at 105 µA (with its range and zero-step errors), a parse or missing-row error is passed on, and once both succeed the call raises NameError(`np`); no curve is ever stored |
| Keithley2410Driver.Keithley2410.TakeIVIntended | Keithley2410.py:344-361 | as intended: the same `IVSteps` sweep and errors; it succeeds exactly when the parse and the rows succeed, and then the curve with humidity, temperature, date and time is appended to `IVdata` and returned; a failure stores nothing |
| Keithley2400Driver.NoErrorEntryIsNoError | Keithley2400.py:96 | the instrument's empty-queue answer `0,"No error"` is recognised as the end of the error queue |
| Keithley2400Driver.Leading | Keithley2400.py:94-99 | the count of leading entries that are errors: all before it are errors and the entry at it (if any) reports no error |
| Keithley2400Driver.DrainReadsLeading | Keithley2400.py:91-109 | an error check reads the leading errors up to its cap plus the terminating no-error entry when the cap allows; its text is exactly the errors read, and the rest of the queue is left |
| Keithley2400Driver.DrainCount | Keithley2400.py:93-106 | the number of queue reads is the smaller of the cap and one more than the leading errors |
| Keithley2400Driver.DrainText | Keithley2400.py:96-97 | the collected error text is the concatenation of the leading errors within the cap |
| Keithley2400Driver.DrainRest | Keithley2400.py:93-106 | the queue after a check is the original minus the entries it read |
| Keithley2400Driver.DrainOne | Keithley2400.py:101-106 | `check_for_errors(1)` reads exactly one entry and raises exactly when that entry is a non-empty error, with that entry as text |
| Keithley2400Driver.SweepRows | Keithley2400.py:175-187 | the IV loop's rows are consecutive steps, each holding its set voltage `i*stepV`, the measured voltage, the absolute current and the resistance, never more than `ln` |
| Keithley2400Driver.SweepStops | Keithley2400.py:172-195 | the loop ends after the second compliance hit: every row but the last saw fewer than two hits, and a loop that stopped early without an error saw exactly two |
| Keithley2400Driver.SweepQuiet | Keithley2400.py:176-177 | with a non-zero check interval and no pending errors, the periodic error checks never raise |
| Keithley2400Driver.QuietSweepCompletes | Keithley2400.py:175-187 | with no errors and fewer than two compliance hits the loop makes all its steps, the last being step `n-1` |
| Keithley2400Driver.FullSweep | Keithley2400.py:160-187 | with a positive step, no errors and fewer than two hits, the sweep has `int(maxV//stepV)+1` rows and its last set voltage is within one step below or at `maxV` |
| Keithley2400Driver.StartupSafe | Keithley2400.py:38-60 | start-up never switches the output on: it is switched off before the HV switch is enabled, and the source is set to 0 V with 105 µA compliance |
| Keithley2400Driver.Keithley2400.Connect | Keithley2400.py:32-35 | the VISA resource is opened and reset; output off, no stored curves, the pending errors still queued |
| Keithley2400Driver.Keithley2400.Create | Keithley2400.py:30-63 | construction raises ValueError carrying the pending errors, or RuntimeError for a terminal other than Rear/Front; otherwise the log is open, reset, error reads, set-up and arming, the output is off and no curve is stored |
| Keithley2400Driver.Keithley2400.Setup | Keithley2400.py:38-51 | the terminal, beeper, remote, range, voltage-source and current-sense commands are sent and the output is switched off |
| Keithley2400Driver.Keithley2400.Arm | Keithley2400.py:52-60 | the HV switch is enabled only when configured, then 0 V, 105 µA compliance, auto ranges and the "Adapter connected" message; output state unchanged |
| Keithley2400Driver.Keithley2400.Send | Keithley2400.py:65-66 | a write appends exactly that command to the log and changes nothing else |
| Keithley2400Driver.Keithley2400.DisplayString | Keithley2400.py:82-88 | the text is shown on the top line and both lines are returned to readings; nothing else changes |
| Keithley2400Driver.Keithley2400.OutputOnNow | Keithley2400.py:112-114 | the output-on command is sent and the output flag becomes true |
| Keithley2400Driver.Keithley2400.OutputOffNow | Keithley2400.py:117-119 | the output-off command is sent and the output flag becomes false |
| Keithley2400Driver.Keithley2400.ReadOneError | Keithley2400.py:95 | one read pops the head of the error queue, or answers no-error when it is empty |
| Keithley2400Driver.Keithley2400.CheckForErrors | Keithley2400.py:91-109 | the queue loses exactly the entries read; ValueError is raised exactly when the collected text is non-empty and carries that text |
| Keithley2400Driver.Keithley2400.ReadAll | Keithley2400.py:93-99 | the unbounded loop reads until a no-error entry and returns the leading errors' text |
| Keithley2400Driver.Keithley2400.ReadAtMost | Keithley2400.py:100-106 | the bounded loop reads at most `ln` entries, stopping at a no-error entry |
| Keithley2400Driver.Keithley2400.ReadStep | Keithley2400.py:101-106 | one iteration of the bounded loop either stops on a no-error entry or appends the entry and leaves a check with one fewer read |
| Keithley2400Driver.Keithley2400.MeasureCurrent | Keithley2400.py:128-141 | current sensing is selected and the final current query answers; nothing else changes |
| Keithley2400Driver.Keithley2400.MeasureVoltage | Keithley2400.py:144-151 | voltage sensing is selected and one voltage query answers; nothing else changes |
| Keithley2400Driver.Keithley2400.Step | Keithley2400.py:179-187 | one step sets `i*stepV` and records the row of set voltage, measured voltage, absolute current and resistance |
| Keithley2400Driver.Keithley2400.CheckedStep | Keithley2400.py:176-187 | every `errcheck_step`-th step checks one error entry first and an error ends the step; the state matches the reference step |
| Keithley2400Driver.Keithley2400.SweepLoop | Keithley2400.py:174-195 | the loop's rows, calls, error queue and escaping exception are exactly those of the reference sweep |
| Keithley2400Driver.Keithley2400.TakeIV | Keithley2400.py:155-207 | the output goes on at 0 V; a zero step raises; an exception in the loop leaves the output on and stores nothing; otherwise the curve with the sweep's rows is stored and returned, then 0 V and output off |
| Keithley2400Driver.Keithley2400.Finish | Keithley2400.py:197-207 | the finished curve is appended to the stored curves, then 0 V and the output is switched off |
| Keithley2400Driver.Keithley2400.SwitchState | Keithley2400.py:210-218 | the trip query answers true for 1 and false for 0; any other value raises ValueError |
| Keithley2400Driver.Keithley2400.Release | Keithley2400.py:73-78 | the output goes off first; pending errors raise ValueError before the beeper, local control and close are sent |
| Pedestals.SuperviseOutcome | InteractionGUI.py:619-629 | a supervised detached script ends `'TERM'` exactly when the operator stopped it, raises exactly when it crashed, and changes nothing but the log |
| Pedestals.SuperviseLog | InteractionGUI.py:619 | supervising a script starts exactly that one script |
| Pedestals.BiasOnOutcome | InteractionGUI.py:612-616 | biasing a live module raises without a Keithley supply; otherwise it leaves the supply output on and the HV LED raised, and touches nothing else; an unbiased or dead module is left alone |
| Pedestals.BiasOnLog | InteractionGUI.py:612-616 | biasing starts no PC script |
| Pedestals.TrimTagInjective | InteractionGUI.py:635 | the untrimmed, trimmed and trimmed-at-bias marks are spelled differently, as long as no bias is empty |
| Pedestals.TestTagShape | InteractionGUI.py:636-639 | the run tag fails only for a biased run missing the box humidity or temperature, with that KeyError; it always ends with the trim mark, and a biased tag starts with `BV<bias>_` |
| Pedestals.TestTagBias | InteractionGUI.py:636-639 | the bias of a renamed run can be read back from its tag; an unbiased tag names no bias |
| Pedestals.FinishRunOutcome | InteractionGUI.py:630-662 | finishing a run records the leakage current only for a biased live module, returns the status unchanged, and a hexmap path only for a completed run |
| Pedestals.FinishRunLog | InteractionGUI.py:630-662 | finishing a run starts no PC script |
| Pedestals.PedestalRunOutcome | InteractionGUI.py:619-662 | after biasing, the run returns `'CONT'` exactly when `pedestal_run` completed and `'TERM'` exactly when it was stopped (then with no hexmap path); a crash raises |
| Pedestals.RunPedestalsOutcome | InteractionGUI.py:593-669 | outside debug mode `run_pedestals` returns `'CONT'` iff the script completed and `'TERM'` iff it was stopped, records the leakage of a biased live module, and changes no LED but the HV output |
| Pedestals.PedestalRunLog | InteractionGUI.py:619-662 | the supervised part of a pedestal run starts exactly `pedestal_run` |
| Pedestals.RunPedestalsLog | InteractionGUI.py:593-669 | outside debug mode a pedestal run that returns has started exactly one script, `pedestal_run` |
| Pedestals.RunPedestalsDebug | InteractionGUI.py:609-611 | in debug mode a pedestal run changes nothing and returns `'RUN'` with no hexmap path |
| Pedestals.RunsFromStatus | InteractionGUI.py:676-679 | the loop from bias `i` returns `'CONT'` exactly when the run where it stops completed, otherwise `'TERM'` with no hexmap path |
| Pedestals.RunsFromLog | InteractionGUI.py:676-679 | the loop from bias `i` starts `pedestal_run` once for every bias up to and including the run where it stops |
| Pedestals.RunPedestalsContinues | InteractionGUI.py:626-628 | a run that returns `'CONT'` completed its script and left debug mode off |
| Pedestals.MultiRunOutcome | InteractionGUI.py:671-685 | an empty bias list raises UnboundLocalError; in debug mode the first run ends the loop with `'RUN'`; otherwise every run before the stop completed, the result is `'CONT'` iff the last run completed, and an early stop returns `'TERM'` |
| Pedestals.MultiRunLog | InteractionGUI.py:671-685 | `multi_run_pedestals` starts `pedestal_run` once per bias up to the stop, then opens the mean and noise plots of the last run only when it made any; a stopped run made none |
| Pedestals.TrimScriptsOutcome | InteractionGUI.py:708-753 | supervising the four trimming scripts changes only the log; the status stays `'RUN'` exactly when all of them completed, otherwise `'TERM'` |
| Pedestals.TrimScriptsLog | InteractionGUI.py:708-753 | the trimming scripts start in their fixed order, up to and including the first that does not complete |
| Pedestals.TrimOutcome | InteractionGUI.py:687-775 | outside debug mode `trim_pedestals` returns `'CONT'` iff all four scripts completed, marks the pedestals trimmed (with the bias used) exactly when it did not return `'TERM'`, and changes no LED but the HV output |
| Pedestals.TrimLog | InteractionGUI.py:708-753 | the scripts `trim_pedestals` starts are a prefix of `pedestal_run`, `pedestal_scan`, `vrefnoinv_scan`, `vrefinv_scan` |
| Pedestals.TrimDebug | InteractionGUI.py:700-701 | in debug mode trimming changes nothing, returns `'RUN'` and never marks the pedestals trimmed |
| Pedestals.RestartServicesOutcome | InteractionGUI.py:901-930 | without the DCDC/hexacontroller/firmware guard a restart changes nothing; with it, the DAQ and I2C server LEDs show whether the servers came up and the client LED whether the client did (all up in debug mode), and no other LED changes |
| Pedestals.RestartServicesLog | InteractionGUI.py:911-930 | a restart logs the server restart, the two server LEDs, the client restart, the client LED and, outside debug mode, the reset of the PC's initiated flag, in that order |
| HexmapSummary.PadId | hexmap/plot_summary.py:31-35 | the mapped pad of a (chip, channel, type) key that is in the map, and pad 0 for one that is not |
| HexmapSummary.Classify | hexmap/plot_summary.py:152-164 | a channel is drawn in a class only when it belongs to that class's mask, and is undrawn when it belongs to none |
| HexmapSummary.ClassesDisjoint | hexmap/plot_summary.py:152-164 | the five masks are disjoint: no channel is drawn twice |
| HexmapSummary.UnclassifiedChannels | hexmap/plot_summary.py:152-164 | the channels in no mask are exactly the normal channels with pad 0 and channels of an unknown type |
| HexmapSummary.UnmappedChannelUndrawn | hexmap/plot_summary.py:31-35 | a normal channel missing from the pad map gets pad 0 and so is never drawn |
| HexmapSummary.CellRadius | hexmap/plot_summary.py:48-50 | the cell radius is positive and smaller than the 0.43 default exactly on `HF` boards |
| HexmapSummary.VertexCounts | hexmap/plot_summary.py:54-70 | normal and calibration cells are hexagons, CM0 pentagons, CM1 squares, unconnected cells 100-gons |
| HexmapSummary.ShapeIdentifiesClass | hexmap/plot_summary.py:54-71 | cells of different classes never get the same polygon at the same place |
| HexmapSummary.DrawnShape | hexmap/plot_summary.py:51-72 | there is one patch per row the mask selects, each the class's polygon centred on a selected row |
| HexmapSummary.ColoursMatch | hexmap/plot_summary.py:182 | every selected row contributes exactly one colour value |
| HexmapSummary.CreatePatches | hexmap/plot_summary.py:45-73 | the loop builds exactly the reference list of patches, one per selected row in order |
| HexmapSummary.ClassMask | hexmap/plot_summary.py:179-180 | a class's local mask has one entry per row |
| HexmapSummary.ClassCountsAddUp | hexmap/plot_summary.py:178-182 | because the classes are disjoint, the five local masks together select every drawn row exactly once |
| HexmapSummary.ColumnPatches | hexmap/plot_summary.py:175-182 | the patches and colours of one column are the five classes in turn, with as many colours as patches, one per drawn row with a non-negative value |
| HexmapSummary.PlottedColumns | hexmap/plot_summary.py:170-173 | no more columns are plotted than the summary holds |
| HexmapSummary.PlottedColumnsExact | hexmap/plot_summary.py:170-188 | only `adc_mean` (colour limit 400) and `adc_stdd` (limit 8) are plotted, and each of them that the summary holds is |
| HexmapSummary.DropLast5 | hexmap/plot_summary.py:279 | `label[:-5]` leaves the name without its last five characters, or nothing for a shorter name |
| HexmapSummary.HexmapSetup | hexmap/plot_summary.py:275-295 | the label is the given one or the file's base name without its last five characters; the module is live exactly when the path contains `ML` or `MH`; the directory is the given one or the file's, with `/` appended only when missing; an explicit board type is kept, and deriving one fails exactly as `HbTypeOf` does (IndexError) |
| HexmapSummary.HbTypeOf | hexmap/plot_summary.py:282-285 | a derived board type is two characters, density then shape |
| HexmapSummary.HexmapSetupDefaults | hexmap/plot_summary.py:275-295 | a summary at `<dir>/<serial>/<a>/<b>/<stem>.root` is plotted with label `<stem>`, into `<dir>/<serial>/<a>/<b>/`, for the density and shape of `<serial>` |
| Procedures.ConnectHVOutcome | InteractionGUI.py:387-415 | after `connect_HV` the HV cable LED is up and a supply handle exists; an existing handle is kept, a new one is the placeholder exactly in debug mode, and no other LED changes |
| Procedures.ConnectHVIdempotent | InteractionGUI.py:397-414 | a second `connect_HV` changes nothing |
| Procedures.LeakageKeys | InteractionGUI.py:428-432 | the leakage check has five bias keys |
| Procedures.ScanCount | InteractionGUI.py:448-457 | the scan measures no more keys than there are |
| Procedures.ScanEvents | InteractionGUI.py:450-451 | each measured key costs two supply calls |
| Procedures.ScanCountSpec | InteractionGUI.py:448-457 | the scan measures a prefix of the keys: every key before the last one read nominal, and the scan stopped early exactly when the last measured key drew more than 1 µA below 500 V |
| Procedures.ScanEventsOrder | InteractionGUI.py:448-451 | every scanned key is set on the supply and then measured, in key order |
| Procedures.LeakageScanOutcome | InteractionGUI.py:440-460 | outside debug mode the scan switches the output on, sets and measures the scanned prefix, and leaves the output and its LED off; without a Keithley handle it raises and changes nothing |
| Procedures.AbortSafe | InteractionGUI.py:88-181 | a completed `end_session` inside a procedure returns `'END'` and leaves the bench safe |
| Procedures.ScanAndAskOutcome | InteractionGUI.py:440-483 | after the scan the result is `'END'` only when the operator chose End Test, with HV output, box and cable LEDs down; on `'CONT'` only the HV output LED can have changed |
| Procedures.CheckLeakageOutcome | InteractionGUI.py:419-483 | `check_leakage_current` returns `'CONT'` or `'END'`; with checks skipped it only connects the HV; `'END'` comes only from the operator; on `'CONT'` the cable is in, a supply exists, and after a real scan the box is closed and the output off |
| Procedures.PadsDefined | InteractionGUI.py:238-262 | every board kind the session accepts with density L or H has a pad list, and no other density has one |
| Procedures.PadPowerCheckOutcome | InteractionGUI.py:309-349 | the pad-voltage probe ends the session exactly when a pad is marked incorrect; on `'CONT'` every pad was correct and the DCDC power LED is down again |
| Procedures.DcdcCheckOutcome | InteractionGUI.py:305-349 | connecting the DCDC raises only its LED, and then the pad probe behaves as above |
| Procedures.AfterShortsOutcome | InteractionGUI.py:295-351 | after the shorts check `'END'` comes only from the operator ending the leakage check or a wrong pad voltage; on `'CONT'` the DCDC is connected and unpowered, and a live module has its HV cable in and the box open |
| Procedures.InitialChecksOutcome | InteractionGUI.py:205-351 | `initial_module_checks` raises on an unsupported board kind before anything happens, and outside debug mode raises UnboundLocalError (`env`) untouched when the PC's system and branch name no software location; it returns `'END'` only after a failed check (the software files missing, a short, the operator, a wrong voltage) with the HV LEDs down; on `'CONT'` every check that ran passed |
| Procedures.ConfigureKind | InteractionGUI.py:494-504 | `configure_test_stand` accepts only density L with F/L/R/T/B and H with F/B/T/L/R; everything else raises IndexError or NotImplementedError |
| Procedures.ConfigureKindStricter | InteractionGUI.py:213-220 | every kind `configure_test_stand` accepts is accepted by the session checks; they differ only on the low-density `5` board and other densities |
| Procedures.StartPcOutcome | InteractionGUI.py:570-591 | starting the PC ends the session only when the hexactrl software is missing outside debug mode; on `'CONT'` exactly the DAQ-client LED is raised |
| Procedures.StartServicesOutcome | InteractionGUI.py:554-591 | the stand services ending the session means they failed or the PC software is missing; on `'CONT'` exactly the server and client LEDs are raised |
| Procedures.LoadFirmwareOutcome | InteractionGUI.py:539-591 | the firmware step ends the session only after a firmware, service or PC failure outside debug mode; on `'CONT'` exactly the firmware, server and client LEDs are raised |
| Procedures.StartPcLog | InteractionGUI.py:570-591 | a PC start that continues logs the PC connection (outside debug mode), then the DAQ-client LED |
| Procedures.StartServicesLog | InteractionGUI.py:554-591 | a service start that continues logs the server start (outside debug mode) and the DAQ and I2C server LEDs, then the PC start |
| Procedures.LoadFirmwareLog | InteractionGUI.py:539-591 | a firmware load that continues logs the load (outside debug mode) and the firmware LED, then the services, then the PC start |
| Procedures.BoardsAndBoxOutcome | InteractionGUI.py:506-524 | connecting the boards raises the trophy and hexacontroller LEDs, and a live module's box is closed |
| Procedures.AfterBoxOutcome | InteractionGUI.py:526-591 | the bring-up after the box raises exactly the access, DCDC power, firmware, server and client LEDs on `'CONT'`, and ends the session only after a failure |
| Procedures.ConfigureBoardOutcome | InteractionGUI.py:506-591 | for an accepted board `'END'` comes only from a firmware, service or PC failure outside debug mode, with the HV LEDs down |
| Procedures.ConfigureBoardBringsUp | InteractionGUI.py:506-591 | for an accepted board `'CONT'` means every check passed, exactly the nine bring-up LEDs are up and a live module's box closed |
| Procedures.ConfigureOutcome | InteractionGUI.py:485-591 | `configure_test_stand` raises on an unsupported kind before anything happens, and returns `'END'` only from a firmware, service or PC failure outside debug mode, leaving the DAQ-client LED as it was |
| Procedures.ConfigureBringsUp | InteractionGUI.py:485-591 | on `'CONT'` exactly the nine bring-up LEDs have been raised, a live module's box is closed, and the stand and PC handles exist unless in debug mode |
| Procedures.ConnectBoardsEvents | InteractionGUI.py:506-520 | connecting the boards prompts for the trophy (and loopback on LF), then the hexacontroller and its power, then the Kria switch |
| Procedures.ConnectBoardsLog | InteractionGUI.py:506-520 | the boards are connected in bring-up order: trophy, hexacontroller, its power |
| Procedures.AfterBoxLog | InteractionGUI.py:526-591 | a successful bring-up after the box logs the stand, DCDC power, firmware, servers and client in that order |
| Procedures.ConfigureBoardLog | InteractionGUI.py:506-591 | a configured board raises the bring-up LEDs in stage order |
| Procedures.ConfigureLog | InteractionGUI.py:485-591 | a configured test stand raised its LEDs in bring-up order: trophy, hexacontroller, power, access, DCDC power, firmware, servers, DAQ client |
| Interaction.SessionKind | InteractionGUI.py:100-108 | a serial is rejected only with IndexError or NotImplementedError; an accepted L board has shape F/L/R/T/B/5 and an accepted H board F/B/L/T/R |
| Interaction.OpenCloseBoxLog | InteractionGUI.py:365-379 | `open_close_box` logs only a prompt or a switch poll and the box LED set to the requested state, and only when the LED or the switch disagreed |
| Interaction.OpenCloseBoxOutcome | InteractionGUI.py:353-379 | `open_close_box` leaves the box LED and the switch at the requested state and touches nothing else; it acts exactly when either disagreed, and fails, changing nothing, only when it must poll a placeholder supply |
| Interaction.HVOffLog | InteractionGUI.py:115-119 | with the HV output on, `end_session` first switches the supply off and lowers its LED, and logs nothing else there |
| Interaction.HVOffFlags | InteractionGUI.py:115-119 | the HV step lowers exactly the HV output LED, and fails only without a supply object |
| Interaction.StandShutdownLog | InteractionGUI.py:133-142 | the hexacontroller shutdown is one teardown stage |
| Interaction.StandShutdownFlags | InteractionGUI.py:133-142 | the shutdown lowers exactly the firmware, server and access LEDs, and only when the hexacontroller was accessed |
| Interaction.PowerOffLog | InteractionGUI.py:147-152 | powering off the hexacontroller lowers exactly its power LED, as one teardown stage |
| Interaction.HexDisconnectLog | InteractionGUI.py:131-157 | the hexacontroller teardown logs shutdown, power and connection stages in that order |
| Interaction.DepowerLog | InteractionGUI.py:124-157 | de-powering the DCDC and then the hexacontroller logs teardown stages 1 to 4 in order |
| Interaction.UnplugDcdcLog | InteractionGUI.py:159-168 | the trophy (with the loopback on LF) is disconnected before the DCDC, as stages 5 and 6 |
| Interaction.DcdcTeardownLog | InteractionGUI.py:123-168 | the DCDC branch of `end_session` logs teardown stages 1 to 6 in order |
| Interaction.EndSessionLog | InteractionGUI.py:88-181 | `end_session` either rejects the board kind having done nothing or lowers LEDs in teardown order (HV output, DCDC power, hexacontroller, trophy, DCDC, HV cable), the supply switch-off first when the output was on |
| Interaction.DcdcFlagsKept | InteractionGUI.py:123-157 | which LEDs the DCDC teardown lowers depends only on the DCDC and hexacontroller LEDs |
| Interaction.EndSessionOutcome | InteractionGUI.py:88-181 | `end_session` keeps setup, readings and handles; it fails only on an unsupported board or a placeholder handle; when it completes exactly the LEDs of its teardown are lowered and the box switch reads open |
| Interaction.DcdcFlagsWithin | InteractionGUI.py:123-168 | the DCDC teardown always drops the trophy and DCDC LEDs, drops DCDC power when it was on, touches the hexacontroller only when the DCDC was powered, and never the client, HV, live or debug LEDs |
| Interaction.EndSessionFlagsMembers | InteractionGUI.py:88-181 | `end_session` always lowers the HV output, box and HV cable LEDs, and never the DAQ client, live-module or debug LEDs |
| Interaction.EndSessionFlagsSafe | InteractionGUI.py:88-181 | lowering exactly the teardown LEDs leaves the bench safe: HV off, box open, cable out, and the hexacontroller untouched unless the DCDC was powered |
| Interaction.EndSessionSafe | InteractionGUI.py:88-181 | a completed `end_session` leaves the bench safe |
| Interaction.EndSessionIdempotent | InteractionGUI.py:88-181 | a second `end_session` after a completed one changes nothing at all |

## Left out

- The GUI: windows, LED widgets, layouts and the event loop. Operator prompts, waiting windows and the lid switch are
  parameters; a prompt answers "continue" unless it may end the session.
- Processes and remote access: `os.system`, `subprocess`, the SSH client, `ping` waits and `glob`. Their results
  (exit codes, poll codes, stdout and stderr text, run-directory lists) are parameters.
- Timing: every `sleep`. Also the Keithley 2400's current-settling loop in `measureCurrent`, which is collapsed to
  one poll query plus the final query, and the Keithley 2410's `*OPC?` polling in `_read_async`. Neither loop has a
  result that can be stated.
- Floating point: voltages and currents are exact `real`s. Parsing instrument responses into numbers and formatting
  numbers into commands are parameters or opaque strings.
- Instrument I/O: PyVISA, the unseen SCPI base class of the Keithley 2400 and the `nostdout` wrapper. Each query's
  answer is a parameter.
- YAML load and dump: configuration files are trees in a path-to-tree map.
- Instrument methods that the session calls but `Keithley2410.py` does not define (`get_output`,
  `measureCurrentLoop`, `takeIVnew`): the session talks to an abstract instrument whose answers are parameters.
- Procedures.ConnectHVOutcome: creating the Keithley 2410 always succeeds. The retry after a ValueError in its
  constructor is not modelled.
- Keithley 2410 `__del__`, `get_id`, `set_channel`, `get_limit_tripped`, `get_enable_tripped`, `measureCurrent` and
  `setVoltage`: one-line queries or writes with no logic beyond the command string.
- `take_IV_curve`, `run_other_script`, `scan_pedestals`, `scan_vref`, `check_services`, `plot_IV_curves` and
  `grade_module_window`: GUI and plotting glue around operations modelled elsewhere, plus floating-point IV grading.
- `pedestal_proc`, `script_proc`, `phase_scan` and `sampling_scan` in both PC classes: each only forwards a script
  name to the modelled `create_proc` or `_run_script`.
- `make_hexmaps` and `static_make_hexmaps` of `ExternalPC.py`, and `static_make_hexmaps` of `CentosPC.py`: the label
  derivation from the sorted run list (`labelind = len(runs)-1` for `ind == -1`, the optional `_{tag}` or `_BV{BV}`
  suffix) and the in-process call of `make_hexmap_plots_from_file` on `runs[ind]/pedestal_run0.root` are not
  modelled; the label rule of `CentosPC.make_hexmaps` is (`CentosPc.HexmapLabel`), and the file setup of the plotting
  call is (`HexmapSummary.HexmapSetup`). The static version in `CentosPC.py` would also fail on `runs.split` when the
  run name contains `BV`, the defect `CentosPc.HexmapLabelSplitFails` shows for the class method.
- ExternalPc.RecursiveUpdate: the in-place update of `conf` and the aliasing of the returned object are not modelled;
  the merge is returned as a new value, which `updateconf` cannot tell apart because it only writes the result back.
- `TrenzTestStand.shutdown`: a single remote command with no result.
- Plot rendering in `plot_hexmaps` and `ad_chip_geo`, the legend handler classes, reading ROOT files, and the median
  and standard-deviation statistics.
- `hexmap/hexaboard_geometries.py` (geometry CSV loading and drawing constants; its `get_pad_id` is the one
  modelled), `DBTools.py`, `dbtools.py`, `postgres_tools_testing.py`, `AirControl.py` and `writeconfig.py` are not
  part of this model. They are persistence, serial-relay and static-file glue.
- Database upload through asyncpg: only the query strings are modelled.
- ModuleSerial.Density: states only that the sole failure is IndexError. The character it picks is its definition,
  and its use is stated by the lemmas on serial composition and configuration selection.
- ModuleSerial.Shape: states only that the sole failure is IndexError, as for `Density`.
- ModuleSerial.RocVersion: states only that the sole failure is IndexError, as for `Density`.
- Procedures.LeakageKeys: states only that there are five keys. Their values (0, 1, 10, 100 and 300 V, negated
  under forward polarisation) are its definition. `Procedures.ScanEventsOrder` states that they are scanned in order.
- Text.IsNumeric: Python's `isnumeric` on ASCII characters only. Non-ASCII numerals (superscripts, fullwidth and
  other script digits) count as non-numeric, so `ModuleSerial.NormalizeIndexRejected` clears the index where the
  source would accept such digits or raise ValueError in `int`.
- Text.Upper: Python's `upper` on ASCII letters only; the vendor name is otherwise kept as typed.
- HexmapSummary.ColumnPatches: a column's values are abstracted to one `real` per row. Reading them from the data
  frame is not modelled.

## Findings

| source | as written | input that shows it | evidently intended | confidence | as-written member | corrected member |
|---|---|---|---|---|---|---|
| ExternalPC.py:391 | `if not self.is_finished:` tests the bound method, which is always true, so `terminated` stays false: a stopped script is never terminated there and its output is still merged into the configuration | a `pedestal_scan` stopped by the operator, run directory "r", configuration a:0, output YAML a:1: the configuration becomes a:1 | call `is_finished()`; a still-running script is terminated and its output is not merged | not executed | ExternalPc.StoppedRunMerged | ExternalPc.ScriptProcess.EndTestIntended |
| ExternalPC.py:105 | `shape == 'R' or 'L'` is always true, so every high-density board that is neither full nor bottom gets the semi configuration, and the high-density top branch can never be reached | serial 320-MH-T2-CM-0001 (high density, top board) gets the semi configuration | `shape == 'R' or shape == 'L'` | not executed | ExternalPc.HdTopTakesSemiConfig | ExternalPc.SelectConfigIntendedHd |
| CentosPC.py:124 | `_run_script` returns the script name, a slash and the full path that `glob` returned, so `pedestal_run`'s rename (line 136) names a directory that does not exist and the path it returns is not the renamed run (`CentosPc.CentosPC.PedestalRun`, `CentosPc.AsWrittenPathMisses`) | `pedestal_run` with bias 300 whose last run is D/m/pedestal_run/r1: it moves and returns D/m/pedestal_run/D/m/pedestal_run/r1_BV300 instead of D/m/pedestal_run/r1_BV300 | append only the run's base name, as `CentosPc.CentosPC.PedestalRunIntended` does | not executed | CentosPc.RelativeNameMisses | CentosPc.BaseNameFinds |
| Keithley2410.py:358 | `np` is used but never imported, so every `takeIV` that gets past the sweep raises NameError and stores no curve | any call with a non-zero step whose sweep succeeds | import numpy, then store and return the curve | not executed | Keithley2410Driver.Keithley2410.TakeIV | Keithley2410Driver.Keithley2410.TakeIVIntended |
