/**
 * The testing PC: the nested YAML merge that folds a script's output back
 * into the running configuration, the choice of the initial configuration
 * from the module serial, and the supervision of the test scripts (the
 * `-I` initialise flag, the output directory, the run directories a script
 * leaves behind and the DAQ-client status).
 */
module ExternalPc {
  import opened Wrappers
  import opened Text
  import opened Paths
  import opened ModuleSerial

  // ---------------------------------------------------------------------
  // recursive_update / updateconf
  // ---------------------------------------------------------------------

  /**
   * A YAML document: a mapping, or anything else (a scalar or a list),
   * which the merge only compares and copies.
   */
  datatype Yaml = Atom(text: string) | Dict(entries: map<string, Yaml>)

  /**
   * Merging `m` into `c` raises nothing: wherever `m` holds a non-empty
   * mapping that differs from what `c` holds, `c` holds a mapping too.
   */
  predicate Mergeable(c: Yaml, m: Yaml)
    decreases m, 1
  {
    c == m || !m.Dict? || m.entries == map[] || (c.Dict? && MergeableMaps(c.entries, m.entries))
  }

  predicate MergeableMaps(conf: map<string, Yaml>, mod: map<string, Yaml>)
    decreases Dict(mod), 0
  {
    forall k :: k in conf && k in mod ==> Mergeable(conf[k], mod[k])
  }

  /** The value a key ends up with when `m` is merged into `c`. */
  function MergeValue(c: Yaml, m: Yaml): Yaml
    requires Mergeable(c, m)
    decreases m, 1
  {
    if c == m || !m.Dict? then m
    else if !c.Dict? then c
    else Dict(MergeMaps(c.entries, m.entries))
  }

  /** The mapping `recursive_update(conf, mod)` leaves in `conf`. */
  function MergeMaps(conf: map<string, Yaml>, mod: map<string, Yaml>): (r: map<string, Yaml>)
    requires MergeableMaps(conf, mod)
    ensures r.Keys == conf.Keys + mod.Keys
    ensures forall k :: k in conf && k !in mod ==> r[k] == conf[k]
    ensures forall k :: k in mod && k !in conf ==> r[k] == mod[k]
    decreases Dict(mod), 0
  {
    map k | k in conf.Keys + mod.Keys ::
      if k !in mod then conf[k] else if k !in conf then mod[k] else MergeValue(conf[k], mod[k])
  }

  /** `recursive_update(conf, mod)` as a value: the merged mapping, or the AttributeError it raises. */
  function Merged(conf: map<string, Yaml>, mod: map<string, Yaml>): (r: Result<map<string, Yaml>>)
    ensures r.Ok? <==> MergeableMaps(conf, mod)
    ensures r.Err? ==> r.error == AttributeError
  {
    if MergeableMaps(conf, mod) then Ok(MergeMaps(conf, mod)) else Err(AttributeError)
  }

  /** The value `recursive_update` leaves under `k` once `k` has been visited. */
  function MergedAt(conf: map<string, Yaml>, mod: map<string, Yaml>, k: string): Yaml
    requires k in conf || k in mod
    requires k in conf && k in mod ==> Mergeable(conf[k], mod[k])
  {
    if k !in mod then conf[k] else if k !in conf then mod[k] else MergeValue(conf[k], mod[k])
  }

  /** One key that cannot be merged makes the whole merge raise. */
  lemma MergeFails(conf: map<string, Yaml>, mod: map<string, Yaml>, key: string)
    requires key in conf && key in mod && !Mergeable(conf[key], mod[key])
    ensures Merged(conf, mod).Err?
  {
  }

  /**
   * The loop state of `recursive_update` with the keys `todo` of `mod` still
   * to visit: visited keys hold their merged value, the others their old one.
   */
  predicate MergedExcept(conf: map<string, Yaml>, mod: map<string, Yaml>, todo: set<string>, newconf: map<string, Yaml>) {
    && todo <= mod.Keys
    && newconf.Keys == conf.Keys + (mod.Keys - todo)
    && (forall k :: k in conf && k in mod && k !in todo ==> Mergeable(conf[k], mod[k]))
    && (forall k :: k in newconf && k in todo ==> newconf[k] == conf[k])
    && (forall k :: k in newconf && k !in todo ==> newconf[k] == MergedAt(conf, mod, k))
  }

  /** Visiting one more key: store its merged value. */
  lemma MergeVisit(conf: map<string, Yaml>, mod: map<string, Yaml>, todo: set<string>, newconf: map<string, Yaml>, key: string)
    requires MergedExcept(conf, mod, todo, newconf) && key in todo
    requires key in conf ==> Mergeable(conf[key], mod[key])
    ensures MergedExcept(conf, mod, todo - {key}, newconf[key := MergedAt(conf, mod, key)])
  {
  }

  /** Once every key of `mod` has been visited, the mapping is the merge. */
  lemma MergeComplete(conf: map<string, Yaml>, mod: map<string, Yaml>, newconf: map<string, Yaml>)
    requires MergedExcept(conf, mod, {}, newconf)
    ensures Merged(conf, mod) == Ok(newconf)
  {
    assert MergeableMaps(conf, mod);
    assert newconf == MergeMaps(conf, mod);
  }

  /**
   * `recursive_update(conf, mod)`: for every key of `mod`, a key missing
   * from `conf` is added, an equal value is left alone, a differing
   * mapping is merged into the mapping `conf` holds and any other differing
   * value replaces it. A mapping merged into a non-mapping raises.
   */
  method RecursiveUpdate(conf: map<string, Yaml>, mod: map<string, Yaml>) returns (r: Result<map<string, Yaml>>)
    ensures r == Merged(conf, mod)
    decreases Dict(mod)
  {
    var newconf := conf;
    var todo := mod.Keys;
    while todo != {}
      invariant MergedExcept(conf, mod, todo, newconf)
      decreases |todo|
    {
      var key :| key in todo;
      var v := mod[key];
      if key in newconf {
        assert newconf[key] == conf[key];
        v := newconf[key];
        if newconf[key] != mod[key] && mod[key].Dict? {
          if newconf[key].Dict? {
            assert Dict(mod[key].entries) == mod[key];
            var sub := RecursiveUpdate(newconf[key].entries, mod[key].entries);
            if sub.Err? {
              MergeFails(conf, mod, key);
              return Err(AttributeError);
            }
            v := Dict(sub.value);
          } else if mod[key].entries != map[] {
            MergeFails(conf, mod, key);
            return Err(AttributeError);
          }
        } else if newconf[key] != mod[key] {
          v := mod[key];
        }
      }
      MergeVisit(conf, mod, todo, newconf, key);
      newconf := newconf[key := v];
      todo := todo - {key};
    }
    MergeComplete(conf, mod, newconf);
    return Ok(newconf);
  }

  /** Merging an output file a second time changes nothing more. */
  lemma {:induction false} MergeValueIdempotent(c: Yaml, m: Yaml)
    requires Mergeable(c, m)
    ensures Mergeable(MergeValue(c, m), m) && MergeValue(MergeValue(c, m), m) == MergeValue(c, m)
    decreases m, 1
  {
    if c != m && m.Dict? && c.Dict? {
      MergeMapsIdempotent(c.entries, m.entries);
    }
  }

  lemma {:induction false} MergeMapsIdempotent(conf: map<string, Yaml>, mod: map<string, Yaml>)
    requires MergeableMaps(conf, mod)
    ensures MergeableMaps(MergeMaps(conf, mod), mod)
    ensures MergeMaps(MergeMaps(conf, mod), mod) == MergeMaps(conf, mod)
    decreases Dict(mod), 0
  {
    var r := MergeMaps(conf, mod);
    forall k | k in r && k in mod
      ensures Mergeable(r[k], mod[k]) && MergeValue(r[k], mod[k]) == r[k]
    {
      if k in conf {
        MergeValueIdempotent(conf[k], mod[k]);
      }
    }
  }

  /** `recursive_update` is idempotent: merging the same `mod` twice equals merging it once. */
  lemma MergedIdempotent(conf: map<string, Yaml>, mod: map<string, Yaml>)
    requires Merged(conf, mod).Ok?
    ensures Merged(Merged(conf, mod).value, mod) == Merged(conf, mod)
  {
    MergeMapsIdempotent(conf, mod);
  }

  /** Every key of a mapping merged onto itself keeps its value. */
  lemma MergedSelf(conf: map<string, Yaml>)
    ensures Merged(conf, conf) == Ok(conf)
  {
    assert MergeableMaps(conf, conf);
    assert MergeMaps(conf, conf) == conf;
  }

  /** The YAML files on the PC's disk, by path; `os.path.isfile` is membership. */
  type Disk = map<string, Yaml>

  /**
   * `updateconf(conffile, updfile)`: with no update file nothing changes;
   * otherwise the configuration is rewritten as the update merged into it.
   * `yaml.safe_load` of something that is not a mapping makes `.keys()` raise.
   */
  function UpdateConf(disk: Disk, conffile: string, updfile: string): (r: Result<Disk>)
    ensures conffile in disk && updfile !in disk ==> r == Ok(disk)
    ensures r.Ok? ==> r.value.Keys == disk.Keys && forall p :: p in disk && p != conffile ==> r.value[p] == disk[p]
    ensures conffile !in disk ==> r == Err(FileNotFound(conffile))
    ensures conffile in disk && updfile in disk && disk[updfile] == Dict(map[]) ==> r == Ok(disk)
    ensures conffile in disk && updfile in disk && (!disk[updfile].Dict? || (disk[updfile].entries != map[] && !disk[conffile].Dict?)) ==>
      r == Err(AttributeError)
    ensures conffile in disk && updfile in disk && disk[updfile].Dict? && disk[updfile].entries != map[] && disk[conffile].Dict? ==>
      && (r.Ok? <==> Merged(disk[conffile].entries, disk[updfile].entries).Ok?)
      && (r.Ok? ==> r.value[conffile] == Dict(Merged(disk[conffile].entries, disk[updfile].entries).value))
      && (r.Err? ==> r.error == AttributeError)
  {
    if conffile !in disk then Err(FileNotFound(conffile))
    else if updfile !in disk then Ok(disk)
    else
      var mod := disk[updfile];
      var conf := disk[conffile];
      if !mod.Dict? then Err(AttributeError)
      else if mod.entries == map[] then Ok(disk)
      else if !conf.Dict? then Err(AttributeError)
      else
        match Merged(conf.entries, mod.entries)
        case Err(e) => Err(e)
        case Ok(m) => Ok(disk[conffile := Dict(m)])
  }

  /** Rewriting the configuration with the same update file a second time leaves the disk as it is. */
  lemma UpdateConfIdempotent(disk: Disk, conffile: string, updfile: string)
    requires conffile != updfile && UpdateConf(disk, conffile, updfile).Ok?
    ensures UpdateConf(UpdateConf(disk, conffile, updfile).value, conffile, updfile) == UpdateConf(disk, conffile, updfile)
  {
    var d1 := UpdateConf(disk, conffile, updfile).value;
    if updfile in disk && disk[updfile].Dict? && disk[updfile].entries != map[] {
      var conf := disk[conffile].entries;
      var mod := disk[updfile].entries;
      MergedIdempotent(conf, mod);
      assert d1[conffile] == Dict(MergeMaps(conf, mod));
      assert d1[conffile := Dict(MergeMaps(conf, mod))] == d1;
    }
  }

  // ---------------------------------------------------------------------
  // Software location and configuration choice
  // ---------------------------------------------------------------------

  /** `configuration['TestingPCOpSys']` and `configuration['HexactrlSWBranch']` (None when absent). */
  datatype PcSoftware = PcSoftware(opSys: string, branch: Option<string>)

  /** Where the hexactrl software lives: the environment script and the script directory. */
  datatype SwLocation = SwLocation(env: string, scriptloc: string)

  const RocV3 := SwLocation("/opt/hexactrl/ROCv3/ctrl/etc/env.sh", "/opt/hexactrl/ROCv3/ctrl/")
  const FeatureAlma9 := SwLocation("/opt/hexactrl/feature-alma9/ctrl/etc/env.sh", "/opt/hexactrl/feature-alma9/ctrl/")

  /** The location for an operating system and branch; None where no branch of the chain assigns one. */
  function Location(sw: PcSoftware): (loc: Option<SwLocation>)
    ensures loc.Some? <==>
      sw.opSys == "Centos7" || (sw.opSys == "Alma9" && sw.branch in {None, Some("feature-alma9"), Some("ROCv3")})
  {
    if sw.opSys == "Centos7" then Some(RocV3)
    else if sw.opSys == "Alma9" && sw.branch.None? then Some(FeatureAlma9)
    else if sw.opSys == "Alma9" && sw.branch == Some("feature-alma9") then Some(FeatureAlma9)
    else if sw.opSys == "Alma9" && sw.branch == Some("ROCv3") then Some(RocV3)
    else None
  }

  /** The two files whose presence is asserted: the environment script and `pedestal_run.py`. */
  function SoftwarePresent(loc: SwLocation, disk: Disk): (r: Result<()>)
    ensures r.Ok? <==> loc.env in disk && loc.scriptloc + "pedestal_run.py" in disk
    ensures r.Err? ==> r.error == AssertionError
  {
    if loc.env !in disk then Err(AssertionError)
    else if loc.scriptloc + "pedestal_run.py" !in disk then Err(AssertionError)
    else Ok(())
  }

  /**
   * `check_hexactrl_sw()`: an unknown operating system or branch leaves the
   * local `env` unbound; otherwise both files must exist.
   */
  function CheckHexactrlSw(sw: PcSoftware, disk: Disk): (r: Result<()>)
    ensures r.Ok? <==> Location(sw).Some? && SoftwarePresent(Location(sw).value, disk).Ok?
    ensures r.Err? ==> r.error in {UnboundLocal("env"), AssertionError}
  {
    match Location(sw)
    case None => Err(UnboundLocal("env"))
    case Some(loc) => SoftwarePresent(loc, disk)
  }

  /** The ROC version character with `'3'` read as `'X'`. */
  function RocCode(serial: string): Result<char> {
    var v :- RocVersion(serial);
    Ok(if v == '3' then 'X' else v)
  }

  predicate IsV3b(v: char) {
    v == '2' || v == 'B' || v == '4'
  }

  function ConfigFile(scriptloc: string, name: string): string {
    scriptloc + "etc/configs/" + name
  }

  /**
   * The name of the configuration file the constructor chooses for a board,
   * AS WRITTEN: the high-density test `shape == 'R' or 'L'` is always true,
   * so every high-density shape other than F and B takes the semi-module
   * branch and the top-module branch is never reached. A board kind with no
   * branch leaves `self.config` unassigned; the high-density bottom branch
   * for a V3b chip names `NotImplementedErro`, which does not exist.
   */
  function ConfigName(serial: string): Result<string> {
    var d :- Density(serial);
    var s :- Shape(serial);
    var v :- RocCode(serial);
    if d == 'L' then
      if s == 'F' then
        if v == 'X' then Ok("initLD-trophyV3.yaml")
        else if IsV3b(v) then Ok("initLD-trophyV3-3b.yaml")
        else Err(AttributeError)
      else if s == 'L' || s == 'R' || s == 'T' then
        if IsV3b(v) then Ok("initLD-semi-V3b.yaml")
        else if v == 'X' then Ok("initLD-semi.yaml")
        else Err(AttributeError)
      else if s == 'B' then
        if IsV3b(v) then Ok("initLD-bottom-3b.yaml")
        else if v == 'X' then Err(NotImplemented)
        else Err(AttributeError)
      else if s == '5' then
        if v == 'X' then Err(NotImplemented)
        else if IsV3b(v) then Ok("initLD-five-3b.yaml")
        else Err(AttributeError)
      else Err(AttributeError)
    else if d == 'H' then
      if s == 'F' then
        if IsV3b(v) then Ok("initHD_trophyV3-V3b.yaml")
        else if v == 'X' then Ok("initHD_trophyV3.yaml")
        else Err(AttributeError)
      else if s == 'B' then
        if v == 'X' then Ok("initHD-bottom.yaml")
        else Err(NameError("NotImplementedErro"))
      else
        HdSemiName(v)
    else Err(AttributeError)
  }

  /** The high-density semi-module branch. */
  function HdSemiName(v: char): Result<string> {
    if IsV3b(v) then Ok("initHD-semi-V3b.yaml")
    else if v == 'X' then Err(NotImplemented)
    else Err(AttributeError)
  }

  /** The high-density top-module branch. */
  function HdTopName(v: char): Result<string> {
    if IsV3b(v) then Ok("initHD-top-V3b.yaml")
    else if v == 'X' then Err(NotImplemented)
    else Err(AttributeError)
  }

  /**
   * The selection as evidently intended: `shape == 'R' or shape == 'L'`,
   * so that a high-density top board reaches its own branch.
   */
  function ConfigNameIntended(serial: string): Result<string> {
    var d :- Density(serial);
    var s :- Shape(serial);
    var v :- RocCode(serial);
    if d == 'H' && s != 'F' && s != 'B' then
      if s == 'R' || s == 'L' then HdSemiName(v)
      else if s == 'T' then HdTopName(v)
      else Err(AttributeError)
    else ConfigName(serial)
  }

  /**
   * `self.config` as written: the chosen file under the script location's
   * configuration directory, or the exception the choice raises.
   */
  function SelectConfig(scriptloc: string, serial: string): (r: Result<string>)
    ensures r.Err? <==> ConfigName(serial).Err?
    ensures r.Ok? ==> r.value == ConfigFile(scriptloc, ConfigName(serial).value)
    ensures r.Err? ==> r.error in {IndexError, NotImplemented, AttributeError, NameError("NotImplementedErro")}
  {
    var name :- ConfigName(serial);
    Ok(ConfigFile(scriptloc, name))
  }

  /** `self.config` as evidently intended. */
  function SelectConfigIntended(scriptloc: string, serial: string): (r: Result<string>)
    ensures r.Err? <==> ConfigNameIntended(serial).Err?
    ensures r.Ok? ==> r.value == ConfigFile(scriptloc, ConfigNameIntended(serial).value)
    ensures r.Err? ==> r.error in {IndexError, NotImplemented, AttributeError, NameError("NotImplementedErro")}
  {
    var name :- ConfigNameIntended(serial);
    Ok(ConfigFile(scriptloc, name))
  }

  /**
   * The low-density table: a full board takes the trophy file, a left,
   * right or top semi board the semi file and a bottom or five board its
   * own file, each in its V3 or V3b variant; a V3 bottom or five board
   * raises NotImplementedError, and an unknown shape or chip version
   * leaves the configuration unassigned.
   */
  lemma SelectConfigLd(scriptloc: string, serial: string)
    requires Density(serial) == Ok('L') && Shape(serial).Ok? && RocCode(serial).Ok?
    ensures var s, v, r := Shape(serial).value, RocCode(serial).value, SelectConfig(scriptloc, serial);
      && (s == 'F' && v == 'X' ==> r == Ok(ConfigFile(scriptloc, "initLD-trophyV3.yaml")))
      && (s == 'F' && IsV3b(v) ==> r == Ok(ConfigFile(scriptloc, "initLD-trophyV3-3b.yaml")))
      && (s in {'L', 'R', 'T'} && v == 'X' ==> r == Ok(ConfigFile(scriptloc, "initLD-semi.yaml")))
      && (s in {'L', 'R', 'T'} && IsV3b(v) ==> r == Ok(ConfigFile(scriptloc, "initLD-semi-V3b.yaml")))
      && (s == 'B' && IsV3b(v) ==> r == Ok(ConfigFile(scriptloc, "initLD-bottom-3b.yaml")))
      && (s == '5' && IsV3b(v) ==> r == Ok(ConfigFile(scriptloc, "initLD-five-3b.yaml")))
      && (s in {'B', '5'} && v == 'X' ==> r == Err(NotImplemented))
      && (s !in {'F', 'L', 'R', 'T', 'B', '5'} || (v != 'X' && !IsV3b(v)) ==> r == Err(AttributeError))
  {
  }

  /**
   * Every chosen file is a low-density one exactly for a low-density board
   * and a high-density one exactly for a high-density board; no other
   * density gets a file. The same holds for the intended choice.
   */
  lemma ConfigNameDensity(serial: string)
    ensures ConfigName(serial).Ok? ==>
      && (Density(serial) == Ok('L') || Density(serial) == Ok('H'))
      && (StartsWith(ConfigName(serial).value, "initLD") <==> Density(serial) == Ok('L'))
      && (StartsWith(ConfigName(serial).value, "initHD") <==> Density(serial) == Ok('H'))
    ensures ConfigNameIntended(serial).Ok? ==>
      && (StartsWith(ConfigNameIntended(serial).value, "initLD") <==> Density(serial) == Ok('L'))
      && (StartsWith(ConfigNameIntended(serial).value, "initHD") <==> Density(serial) == Ok('H'))
  {
    if ConfigName(serial).Ok? {
      var n := ConfigName(serial).value;
      if Density(serial) == Ok('L') {
        assert n[..6] == "initLD";
      } else {
        assert n[..6] == "initHD";
      }
    }
    if ConfigNameIntended(serial).Ok? {
      var n := ConfigNameIntended(serial).value;
      if Density(serial) == Ok('L') {
        assert n[..6] == "initLD";
      } else {
        assert n[..6] == "initHD";
      }
    }
  }

  /**
   * As written, every high-density board that is neither full nor bottom
   * gets the semi-module configuration, the top board included.
   */
  lemma SelectConfigHdSemi(scriptloc: string, serial: string)
    requires Density(serial) == Ok('H') && Shape(serial).Ok? && Shape(serial).value !in {'F', 'B'}
    requires RocCode(serial).Ok? && IsV3b(RocCode(serial).value)
    ensures SelectConfig(scriptloc, serial) == Ok(ConfigFile(scriptloc, "initHD-semi-V3b.yaml"))
  {
  }

  /**
   * With the intended test each high-density V3b board kind gets the
   * configuration named for it: semi for L and R, top for T; any other
   * shape outside F and B has none.
   */
  lemma SelectConfigIntendedHd(scriptloc: string, serial: string)
    requires Density(serial) == Ok('H') && Shape(serial).Ok? && Shape(serial).value !in {'F', 'B'}
    requires RocCode(serial).Ok? && IsV3b(RocCode(serial).value)
    ensures var s := Shape(serial).value;
      && (s in {'L', 'R'} <==> SelectConfigIntended(scriptloc, serial) == Ok(ConfigFile(scriptloc, "initHD-semi-V3b.yaml")))
      && (s == 'T' <==> SelectConfigIntended(scriptloc, serial) == Ok(ConfigFile(scriptloc, "initHD-top-V3b.yaml")))
      && (s !in {'L', 'R', 'T'} <==> SelectConfigIntended(scriptloc, serial).Err?)
  {
    assert "initHD-semi-V3b.yaml" != "initHD-top-V3b.yaml";
    assert ConfigFile(scriptloc, "initHD-semi-V3b.yaml") != ConfigFile(scriptloc, "initHD-top-V3b.yaml") by {
      var a := ConfigFile(scriptloc, "initHD-semi-V3b.yaml");
      var b := ConfigFile(scriptloc, "initHD-top-V3b.yaml");
      assert a[|scriptloc| + 13 + 7] != b[|scriptloc| + 13 + 7];
    }
  }

  /** Outside the high-density non-full, non-bottom boards the two selections agree. */
  lemma SelectConfigIntendedAgrees(scriptloc: string, serial: string)
    requires !(Density(serial) == Ok('H') && Shape(serial).Ok? && Shape(serial).value !in {'F', 'B'})
    ensures SelectConfigIntended(scriptloc, serial) == SelectConfig(scriptloc, serial)
  {
  }

  /**
   * A high-density top board with a V3b chip, serial `320-MH-T2-CM-0001`:
   * the as-written choice is the semi-module file, the intended one the top file.
   */
  lemma HdTopTakesSemiConfig()
    ensures SelectConfig("/opt/", ComposeSerial("MH", "T2", "CM", "0001")) == Ok(ConfigFile("/opt/", "initHD-semi-V3b.yaml"))
    ensures SelectConfigIntended("/opt/", ComposeSerial("MH", "T2", "CM", "0001")) == Ok(ConfigFile("/opt/", "initHD-top-V3b.yaml"))
  {
    var serial := ComposeSerial("MH", "T2", "CM", "0001");
    ComposeSerialParse("MH", "T2", "CM", "0001");
    assert RocCode(serial) == Ok('2');
    SelectConfigHdSemi("/opt/", serial);
    SelectConfigIntendedHd("/opt/", serial);
  }

  // ---------------------------------------------------------------------
  // The ExternalPC object and its script processes
  // ---------------------------------------------------------------------

  /** `self.outyaml`: the output file a script leaves for the configuration merge. */
  const OutYaml: map<string, string> := map[
    "pedestal_scan" := "trimmed_pedestal.yaml", "sampling_scan" := "best_phase.yaml",
    "vrefinv_scan" := "vrefinv.yaml", "vrefnoinv_scan" := "vrefnoinv.yaml",
    "toa_vref_scan_noinj" := "toa_vref.yaml", "toa_vref_scan" := "toa_vref.yaml",
    "toa_trim_scan" := "trimmed_toa.yaml"]

  const RestartDaqCommand := "systemctl restart daq-client.service"
  const CurrentConfig := "current_config.yaml"

  /** `cp from to` on the disk; a missing source copies nothing. */
  function CopyFile(disk: Disk, from: string, to: string): (r: Disk)
    ensures to in r <==> to in disk || from in disk
    ensures from in disk ==> r[to] == disk[from]
    ensures forall p :: p in disk && p != to ==> p in r && r[p] == disk[p]
  {
    if from in disk then disk[to := disk[from]] else disk
  }

  /**
   * What the constructor yields before it copies the configuration: the
   * software location (an unknown system leaves `self.env` unassigned), the
   * two asserted files, and the configuration chosen for the serial.
   */
  function Construct(sw: PcSoftware, serial: string, disk: Disk): (r: Result<(SwLocation, string)>)
    ensures r.Ok? ==>
      && Location(sw) == Some(r.value.0) && CheckHexactrlSw(sw, disk).Ok?
      && SelectConfig(r.value.0.scriptloc, serial) == Ok(r.value.1)
    ensures Location(sw).None? ==> r == Err(AttributeError)
    ensures Location(sw).Some? && SoftwarePresent(Location(sw).value, disk).Err? ==> r == Err(AssertionError)
    ensures r.Err? ==> r.error in {IndexError, NotImplemented, AttributeError, NameError("NotImplementedErro"), AssertionError}
  {
    match Location(sw)
    case None => Err(AttributeError)
    case Some(loc) =>
      match SoftwarePresent(loc, disk)
      case Err(e) => Err(e)
      case Ok(_) =>
        match SelectConfig(loc.scriptloc, serial)
        case Err(e) => Err(e)
        case Ok(path) => Ok((loc, path))
  }

  /**
   * The shell line that runs a test script; `-I` (initialise the ROCs) is
   * added exactly when `init` holds.
   */
  function ScriptCommand(loc: SwLocation, script: string, host: string, config: string, outbase: string,
                         dut: string, init: bool): string
  {
    "source " + loc.env + " && python3 " + loc.scriptloc + script + ".py -i " + host + " -f " + config
      + " -o " + outbase + " -d " + dut + (if init then " -I" else "") + " > /dev/null 2>&1"
  }

  /**
   * The bookkeeping after a script: no run directory leaves everything as
   * it was and yields `''`; otherwise the greatest run directory is the
   * result and, when `merge` holds and the script leaves an output file,
   * that file is merged into the configuration.
   */
  ghost function Collected(disk: Disk, config: string, scriptname: string, runs: seq<string>, merge: bool): Result<(Disk, string)> {
    if runs == [] then Ok((disk, ""))
    else
      var last := Greatest(runs);
      if merge && scriptname in OutYaml then
        match UpdateConf(disk, config, last + "/" + OutYaml[scriptname])
        case Err(e) => Err(e)
        case Ok(d) => Ok((d, last))
      else Ok((disk, last))
  }

  /** `is_finished()`: the poll result of the process is None while it runs and its exit code after. */
  function IsFinished(poll: Option<int>): (r: Result<bool>)
    ensures r == Ok(false) <==> poll.None?
    ensures r == Ok(true) <==> poll == Some(0)
    ensures r.Err? <==> poll.Some? && poll.value != 0
    ensures r.Err? ==> r.error == RuntimeError("")
  {
    match poll
    case None => Ok(false)
    case Some(code) => if code == 0 then Ok(true) else Err(RuntimeError(""))
  }

  /** `systemctl status daq-client` reports the client running on some line. */
  predicate DaqRunning(stdout: string) {
    exists k :: 0 <= k < |Split(stdout, '\n')| && Contains(Split(stdout, '\n')[k], "Active: active (running)")
  }

  /** `ExternalPC`: the testing PC that runs the scripts and keeps the running configuration. */
  class Pc {
    const host: string           // trenzhostname
    const modulename: string
    const live: bool
    const loc: SwLocation
    const dataLoc: string        // configuration['DataLoc']
    var initiated: bool          // the next script runs without -I
    var config: string
    var hasOutdir: bool          // init_outdir has been called
    var outdir: string
    var basedir: string
    var dut: string
    var disk: Disk
    var commands: seq<string>    // the shell lines run, in order

    /** The object once the checks have passed and `config` was chosen: the copy is made and used. */
    constructor (host: string, modulename: string, live: bool, loc: SwLocation, dataLoc: string,
                 chosen: string, disk: Disk)
      ensures this.host == host && this.modulename == modulename && this.live == live
      ensures this.loc == loc && this.dataLoc == dataLoc
      ensures !initiated && !hasOutdir && config == CurrentConfig
      ensures this.disk == CopyFile(disk, chosen, CurrentConfig)
      ensures commands == [RestartDaqCommand, "cp " + chosen + " " + CurrentConfig]
    {
      this.host := host;
      this.modulename := modulename;
      this.live := live;
      this.loc := loc;
      this.dataLoc := dataLoc;
      initiated := false;
      hasOutdir := false;
      outdir, basedir, dut := "", "", "";
      commands := [RestartDaqCommand, "cp " + chosen + " " + CurrentConfig];
      this.disk := CopyFile(disk, chosen, CurrentConfig);
      config := CurrentConfig;
    }

    /**
     * `ExternalPC(trenzhostname, state)`: restarts the DAQ client, checks the
     * software, chooses the configuration for the serial and copies it to
     * `current_config.yaml`, which becomes the running configuration.
     */
    static method Create(host: string, serial: string, live: bool, sw: PcSoftware, dataLoc: string, disk: Disk)
      returns (r: Result<Pc>)
      ensures r.Err? <==> Construct(sw, serial, disk).Err?
      ensures r.Err? ==> r.error == Construct(sw, serial, disk).error
      ensures r.Ok? ==> var chosen := Construct(sw, serial, disk).value;
        && fresh(r.value) && !r.value.initiated && r.value.config == CurrentConfig
        && r.value.loc == chosen.0 && r.value.disk == CopyFile(disk, chosen.1, CurrentConfig)
    {
      match Construct(sw, serial, disk)
      case Err(e) =>
        return Err(e);
      case Ok((loc, chosen)) =>
        var pc := new Pc(host, serial, live, loc, dataLoc, chosen, disk);
        return Ok(pc);
    }

    /**
     * `init_outdir(outdir)`: `basedir` is everything before the last `/`
     * and `dut` the last component.
     */
    method InitOutdir(outdir: string)
      modifies this
      ensures hasOutdir && this.outdir == outdir
      ensures '/' !in dut
      ensures '/' in outdir ==> basedir + "/" + dut == outdir
      ensures '/' !in outdir ==> basedir == "" && dut == outdir
      ensures initiated == old(initiated) && config == old(config) && disk == old(disk) && commands == old(commands)
    {
      this.outdir := outdir;
      basedir := AllButLast(outdir, '/');
      dut := LastPart(outdir, '/');
      hasOutdir := true;
      CutAtLast(outdir, '/');
    }

    /** The command for `scriptname` with the given configuration, as the current `-I` state makes it. */
    function CommandFor(scriptname: string, cfg: string): string
      reads this
    {
      ScriptCommand(loc, scriptname, host, cfg, dataLoc + "/" + basedir + "/", dut, !initiated)
    }

    /**
     * `create_proc(scriptname)`: a detached process for the script, with `-I`
     * exactly when the PC is not initiated; nothing of the PC changes. Without
     * an output directory the command cannot be built.
     */
    method CreateProc(scriptname: string) returns (r: Result<ScriptProcess>)
      ensures r.Err? <==> !hasOutdir
      ensures r.Err? ==> r.error == AttributeError
      ensures r.Ok? ==>
        && fresh(r.value) && r.value.pc == this && r.value.scriptname == scriptname
        && r.value.command == CommandFor(scriptname, config) && !r.value.terminated
    {
      if !hasOutdir {
        return Err(AttributeError);
      }
      var proc := new ScriptProcess(this, scriptname, CommandFor(scriptname, config));
      return Ok(proc);
    }

    /**
     * After a script: take the greatest run directory, mark the PC initiated
     * and, when `merge` holds, fold the script's output file into the
     * configuration. No run directory changes nothing.
     */
    method CollectOutput(scriptname: string, runs: seq<string>, merge: bool) returns (r: Result<string>)
      modifies this
      ensures match Collected(old(disk), config, scriptname, runs, merge)
        case Err(e) => r == Err(e)
        case Ok((d, last)) => r == Ok(last) && disk == d
      ensures initiated == (old(initiated) || runs != [])
      ensures config == old(config) && commands == old(commands) && hasOutdir == old(hasOutdir)
      ensures outdir == old(outdir) && basedir == old(basedir) && dut == old(dut)
    {
      if runs == [] {
        return Ok("");
      }
      var last := LastSorted(runs);
      initiated := true;
      if merge && scriptname in OutYaml {
        var d := UpdateConf(disk, config, last + "/" + OutYaml[scriptname]);
        if d.Err? {
          return Err(d.error);
        }
        disk := d.value;
      }
      return Ok(last);
    }

    /**
     * `_run_script(scriptname, config)`: run the script to completion with
     * `-I` exactly when not initiated, then collect its output, merging into
     * the running configuration whatever configuration the script was given.
     */
    method RunScript(scriptname: string, cfg: Option<string>, runs: seq<string>) returns (r: Result<string>)
      modifies this
      ensures !old(hasOutdir) ==> r == Err(AttributeError) && unchanged(this)
      ensures old(hasOutdir) ==>
        && commands == old(commands) + [old(CommandFor(scriptname, if cfg.Some? then cfg.value else config))]
        && initiated == (old(initiated) || runs != [])
        && match Collected(old(disk), config, scriptname, runs, true)
           case Err(e) => r == Err(e)
           case Ok((d, last)) => r == Ok(last) && disk == d
      ensures config == old(config)
    {
      if !hasOutdir {
        return Err(AttributeError);
      }
      var c := if cfg.Some? then cfg.value else config;
      commands := commands + [CommandFor(scriptname, c)];
      r := CollectOutput(scriptname, runs, true);
    }

    /** `status_daq()`: whether the client reports itself running. */
    method StatusDaq(stdout: string) returns (client: bool)
      ensures client <==> DaqRunning(stdout)
    {
      client := AnyLineContains(Split(stdout, '\n'), "Active: active (running)");
    }

    /** `restart_daq()`: restart the client, then report its status. */
    method RestartDaq(stdout: string) returns (client: bool)
      modifies this
      ensures client <==> DaqRunning(stdout)
      ensures commands == old(commands) + [RestartDaqCommand]
      ensures initiated == old(initiated) && config == old(config) && disk == old(disk)
    {
      commands := commands + [RestartDaqCommand];
      client := StatusDaq(stdout);
    }
  }

  /** `ScriptProcess`: a test script running detached on the PC. */
  class ScriptProcess {
    const pc: Pc
    const scriptname: string
    const command: string
    var terminated: bool         // proc.terminate() was called

    constructor (pc: Pc, scriptname: string, command: string)
      ensures this.pc == pc && this.scriptname == scriptname && this.command == command && !terminated
    {
      this.pc := pc;
      this.scriptname := scriptname;
      this.command := command;
      terminated := false;
    }

    /**
     * `end_test()` AS WRITTEN: `not self.is_finished` tests the bound method,
     * which is always true, so the process is never terminated and the output
     * file is merged even after the operator stopped the script.
     */
    method EndTest(runs: seq<string>) returns (r: Result<string>)
      modifies pc
      ensures match Collected(old(pc.disk), pc.config, scriptname, runs, true)
        case Err(e) => r == Err(e)
        case Ok((d, last)) => r == Ok(last) && pc.disk == d
      ensures pc.initiated == (old(pc.initiated) || runs != [])
      ensures terminated == old(terminated)
    {
      r := pc.CollectOutput(scriptname, runs, true);
    }

    /**
     * `end_test()` as evidently intended: a process still running is
     * terminated and its output is not merged; a crashed one raises.
     */
    method EndTestIntended(poll: Option<int>, runs: seq<string>) returns (r: Result<string>)
      modifies this, pc
      ensures IsFinished(poll).Err? ==> r == Err(IsFinished(poll).error) && unchanged(pc) && unchanged(this)
      ensures IsFinished(poll).Ok? ==>
        var stopped := !IsFinished(poll).value;
        && terminated == (old(terminated) || stopped)
        && pc.initiated == (old(pc.initiated) || runs != [])
        && match Collected(old(pc.disk), pc.config, scriptname, runs, !stopped)
           case Err(e) => r == Err(e)
           case Ok((d, last)) => r == Ok(last) && pc.disk == d
    {
      var fin := IsFinished(poll);
      if fin.Err? {
        return Err(fin.error);
      }
      var stopped := !fin.value;
      if stopped {
        terminated := true;
      }
      r := pc.CollectOutput(scriptname, runs, !stopped);
    }
  }

  /** The disk of the example below: the running configuration and one output file of `pedestal_scan`. */
  function StoppedRunDisk(): Disk {
    map[CurrentConfig := Dict(map["a" := Atom("0")]), "r/trimmed_pedestal.yaml" := Dict(map["a" := Atom("1")])]
  }

  lemma StoppedRunUpdate()
    ensures UpdateConf(StoppedRunDisk(), CurrentConfig, "r/trimmed_pedestal.yaml")
      == Ok(StoppedRunDisk()[CurrentConfig := Dict(map["a" := Atom("1")])])
  {
    var mod := map["a" := Atom("1")];
    var conf := map["a" := Atom("0")];
    assert CurrentConfig != "r/trimmed_pedestal.yaml" by {
      assert CurrentConfig[0] != "r/trimmed_pedestal.yaml"[0];
    }
    var disk := StoppedRunDisk();
    assert disk[CurrentConfig] == Dict(conf) && disk["r/trimmed_pedestal.yaml"] == Dict(mod);
    assert "a" in mod && mod != map[];
    assert MergeableMaps(conf, mod);
    assert MergeMaps(conf, mod) == mod;
  }

  /**
   * A script stopped while running (`pedestal_scan`, one run directory `r`
   * whose output sets `a` to 1 in a configuration holding `a: 0`): the
   * as-written merge rewrites the configuration, the intended one leaves it.
   */
  lemma StoppedRunMerged()
    ensures Collected(StoppedRunDisk(), CurrentConfig, "pedestal_scan", ["r"], true)
      == Ok((StoppedRunDisk()[CurrentConfig := Dict(map["a" := Atom("1")])], "r"))
    ensures Collected(StoppedRunDisk(), CurrentConfig, "pedestal_scan", ["r"], false) == Ok((StoppedRunDisk(), "r"))
  {
    GreatestSingle("r");
    OutYamlPedestalScan();
    StoppedRunUpdate();
  }

  /** A one-element run list has that element as its greatest. */
  lemma GreatestSingle(x: string)
    ensures Greatest([x]) == x
  {
    LexLeRefl(x);
    GreatestUnique([x], x, Greatest([x]));
  }

  lemma OutYamlPedestalScan()
    ensures "pedestal_scan" in OutYaml && "r" + "/" + OutYaml["pedestal_scan"] == "r/trimmed_pedestal.yaml"
  {
  }
}
