/**
 * The older testing PC, which runs every script to completion: the
 * configuration it chooses, the `-I` bookkeeping of `_run_script`, the
 * renaming of a biased pedestal run and the label of the hexmap plots.
 */
module CentosPc {
  import opened Wrappers
  import opened Text
  import opened Paths
  import opened ModuleSerial
  import ExternalPc

  const ConfigDir := "/opt/hexactrl/ROCv3/ctrl/etc/configs/"

  /**
   * The configuration for a board: low-density full and semi boards have
   * one, any other low- or high-density board raises, and another density
   * leaves `self.config` unassigned (None).
   */
  function CentosConfig(serial: string): (r: Result<Option<string>>)
    ensures r.Ok? && r.value.Some? <==>
      Density(serial) == Ok('L') && Shape(serial).Ok? && Shape(serial).value in {'F', 'L', 'R'}
    ensures Density(serial).Err? || Shape(serial).Err? ==> r == Err(IndexError)
    ensures Shape(serial).Ok? ==>
      var s := Shape(serial).value;
      && (Density(serial) == Ok('L') && s == 'F' ==> r == Ok(Some(ConfigDir + "initLD-trophyV3.yaml")))
      && (Density(serial) == Ok('L') && s in {'L', 'R'} ==> r == Ok(Some(ConfigDir + "initLD-semi.yaml")))
      && (Density(serial) == Ok('L') && s !in {'F', 'L', 'R'} ==> r == Err(NotImplemented))
      && (Density(serial) == Ok('H') ==> r == Err(NotImplemented))
      && (Density(serial).Ok? && Density(serial).value !in {'L', 'H'} ==> r == Ok(None))
  {
    var d :- Density(serial);
    var s :- Shape(serial);
    if d == 'L' then
      if s == 'F' then Ok(Some(ConfigDir + "initLD-trophyV3.yaml"))
      else if s == 'L' || s == 'R' then Ok(Some(ConfigDir + "initLD-semi.yaml"))
      else Err(NotImplemented)
    else if d == 'H' then Err(NotImplemented)
    else Ok(None)
  }

  /** `runs[i]` with Python's negative indices. */
  function PyIndex(runs: seq<string>, i: int): (r: Result<string>)
    ensures r.Ok? <==> -|runs| <= i < |runs|
    ensures r.Ok? ==> r.value == runs[if i < 0 then |runs| + i else i]
    ensures r.Err? ==> r.error == IndexError
  {
    if 0 <= i < |runs| then Ok(runs[i])
    else if -|runs| <= i < 0 then Ok(runs[|runs| + i])
    else Err(IndexError)
  }

  /**
   * `make_hexmaps(ind, BV)`: the plot label and where the plots go. The
   * default index -1 is labelled with the last position; a run name holding
   * `BV` when no bias is given reaches `runs.split`, which a list lacks.
   */
  function HexmapLabel(modulename: string, dataLoc: string, runs: seq<string>, ind: int, bv: Option<string>): (r: Result<string>)
    ensures ind == -1 && runs != [] && (bv.Some? || !Contains(runs[|runs| - 1], "BV")) ==>
      r == Ok(dataLoc + "/" + modulename + "/"
              + (modulename + "_run" + IntToString(|runs| - 1) + (if bv.Some? then "_BV" + bv.value else "")))
    ensures ind == -1 && runs == [] ==> r == Err(IndexError)
  {
    var labelind := if ind != -1 then ind else |runs| - 1;
    var run :- PyIndex(runs, labelind);
    if bv.None? && Contains(run, "BV") then Err(AttributeError)
    else
      var title := modulename + "_run" + IntToString(labelind) + (if bv.Some? then "_BV" + bv.value else "");
      Ok(dataLoc + "/" + modulename + "/" + title)
  }

  /** A run directory named with `BV` and no bias given: the label lookup fails. */
  lemma HexmapLabelSplitFails(modulename: string, dataLoc: string, runs: seq<string>)
    requires runs != [] && Contains(runs[|runs| - 1], "BV")
    ensures HexmapLabel(modulename, dataLoc, runs, -1, None) == Err(AttributeError)
  {
  }

  /** Where `pedestal_run` finds a run directory named `dirname` relative to the data location. */
  function RunDir(dataLoc: string, modulename: string, dirname: string): string {
    dataLoc + "/" + modulename + "/" + dirname
  }

  /** The directory a script writes its runs into, as the glob pattern names it. */
  function ScriptDir(dataLoc: string, modulename: string, scriptname: string): string {
    dataLoc + "/" + modulename + "/" + scriptname
  }

  /** What the glob returns: paths of entries directly inside `dir`. */
  predicate GlobShaped(runs: seq<string>, dir: string) {
    forall k :: 0 <= k < |runs| ==>
      StartsWith(runs[k], dir + "/") && '/' !in runs[k][|dir| + 1..]
  }

  /**
   * The directory `pedestal_run` as written moves: the relative name
   * returned by `_run_script` is the whole glob path, so prefixing it with
   * the data location again never names the run directory.
   */
  lemma RelativeNameMisses(dataLoc: string, modulename: string, run: string)
    ensures RunDir(dataLoc, modulename, "pedestal_run/" + run) != run
  {
    assert |RunDir(dataLoc, modulename, "pedestal_run/" + run)| > |run|;
  }

  /**
   * The path the as-written `pedestal_run` returns for a biased run is
   * never the run directory with the bias appended.
   */
  lemma AsWrittenPathMisses(dataLoc: string, modulename: string, run: string, bv: string)
    ensures RunDir(dataLoc, modulename, "pedestal_run" + "/" + run) + "_BV" + bv != run + "_BV" + bv
  {
    assert |RunDir(dataLoc, modulename, "pedestal_run" + "/" + run)| > |run|;
  }

  /** With the base name of the run, prefixing the data location gives back the run directory. */
  lemma BaseNameFinds(dataLoc: string, modulename: string, run: string)
    requires GlobShaped([run], ScriptDir(dataLoc, modulename, "pedestal_run"))
    ensures RunDir(dataLoc, modulename, "pedestal_run/" + BaseName(run)) == run
  {
    var dir := ScriptDir(dataLoc, modulename, "pedestal_run");
    assert StartsWith([run][0], dir + "/") && '/' !in [run][0][|dir| + 1..];
    var name := run[|dir| + 1..];
    assert run == dir + "/" + name;
    BaseNameOfChild(dir, name);
    var pre := dataLoc + "/" + modulename + "/";
    assert "pedestal_run/" + name == "pedestal_run" + "/" + name;
    AppendAssoc(pre, "pedestal_run" + "/", name);
    AppendAssoc(pre, "pedestal_run", "/");
  }

  /** `CentosPC`: the PC object with its `-I` state and the shell lines it has run. */
  class CentosPC {
    const host: string
    const modulename: string
    const dataLoc: string
    const config: Option<string>    // None when no branch assigned it
    var initiated: bool
    var commands: seq<string>

    constructor (host: string, modulename: string, dataLoc: string, config: Option<string>)
      ensures this.host == host && this.modulename == modulename && this.dataLoc == dataLoc
      ensures this.config == config && !initiated && commands == [ExternalPc.RestartDaqCommand]
    {
      this.host := host;
      this.modulename := modulename;
      this.dataLoc := dataLoc;
      this.config := config;
      initiated := false;
      commands := [ExternalPc.RestartDaqCommand];
    }

    /** `CentosPC(trenzhostname, modulename)`: restarts the DAQ client and chooses the configuration. */
    static method Create(host: string, modulename: string, dataLoc: string) returns (r: Result<CentosPC>)
      ensures r.Err? <==> CentosConfig(modulename).Err?
      ensures r.Err? ==> r.error == CentosConfig(modulename).error
      ensures r.Ok? ==>
        && fresh(r.value) && !r.value.initiated && r.value.config == CentosConfig(modulename).value
        && r.value.commands == [ExternalPc.RestartDaqCommand]
    {
      var cfg := CentosConfig(modulename);
      if cfg.Err? {
        return Err(cfg.error);
      }
      var pc := new CentosPC(host, modulename, dataLoc, cfg.value);
      return Ok(pc);
    }

    /** The script call, with `-I` exactly when the PC is not yet initiated. */
    function CommandFor(scriptname: string, cfg: string): string
      reads this
    {
      ExternalPc.ScriptCommand(ExternalPc.RocV3, scriptname, host, cfg, dataLoc + "/", modulename, !initiated)
    }

    /**
     * The part of `_run_script` both readings share: the script runs with
     * the given or the object's configuration (none at all raises), and with
     * no run directory printing `runs[-1]` raises before `initiated` is set;
     * otherwise the PC is initiated and the greatest run path is returned.
     */
    method Launch(scriptname: string, cfg: Option<string>, runs: seq<string>) returns (r: Result<string>)
      modifies this
      ensures cfg.None? && config.None? ==> r == Err(AttributeError) && unchanged(this)
      ensures cfg.Some? || config.Some? ==>
        && commands == old(commands) + [old(CommandFor(scriptname, if cfg.Some? then cfg.value else config.value))]
        && (runs == [] ==> r == Err(IndexError) && initiated == old(initiated))
        && (runs != [] ==> r == Ok(Greatest(runs)) && initiated)
    {
      if cfg.None? && config.None? {
        return Err(AttributeError);
      }
      var c := if cfg.Some? then cfg.value else config.value;
      commands := commands + [CommandFor(scriptname, c)];
      if runs == [] {
        return Err(IndexError);
      }
      var last := LastSorted(runs);
      initiated := true;
      return Ok(last);
    }

    /** `_run_script(scriptname, config)` AS WRITTEN: the script name joined to the whole glob path of the run. */
    method RunScript(scriptname: string, cfg: Option<string>, runs: seq<string>) returns (r: Result<string>)
      modifies this
      ensures cfg.None? && config.None? ==> r == Err(AttributeError) && unchanged(this)
      ensures cfg.Some? || config.Some? ==>
        && commands == old(commands) + [old(CommandFor(scriptname, if cfg.Some? then cfg.value else config.value))]
        && (runs == [] ==> r == Err(IndexError) && initiated == old(initiated))
        && (runs != [] ==> r == Ok(scriptname + "/" + Greatest(runs)) && initiated)
    {
      r := Launch(scriptname, cfg, runs);
      if r.Ok? {
        r := Ok(scriptname + "/" + r.value);
      }
    }

    /**
     * `_run_script` as its documentation promises: the location of the run
     * relative to the data location, `scriptname/<run directory name>`.
     */
    method RunScriptIntended(scriptname: string, cfg: Option<string>, runs: seq<string>) returns (r: Result<string>)
      modifies this
      ensures cfg.None? && config.None? ==> r == Err(AttributeError) && unchanged(this)
      ensures cfg.Some? || config.Some? ==>
        && commands == old(commands) + [old(CommandFor(scriptname, if cfg.Some? then cfg.value else config.value))]
        && (runs == [] ==> r == Err(IndexError) && initiated == old(initiated))
        && (runs != [] ==> r == Ok(scriptname + "/" + BaseName(Greatest(runs))) && initiated)
    {
      r := Launch(scriptname, cfg, runs);
      if r.Ok? {
        r := Ok(scriptname + "/" + BaseName(r.value));
      }
    }

    /**
     * `pedestal_run(BV)` AS WRITTEN: `_run_script` returns
     * `pedestal_run/<whole glob path>`, and with a bias that name, prefixed
     * with the data location and the module, is renamed with `_BV{BV}`
     * appended and returned; without a bias nothing is renamed or returned.
     * The renamed path never exists (see `AsWrittenPathMisses`).
     */
    method PedestalRun(bv: Option<string>, runs: seq<string>) returns (r: Result<Option<string>>)
      modifies this
      ensures config.None? ==> r == Err(AttributeError) && unchanged(this)
      ensures config.Some? && runs == [] ==> r == Err(IndexError)
      ensures config.Some? && runs != [] ==>
        && initiated
        && (bv.None? ==> r == Ok(None) && commands == old(commands) + [old(CommandFor("pedestal_run", config.value))])
        && (bv.Some? ==>
              var moved := RunDir(dataLoc, modulename, "pedestal_run" + "/" + Greatest(runs));
              && r == Ok(Some(moved + "_BV" + bv.value))
              && commands == old(commands) + [old(CommandFor("pedestal_run", config.value)),
                                               "mv " + moved + " " + moved + "_BV" + bv.value])
    {
      var d := RunScript("pedestal_run", None, runs);
      if d.Err? {
        return Err(d.error);
      }
      if bv.None? {
        return Ok(None);
      }
      var moved := RunDir(dataLoc, modulename, d.value);
      commands := commands + ["mv " + moved + " " + moved + "_BV" + bv.value];
      return Ok(Some(moved + "_BV" + bv.value));
    }

    /**
     * `pedestal_run(BV)` with the relative run name: with a bias the run
     * directory, the greatest path the glob found, is renamed with
     * `_BV{BV}` appended and the new path returned; without one nothing is
     * renamed or returned.
     */
    method PedestalRunIntended(bv: Option<string>, runs: seq<string>) returns (r: Result<Option<string>>)
      requires GlobShaped(runs, ScriptDir(dataLoc, modulename, "pedestal_run"))
      modifies this
      ensures config.None? ==> r == Err(AttributeError) && unchanged(this)
      ensures config.Some? && runs == [] ==> r == Err(IndexError)
      ensures config.Some? && runs != [] ==>
        && initiated
        && (bv.None? ==> r == Ok(None) && commands == old(commands) + [old(CommandFor("pedestal_run", config.value))])
        && (bv.Some? ==>
              && r == Ok(Some(Greatest(runs) + "_BV" + bv.value))
              && commands == old(commands) + [old(CommandFor("pedestal_run", config.value)),
                                               "mv " + Greatest(runs) + " " + Greatest(runs) + "_BV" + bv.value])
    {
      var d := RunScriptIntended("pedestal_run", None, runs);
      if d.Err? {
        return Err(d.error);
      }
      if bv.None? {
        return Ok(None);
      }
      ghost var last := Greatest(runs);
      assert GlobShaped([last], ScriptDir(dataLoc, modulename, "pedestal_run")) by {
        var k :| 0 <= k < |runs| && runs[k] == last;
      }
      BaseNameFinds(dataLoc, modulename, last);
      assert d.value == "pedestal_run/" + BaseName(last);
      var moved := RunDir(dataLoc, modulename, d.value);
      commands := commands + ["mv " + moved + " " + moved + "_BV" + bv.value];
      return Ok(Some(moved + "_BV" + bv.value));
    }

    /** `status_daq()`. */
    method StatusDaq(stdout: string) returns (client: bool)
      ensures client <==> ExternalPc.DaqRunning(stdout)
    {
      client := AnyLineContains(Split(stdout, '\n'), "Active: active (running)");
    }

    /** `restart_daq()`. */
    method RestartDaq(stdout: string) returns (client: bool)
      modifies this
      ensures client <==> ExternalPc.DaqRunning(stdout)
      ensures commands == old(commands) + [ExternalPc.RestartDaqCommand] && initiated == old(initiated)
    {
      commands := commands + [ExternalPc.RestartDaqCommand];
      client := StatusDaq(stdout);
    }
  }
}
