/**
 * The Trenz test stand seen from the testing PC: the firmware chosen for a
 * board, the shell commands run on the stand, and the decisions taken on
 * their output — whether the firmware loaded and the readout chips
 * answered, and whether the DAQ and I2C servers came up. What the stand
 * prints is given to the model as text or as lines.
 */
module TrenzStand {
  import opened Wrappers
  import opened Text
  import opened ModuleSerial

  const TrophyV3: string := "hexaboard-hd-tester-v1p1-trophy-v3"
  const TrophyV2: string := "hexaboard-hd-tester-v1p1-trophy-v2"

  const OverlayMarker: string := "Loaded the device tree overlay successfully using the zynqMP FPGA manager"
  const ActiveMarker: string := "Active: active (running)"
  const DaqStartedMarker: string := "Started daq-client start/stop service script."
  const Alma9Quirk: string := "uio_pdrv_genirq"

  /** The board identifications the I2C server may report. */
  const BoardLines: seq<string> := [
    "[I2C] Board identification: V3 LD Full HB",
    "[I2C] Board identification: V3 LD Semi or Half HB",
    "[I2C] Board identification: V3 HD Full HB"]

  const RestartServers: string := "systemctl restart daq-server.service && systemctl restart i2c-server.service"
  const StatusDaq: string := "systemctl status daq-server.service"
  const StatusI2c: string := "systemctl status i2c-server.service"

  /** The firmware and the board type (density and shape characters) of a stand. */
  datatype Firmware = Firmware(fw: string, hbtype: string)

  /**
   * The firmware for a module serial: low-density full, left and right
   * boards use the trophy v3 firmware, high-density full boards trophy v2,
   * other low- or high-density shapes raise, and any other density keeps
   * no firmware.
   */
  function SelectFirmware(serial: string): (r: Result<Firmware>)
    ensures r.Ok? <==>
      && Density(serial).Ok? && Shape(serial).Ok?
      && (Density(serial).value == 'L' ==> Shape(serial).value in {'F', 'L', 'R'})
      && (Density(serial).value == 'H' ==> Shape(serial).value == 'F')
    ensures r.Ok? ==>
      && r.value.hbtype == [Density(serial).value, Shape(serial).value]
      && r.value.fw == (if Density(serial).value == 'L' then TrophyV3 else if Density(serial).value == 'H' then TrophyV2 else "")
    ensures r.Err? ==> r.error == IndexError || r.error == NotImplemented
  {
    var d :- Density(serial);
    var s :- Shape(serial);
    if d == 'L' then
      if s == 'F' || s == 'L' || s == 'R' then Ok(Firmware(TrophyV3, [d, s])) else Err(NotImplemented)
    else if d == 'H' then
      if s == 'F' then Ok(Firmware(TrophyV2, [d, s])) else Err(NotImplemented)
    else Ok(Firmware("", [d, s]))
  }

  /** One row of the I2C address map, as printed without and with the extra address 0x?7. */
  datatype AddressRow = AddressRow(plain: string, alternate: string)

  const Row00 := AddressRow("00: -- -- -- -- -- -- -- -- 08 09 0a 0b 0c 0d 0e 0f", "00: -- -- -- -- -- -- -- 07 08 09 0a 0b 0c 0d 0e 0f")
  const Row10 := AddressRow("10: -- -- -- -- -- -- -- -- 18 19 1a 1b 1c 1d 1e 1f", "10: -- -- -- -- -- -- -- 17 18 19 1a 1b 1c 1d 1e 1f")
  const Row20 := AddressRow("20: -- -- -- -- -- -- -- -- 28 29 2a 2b 2c 2d 2e 2f", "20: -- -- -- -- -- -- -- 27 28 29 2a 2b 2c 2d 2e 2f")
  const Row40 := AddressRow("40: -- -- -- -- -- -- -- -- 48 49 4a 4b 4c 4d 4e 4f", "40: -- -- -- -- -- -- -- 47 48 49 4a 4b 4c 4d 4e 4f")
  const Row50 := AddressRow("50: -- -- -- -- -- -- -- -- 58 59 5a 5b 5c 5d 5e 5f", "50: -- -- -- -- -- -- -- 57 58 59 5a 5b 5c 5d 5e 5f")
  const Row60 := AddressRow("60: -- -- -- -- -- -- -- -- 68 69 6a 6b 6c 6d 6e 6f", "60: -- -- -- -- -- -- -- 67 68 69 6a 6b 6c 6d 6e 6f")

  /** `listeddevices`: the address rows where each board type's readout chips must answer. */
  const ListedDevices: map<string, seq<AddressRow>> := map[
    "LF" := [Row00, Row10, Row20],
    "LR" := [Row40, Row50],
    "LL" := [Row40, Row50],
    "HF" := [Row00, Row10, Row20, Row40, Row50, Row60]]

  /** The high-density full board answers at every address a low-density full or semi board does, and both semi boards alike. */
  lemma ListedDevicesNested()
    ensures ListedDevices["LR"] == ListedDevices["LL"]
    ensures forall row :: row in ListedDevices["LF"] || row in ListedDevices["LR"] ==> row in ListedDevices["HF"]
  {
  }

  /** Every address row appears in the output, in one form or the other. */
  predicate ChannelsFound(stdout: string, rows: seq<AddressRow>) {
    forall k :: 0 <= k < |rows| ==> Contains(stdout, rows[k].plain) || Contains(stdout, rows[k].alternate)
  }

  /** The firmware loaded and every readout chip answered. */
  predicate FirmwareUp(stdout: string, rows: seq<AddressRow>) {
    Contains(stdout, OverlayMarker) && ChannelsFound(stdout, rows)
  }

  /** Some line of the output holds the marker. */
  predicate SomeLine(lines: seq<string>, marker: string) {
    exists k :: 0 <= k < |lines| && Contains(lines[k], marker)
  }

  /** Some line of the output holds one of the board identifications. */
  predicate BoardIdentified(lines: seq<string>) {
    exists k, m :: 0 <= k < |lines| && 0 <= m < |BoardLines| && Contains(lines[k], BoardLines[m])
  }

  /** The error check of a server status: no error output, or only the known Alma 9 driver message on Alma 9. */
  predicate StderrClean(errlines: seq<string>, alma9: bool) {
    |errlines| == 0 || (|errlines| == 1 && Contains(errlines[0], Alma9Quirk) && alma9)
  }

  /** The DAQ server came up: it is active and the DAQ client service script started. */
  predicate DaqStarted(lines: seq<string>) {
    SomeLine(lines, ActiveMarker) && SomeLine(lines, DaqStartedMarker)
  }

  /** The I2C server came up and identified the board. */
  predicate BoardDiscovered(lines: seq<string>) {
    SomeLine(lines, ActiveMarker) && BoardIdentified(lines)
  }

  /** Any error output other than the Alma 9 driver message fails the check, whatever the system. */
  lemma StderrCleanCases(errlines: seq<string>, alma9: bool)
    ensures !alma9 ==> (StderrClean(errlines, alma9) <==> errlines == [])
    ensures |errlines| >= 2 ==> !StderrClean(errlines, alma9)
    ensures |errlines| == 1 && !Contains(errlines[0], Alma9Quirk) ==> !StderrClean(errlines, alma9)
  {
  }

  /** `TrenzTestStand`: the chosen firmware, the two readiness flags, and the commands run over SSH. */
  class TrenzTestStand {
    const hostname: string
    const fw: string
    const hbtype: string
    var fwloaded: bool
    var services: bool
    var commands: seq<string>

    constructor Connected(hostname: string, firmware: Firmware)
      ensures this.hostname == hostname && fw == firmware.fw && hbtype == firmware.hbtype
      ensures !fwloaded && !services && commands == []
    {
      this.hostname := hostname;
      fw := firmware.fw;
      hbtype := firmware.hbtype;
      fwloaded := false;
      services := false;
      commands := [];
    }

    /** `TrenzTestStand(hostname, modulename)` once the stand answers: the firmware is chosen from the serial. */
    static method Create(hostname: string, modulename: string) returns (r: Result<TrenzTestStand>)
      ensures r.Err? <==> SelectFirmware(modulename).Err?
      ensures r.Err? ==> r.error == SelectFirmware(modulename).error
      ensures r.Ok? ==>
        && fresh(r.value) && !r.value.Status() && r.value.commands == []
        && r.value.fw == SelectFirmware(modulename).value.fw && r.value.hbtype == SelectFirmware(modulename).value.hbtype
    {
      var f := SelectFirmware(modulename);
      if f.Err? {
        return Err(f.error);
      }
      var t := new TrenzTestStand.Connected(hostname, f.value);
      return Ok(t);
    }

    /** `status()`: the firmware is loaded and the servers are up. */
    predicate Status()
      reads this
    {
      fwloaded && services
    }

    /** `_runcmd(cmd)`: the command joins the log. */
    method RunCmd(cmd: string)
      modifies this
      ensures commands == old(commands) + [cmd] && fwloaded == old(fwloaded) && services == old(services)
    {
      commands := commands + [cmd];
    }

    /**
     * `loadfw()`: the firmware is loaded and the devices listed; the result
     * is true exactly when the overlay loaded and every address row of the
     * board type answered, and only a true result sets `fwloaded`. A board
     * type without an address table raises KeyError after the command ran.
     */
    method LoadFw(stdout: string) returns (r: Result<bool>)
      modifies this
      ensures commands == old(commands) + ["fw-loader load " + fw + " && listdevice"] && services == old(services)
      ensures hbtype !in ListedDevices ==> r == Err(KeyError(hbtype)) && fwloaded == old(fwloaded)
      ensures hbtype in ListedDevices ==>
        && r.Ok? && (r.value <==> FirmwareUp(stdout, ListedDevices[hbtype]))
        && fwloaded == (old(fwloaded) || r.value)
        && (Status() <==> (old(fwloaded) || r.value) && services)
    {
      RunCmd("fw-loader load " + fw + " && listdevice");
      var firmwareLoaded := Contains(stdout, OverlayMarker);
      if hbtype !in ListedDevices {
        return Err(KeyError(hbtype));
      }
      var channelsFound := ScanChannels(stdout, ListedDevices[hbtype]);
      if firmwareLoaded && channelsFound {
        fwloaded := true;
        return Ok(true);
      }
      return Ok(false);
    }

    /** The address loop of `loadfw`: every row shows up in one of its two spellings. */
    static method ScanChannels(stdout: string, rows: seq<AddressRow>) returns (found: bool)
      ensures found <==> ChannelsFound(stdout, rows)
    {
      found := true;
      var i := 0;
      while i < |rows|
        invariant 0 <= i <= |rows|
        invariant found <==> ChannelsFound(stdout, rows[..i])
      {
        if !Contains(stdout, rows[i].plain) && !Contains(stdout, rows[i].alternate) {
          found := false;
        }
        assert forall k :: 0 <= k < i ==> rows[..i + 1][k] == rows[..i][k];
        assert rows[..i + 1][i] == rows[i];
        i := i + 1;
      }
      assert rows[..i] == rows;
    }

    /** The DAQ status loop of `startservers`: one pass over the lines sets both checks. */
    static method ScanDaq(lines: seq<string>) returns (active: bool, started: bool)
      ensures active <==> SomeLine(lines, ActiveMarker)
      ensures started <==> SomeLine(lines, DaqStartedMarker)
    {
      active, started := false, false;
      var i := 0;
      while i < |lines|
        invariant 0 <= i <= |lines|
        invariant active <==> SomeLine(lines[..i], ActiveMarker)
        invariant started <==> SomeLine(lines[..i], DaqStartedMarker)
      {
        if Contains(lines[i], ActiveMarker) {
          active := true;
        }
        if Contains(lines[i], DaqStartedMarker) {
          started := true;
        }
        assert forall k :: 0 <= k < i ==> lines[..i + 1][k] == lines[..i][k];
        assert lines[..i + 1][i] == lines[i];
        i := i + 1;
      }
      assert lines[..i] == lines;
    }

    /** The I2C status loop of `startservers`: each line is tried against every board identification. */
    static method ScanI2c(lines: seq<string>) returns (active: bool, identified: bool)
      ensures active <==> SomeLine(lines, ActiveMarker)
      ensures identified <==> BoardIdentified(lines)
    {
      active, identified := false, false;
      var i := 0;
      while i < |lines|
        invariant 0 <= i <= |lines|
        invariant active <==> SomeLine(lines[..i], ActiveMarker)
        invariant identified <==> BoardIdentified(lines[..i])
      {
        if Contains(lines[i], ActiveMarker) {
          active := true;
        }
        var m := 0;
        while m < |BoardLines|
          invariant 0 <= m <= |BoardLines|
          invariant identified <==> BoardIdentified(lines[..i]) || exists n :: 0 <= n < m && Contains(lines[i], BoardLines[n])
        {
          if Contains(lines[i], BoardLines[m]) {
            identified := true;
          }
          m := m + 1;
        }
        assert forall k :: 0 <= k < i ==> lines[..i + 1][k] == lines[..i][k];
        assert lines[..i + 1][i] == lines[i];
        i := i + 1;
      }
      assert lines[..i] == lines;
    }

    /**
     * `startservers()`: both servers are restarted and their status read;
     * the result, which also becomes `services`, is true exactly when the
     * DAQ server started its client, the I2C server identified the board,
     * and neither status printed an error other than the Alma 9 message.
     */
    method StartServers(daqOut: seq<string>, daqErr: seq<string>, i2cOut: seq<string>, i2cErr: seq<string>, alma9: bool)
      returns (ok: bool)
      modifies this
      ensures ok <==> DaqStarted(daqOut) && BoardDiscovered(i2cOut) && StderrClean(daqErr, alma9) && StderrClean(i2cErr, alma9)
      ensures services == ok && fwloaded == old(fwloaded) && (Status() <==> fwloaded && ok)
      ensures commands == old(commands) + [RestartServers] + [StatusDaq] + [StatusI2c]
    {
      RunCmd(RestartServers);
      var errorCheck := true;
      RunCmd(StatusDaq);
      if |daqErr| != 0 {
        if !(|daqErr| == 1 && Contains(daqErr[0], Alma9Quirk) && alma9) {
          errorCheck := false;
        }
      }
      var daqActive, daqStarted := ScanDaq(daqOut);
      var daqInitiated := daqActive && daqStarted;
      RunCmd(StatusI2c);
      if |i2cErr| != 0 {
        if !(|i2cErr| == 1 && Contains(i2cErr[0], Alma9Quirk) && alma9) {
          errorCheck := false;
        }
      }
      var i2cActive, identified := ScanI2c(i2cOut);
      var boardDiscovered := i2cActive && identified;
      if boardDiscovered && daqInitiated && errorCheck {
        services := true;
        ok := true;
      } else {
        services := false;
        ok := false;
      }
    }

    /**
     * `statusservers()`: whether each server is active, read from its
     * status; `services` becomes their conjunction, and error output is
     * read but does not change the answer.
     */
    method StatusServers(daqOut: seq<string>, i2cOut: seq<string>) returns (daq: bool, i2c: bool)
      modifies this
      ensures daq <==> SomeLine(daqOut, ActiveMarker)
      ensures i2c <==> SomeLine(i2cOut, ActiveMarker)
      ensures services == (daq && i2c) && fwloaded == old(fwloaded)
      ensures commands == old(commands) + [StatusDaq] + [StatusI2c]
    {
      RunCmd(StatusDaq);
      daq := AnyLineContains(daqOut, ActiveMarker);
      RunCmd(StatusI2c);
      i2c := AnyLineContains(i2cOut, ActiveMarker);
      services := daq && i2c;
    }
  }
}
