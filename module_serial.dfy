/**
 * The module serial number `320-<major>-<minor>-<id>-<index>`: how the setup
 * form composes it, how it normalises the index field, and how the rest of
 * the software reads the density, shape and ROC version back out of it.
 */
module ModuleSerial {
  import opened Wrappers
  import opened Text

  /** `serial.split('-')[1][1]`: the density character, `L` or `H`. */
  function Density(serial: string): (r: Result<char>)
    ensures r.Err? ==> r.error == IndexError
  {
    var parts := Split(serial, '-');
    if |parts| < 2 || |parts[1]| < 2 then Err(IndexError) else Ok(parts[1][1])
  }

  /** `serial.split('-')[2][0]`: the shape character (F, T, B, L, R or 5). */
  function Shape(serial: string): (r: Result<char>)
    ensures r.Err? ==> r.error == IndexError
  {
    var parts := Split(serial, '-');
    if |parts| < 3 || |parts[2]| < 1 then Err(IndexError) else Ok(parts[2][0])
  }

  /** `serial.split('-')[2][-1]`: the ROC version character. */
  function RocVersion(serial: string): (r: Result<char>)
    ensures r.Err? ==> r.error == IndexError
  {
    var parts := Split(serial, '-');
    if |parts| < 3 || |parts[2]| < 1 then Err(IndexError) else Ok(parts[2][|parts[2]| - 1])
  }

  /** Density and shape read together, as every session step does first. */
  function Kind(serial: string): Result<(char, char)> {
    var d :- Density(serial);
    var s :- Shape(serial);
    Ok((d, s))
  }

  /** The serial the setup form shows: `f'320-{major}-{minor}-{id}-{index}'`. */
  function ComposeSerial(major: string, minor: string, id: string, index: string): string {
    "320-" + major + "-" + minor + "-" + id + "-" + index
  }

  predicate DashFree(s: string) {
    '-' !in s
  }

  /** The composed serial, grouped from the right: each dash follows the piece before it. */
  lemma ComposeSerialNested(major: string, minor: string, id: string, index: string)
    ensures ComposeSerial(major, minor, id, index) == "320" + "-" + (major + "-" + (minor + "-" + (id + "-" + index)))
  {
    var r := id + "-" + index;
    var m := minor + "-" + r;
    var j := major + "-" + m;
    assert "320-" == "320" + "-";
    var p1 := "320-" + major + "-" + minor + "-";
    assert p1 + id + "-" + index == p1 + r;
    var p2 := "320-" + major + "-";
    assert p2 + minor + "-" + r == p2 + m;
    assert "320-" + major + "-" + m == "320-" + j;
  }

  /** A serial composed from dash-free parts splits back into exactly those parts. */
  lemma ComposeSerialSplit(major: string, minor: string, id: string, index: string)
    requires DashFree(major) && DashFree(minor) && DashFree(id) && DashFree(index)
    ensures Split(ComposeSerial(major, minor, id, index), '-') == ["320", major, minor, id, index]
  {
    var parts := ["320", major, minor, id, index];
    calc {
      Join(parts, "-");
      "320" + "-" + Join(parts[1..], "-");
      { assert parts[1..][1..] == [minor, id, index]; }
      "320" + "-" + (major + "-" + Join([minor, id, index], "-"));
      { assert [minor, id, index][1..] == [id, index]; }
      "320" + "-" + (major + "-" + (minor + "-" + Join([id, index], "-")));
      { assert [id, index][1..] == [index]; }
      "320" + "-" + (major + "-" + (minor + "-" + (id + "-" + index)));
      ComposeSerial(major, minor, id, index);
    }
    SplitJoin(parts, '-');
  }

  /**
   * The density, shape and ROC version the session reads from a composed
   * serial are the characters the form put there.
   */
  lemma ComposeSerialParse(major: string, minor: string, id: string, index: string)
    requires DashFree(major) && DashFree(minor) && DashFree(id) && DashFree(index)
    requires |major| >= 2 && |minor| >= 1
    ensures Density(ComposeSerial(major, minor, id, index)) == Ok(major[1])
    ensures Shape(ComposeSerial(major, minor, id, index)) == Ok(minor[0])
    ensures RocVersion(ComposeSerial(major, minor, id, index)) == Ok(minor[|minor| - 1])
  {
    ComposeSerialSplit(major, minor, id, index);
  }

  /** Live modules carry a 4-digit index, bare hexaboards a 5-digit one. */
  function IndexLength(live: bool): nat {
    if live then 4 else 5
  }

  /**
   * The module-index field handling of the setup form: a numeric entry of the
   * right length is kept, a shorter one is zero-padded, a longer one leaves the
   * previous index in place, and an empty or non-numeric one clears it.
   */
  function NormalizeIndex(field: string, live: bool, previous: string): string {
    var mind := RStrip(field);
    var serlen := IndexLength(live);
    if mind != "" && IsNumeric(mind) then
      if DigitsValue(mind) < Pow10(serlen) && |mind| == serlen then mind
      else if DigitsValue(mind) < Pow10(serlen) && |mind| < serlen then ZFill(mind, serlen)
      else previous
    else ""
  }

  lemma {:induction false} ZerosValue(k: nat)
    ensures forall i :: 0 <= i < k ==> IsDigit(Repeat('0', k)[i])
    ensures DigitsValue(Repeat('0', k)) == 0
  {
    if k > 0 {
      ZerosValue(k - 1);
      var z := Repeat('0', k);
      assert z[..k - 1] == Repeat('0', k - 1);
    }
  }

  /** Leading zeros do not change the value of a digit string. */
  lemma {:induction false} LeadingZerosValue(k: nat, s: string)
    requires forall i :: 0 <= i < |s| ==> IsDigit(s[i])
    ensures forall i :: 0 <= i < k + |s| ==> IsDigit((Repeat('0', k) + s)[i])
    ensures DigitsValue(Repeat('0', k) + s) == DigitsValue(s)
  {
    ZerosValue(k);
    var z := Repeat('0', k) + s;
    if s == [] {
      assert z == Repeat('0', k);
    } else {
      LeadingZerosValue(k, s[..|s| - 1]);
      assert z[..|z| - 1] == Repeat('0', k) + s[..|s| - 1];
    }
  }

  /** An index of the expected length or shorter is stored as exactly `serlen` digits of the same value. */
  lemma NormalizeIndexAccepted(field: string, live: bool, previous: string)
    requires IsNumeric(RStrip(field)) && |RStrip(field)| <= IndexLength(live)
    ensures var index := NormalizeIndex(field, live, previous);
      |index| == IndexLength(live) && IsNumeric(index) && DigitsValue(index) == DigitsValue(RStrip(field))
  {
    var mind := RStrip(field);
    var serlen := IndexLength(live);
    DigitsValueBound(mind);
    assert Pow10(|mind|) <= Pow10(serlen) by {
      Pow10Monotone(|mind|, serlen);
    }
    if |mind| < serlen {
      LeadingZerosValue(serlen - |mind|, mind);
    }
  }

  lemma {:induction false} Pow10Monotone(a: nat, b: nat)
    requires a <= b
    ensures Pow10(a) <= Pow10(b)
    decreases b
  {
    if a < b {
      Pow10Monotone(a, b - 1);
    }
  }

  /** A numeric index that is too long is ignored; anything non-numeric clears the index. */
  lemma NormalizeIndexRejected(field: string, live: bool, previous: string)
    ensures IsNumeric(RStrip(field)) && |RStrip(field)| > IndexLength(live) ==>
      NormalizeIndex(field, live, previous) == previous
    ensures !IsNumeric(RStrip(field)) ==> NormalizeIndex(field, live, previous) == ""
  {
  }
}
