/** printer/printer.py: choosing the serial port of the motion controller. */
module PrinterPort {
  import opened Results
  import opened Text

  /** The device globs `scanserial` lists, in this order. */
  const PATTERNS: seq<string> := ["/dev/ttyUSB*", "/dev/ttyACM*", "/dev/tty.*", "/dev/cu.*", "/dev/rfcomm*"]

  /** `_bluetoothfilter`: the port name mentions neither "Bluetooth" nor "FireFly". */
  predicate NotBluetooth(port: string) {
    !(Contains(port, "Bluetooth") || Contains(port, "FireFly"))
  }

  /** `[p for p in baselist if _bluetoothfilter(p)]`. */
  function Keep(ports: seq<string>): (kept: seq<string>)
    ensures |kept| <= |ports|
    ensures forall p :: p in kept <==> p in ports && NotBluetooth(p)
    decreases |ports|
  {
    if |ports| == 0 then []
    else
      var last := ports[|ports| - 1];
      assert ports == ports[..|ports| - 1] + [last];
      Keep(ports[..|ports| - 1]) + (if NotBluetooth(last) then [last] else [])
  }

  /** Filtering a concatenation filters each part in place, so the kept ports keep their order. */
  lemma {:induction false} KeepConcat(a: seq<string>, b: seq<string>)
    ensures Keep(a + b) == Keep(a) + Keep(b)
    decreases |b|
  {
    if |b| == 0 {
      assert a + b == a;
    } else {
      assert (a + b)[..|a + b| - 1] == a + b[..|b| - 1];
      KeepConcat(a, b[..|b| - 1]);
    }
  }

  /** Ports that are all acceptable pass the filter unchanged. */
  lemma {:induction false} KeepAll(ports: seq<string>)
    requires forall k :: 0 <= k < |ports| ==> NotBluetooth(ports[k])
    ensures Keep(ports) == ports
    decreases |ports|
  {
    if |ports| > 0 {
      KeepAll(ports[..|ports| - 1]);
      assert ports[..|ports| - 1] + [ports[|ports| - 1]] == ports;
    }
  }

  /** What `scanserial` returns, given what each glob pattern matches. */
  function Candidates(glob: string -> seq<string>): seq<string> {
    Keep(glob("/dev/ttyUSB*") + glob("/dev/ttyACM*") + glob("/dev/tty.*") + glob("/dev/cu.*") + glob("/dev/rfcomm*"))
  }

  /** The candidates come grouped by pattern, in pattern order, each group filtered. */
  lemma CandidatesGrouped(glob: string -> seq<string>)
    ensures Candidates(glob)
         == Keep(glob("/dev/ttyUSB*")) + Keep(glob("/dev/ttyACM*")) + Keep(glob("/dev/tty.*"))
          + Keep(glob("/dev/cu.*")) + Keep(glob("/dev/rfcomm*"))
  {
    var a, b, c, d, e := glob("/dev/ttyUSB*"), glob("/dev/ttyACM*"), glob("/dev/tty.*"), glob("/dev/cu.*"), glob("/dev/rfcomm*");
    KeepConcat(a + b + c + d, e);
    KeepConcat(a + b + c, d);
    KeepConcat(a + b, c);
    KeepConcat(a, b);
  }

  function Globbed(glob: string -> seq<string>, n: nat): seq<string>
    requires n <= |PATTERNS|
  {
    if n == 0 then [] else Globbed(glob, n - 1) + glob(PATTERNS[n - 1])
  }

  /** `Printer.scanserial`: concatenate the glob results pattern by pattern, then filter. */
  method ScanSerial(glob: string -> seq<string>) returns (candidates: seq<string>)
    ensures candidates == Candidates(glob)
  {
    var baselist: seq<string> := [];
    for i := 0 to |PATTERNS|
      invariant baselist == Globbed(glob, i)
    {
      baselist := baselist + glob(PATTERNS[i]);
    }
    assert Globbed(glob, 2) == glob("/dev/ttyUSB*") + glob("/dev/ttyACM*");
    assert Globbed(glob, 4) == Globbed(glob, 2) + glob("/dev/tty.*") + glob("/dev/cu.*");
    candidates := Keep(baselist);
  }

  datatype PortError = NoPossibleConnections

  /** The port `Printer.__init__` settles on: a truthy explicit serial, otherwise the first candidate. */
  function ChooseSerial(serial: Option<string>, candidates: seq<string>): (r: Result<string, PortError>)
    ensures serial.Some? && serial.value != "" ==> r == Success(serial.value)
    ensures !(serial.Some? && serial.value != "") ==> (r.Failure? <==> |candidates| == 0)
    ensures !(serial.Some? && serial.value != "") && r.Success? ==> r.value == candidates[0]
  {
    if serial.Some? && serial.value != "" then Success(serial.value)
    else if |candidates| == 0 then Failure(NoPossibleConnections)
    else Success(candidates[0])
  }

  /** Without an explicit serial the chosen port matched a pattern and is not a Bluetooth port. */
  lemma ChosenIsCandidate(serial: Option<string>, glob: string -> seq<string>)
    requires !(serial.Some? && serial.value != "")
    requires ChooseSerial(serial, Candidates(glob)).Success?
    ensures NotBluetooth(ChooseSerial(serial, Candidates(glob)).value)
    ensures ChooseSerial(serial, Candidates(glob)).value
         in glob("/dev/ttyUSB*") + glob("/dev/ttyACM*") + glob("/dev/tty.*") + glob("/dev/cu.*") + glob("/dev/rfcomm*")
  {
    assert Candidates(glob)[0] in Candidates(glob);
  }

  class Printer {
    const serial: string

    constructor (serial: string)
      ensures this.serial == serial
    {
      this.serial := serial;
    }

    /** `Printer(serial)`: the glob is consulted only when no truthy serial is given. */
    static method Open(serial: Option<string>, glob: string -> seq<string>) returns (r: Result<Printer, PortError>)
      ensures r.Failure? <==> ChooseSerial(serial, Candidates(glob)).Failure?
      ensures r.Success? ==> fresh(r.value) && r.value.serial == ChooseSerial(serial, Candidates(glob)).value
    {
      if !(serial.Some? && serial.value != "") {
        var possible := ScanSerial(glob);
        if |possible| == 0 {
          return Failure(NoPossibleConnections);
        }
        var p := new Printer(possible[0]);
        return Success(p);
      } else {
        var p := new Printer(serial.value);
        return Success(p);
      }
    }
  }
}
