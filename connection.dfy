/** Connection parameters for a Modbus client, built from an inverter's modbus type
    and its host string ("host:port" for TCP and UDP, a device path for serial). The
    same construction appears in setup (__init__.py) and in the wizard's connection
    check (config_flow.py). */
module Connection {
  import opened Common
  import opened Text

  /** The baud rate every serial client is opened with. */
  const SerialBaudrate: int := 9600

  datatype ClientParams =
    | NetworkParams(protocol: Protocol, host: string, port: int)
    | SerialParams(modbusType: Value, device: Value, baudrate: int)

  /** Why the parameters could not be built: the host is not a string (AttributeError
      on split), it has no ":" (IndexError on the second piece), or the piece after
      the first ":" is not an integer (ValueError from int()). */
  datatype ParamsError = HostNotText | NoPortSegment | PortNotInteger(segment: string)

  predicate IsNetwork(modbusType: Value)
  {
    modbusType == Proto(TCP) || modbusType == Proto(UDP)
  }

  /** The parameters for a client reaching `host` over `modbusType`. */
  function ParamsFor(modbusType: Value, host: Value): (r: Result<ClientParams, ParamsError>)
    // TCP and UDP: the host is the text before the first ':' and the port the next piece.
    ensures r.Success? && IsNetwork(modbusType) ==>
      && r.value.NetworkParams?
      && Proto(r.value.protocol) == modbusType
      && host.Text?
      && ':' !in r.value.host
      && |r.value.host| < |host.s|
      && host.s[..|r.value.host|] == r.value.host
      && host.s[|r.value.host|] == ':'
    // Anything else is opened as a serial port on the host string at 9600 baud, and never fails.
    ensures !IsNetwork(modbusType) ==> r == Success(SerialParams(modbusType, host, SerialBaudrate))
    ensures r.Failure? ==> IsNetwork(modbusType)
    ensures IsNetwork(modbusType) && !host.Text? ==> r == Failure(HostNotText)
    // A text host succeeds exactly when it has a second piece that reads as an integer,
    // and that integer is the port.
    ensures IsNetwork(modbusType) && host.Text? ==>
      (r.Success? <==> |Split(host.s, ':')| >= 2 && ParseInt(Split(host.s, ':')[1]).Some?)
    ensures r.Success? && IsNetwork(modbusType) ==>
      |Split(host.s, ':')| >= 2 && Some(r.value.port) == ParseInt(Split(host.s, ':')[1])
  {
    if IsNetwork(modbusType) then
      if !host.Text? then Failure(HostNotText)
      else
        var parts := Split(host.s, ':');
        if |parts| < 2 then Failure(NoPortSegment)
        else
          FirstPieceIsPrefix(host.s);
          match ParseInt(parts[1])
          case None => Failure(PortNotInteger(parts[1]))
          case Some(port) => Success(NetworkParams(modbusType.p, parts[0], port))
    else
      Success(SerialParams(modbusType, host, SerialBaudrate))
  }

  /** When `s` holds a ':', the first piece of its split is the text before the first ':'. */
  lemma {:induction false} FirstPieceIsPrefix(s: string)
    requires |Split(s, ':')| >= 2
    ensures var first := Split(s, ':')[0];
      |first| < |s| && s[..|first|] == first && s[|first|] == ':'
    decreases |s|
  {
    var parts := Split(s, ':');
    if s[0] != ':' {
      var rest := Split(s[1..], ':');
      FirstPieceIsPrefix(s[1..]);
    }
  }

  /** The wizard's `f"{host}:{port}"` for a TCP or UDP adapter. */
  function HostAndPort(host: string, port: int): (s: string)
    ensures |s| > |host| && s[..|host|] == host && s[|host|] == ':'
  {
    host + ":" + IntToString(port)
  }

  /** The wizard joins host and port, and the connection check splits them apart again:
      the round trip gives back the same host and port whenever the host holds no ':'. */
  lemma HostAndPortRoundTrip(protocol: Protocol, host: string, port: int)
    requires protocol != SERIAL
    requires ':' !in host
    ensures ParamsFor(Proto(protocol), Text(HostAndPort(host, port))) == Success(NetworkParams(protocol, host, port))
  {
    IntToStringHasNoColon(port);
    var parts := [host, IntToString(port)];
    SplitJoin(parts, ':');
    assert Join(parts, ':') == HostAndPort(host, port);
    ParseIntToString(port);
  }

  /** No host holding a ':' survives the round trip: whatever is parsed back, it is not
      a client for that host and port. */
  lemma ColonHostDoesNotRoundTrip(protocol: Protocol, host: string, port: int)
    requires ':' in host
    ensures ParamsFor(Proto(protocol), Text(HostAndPort(host, port))) != Success(NetworkParams(protocol, host, port))
  {
  }

  /** An IPv6 literal breaks the round trip: "::1" with port 502 becomes "::1:502", whose
      second piece is empty, so int() raises and no client can be built. */
  lemma Ipv6HostDoesNotRoundTrip()
    ensures ParamsFor(Proto(TCP), Text(HostAndPort("::1", 502))).Failure?
  {
    var s := HostAndPort("::1", 502);
    assert s == [':'] + ([':'] + "1:502");
    SplitPrefix("", [':'] + "1:502", ':');
    SplitPrefix("", "1:502", ':');
    assert Split(s, ':')[1] == "";
  }
}
