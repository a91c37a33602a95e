/** How the parsed configuration decides the startup offline check: a text without a
    ConnInfo or Board line, or whose last ConnInfo line gives a port that does not
    start with a digit, makes the run start offline whatever the ESP chip does. */
module StartupConfig {
  import opened CText
  import opened BoardConfig
  import opened ConfigProperties
  import opened Controller

  /** Without a ConnInfo line the remote IP stays empty, so the run starts offline. */
  lemma NoConnInfoStartsOffline(lines: seq<seq<char>>, unset: Bounds, espStarted: bool)
    requires WellFormed(lines)
    requires forall i :: 0 <= i < |lines| ==> !IsConnLine(lines[i])
    ensures ParseConfig(lines, unset).remoteIP == ""
    ensures StartsOffline(ParseConfig(lines, unset), espStarted)
  {
    Pass2KeepsConn(EmptySpecs.(sensors := SensorsOf(lines)), lines, unset);
  }

  /** Without a Board line the table name stays empty, so the run starts offline. */
  lemma NoBoardLineStartsOffline(lines: seq<seq<char>>, unset: Bounds, espStarted: bool)
    requires WellFormed(lines)
    requires forall i :: 0 <= i < |lines| ==> !IsBoardLine(lines[i])
    ensures ParseConfig(lines, unset).databaseTableName == ""
    ensures StartsOffline(ParseConfig(lines, unset), espStarted)
  {
    Pass2KeepsBoard(EmptySpecs.(sensors := SensorsOf(lines)), lines, unset);
  }

  /** When the last ConnInfo line's port token starts with anything but a digit (a
      space after the ':', say), the remote port is 0 and the run starts offline. */
  lemma NonDigitPortStartsOffline(a: seq<seq<char>>, l: seq<char>, b: seq<seq<char>>,
                                  unset: Bounds, espStarted: bool)
    requires WellFormed(a + [l] + b)
    requires IsConnLine(l)
    requires forall i :: 0 <= i < |b| ==> !IsConnLine(b[i])
    requires StrtokChain(l, ConnDelims).Some? && !IsDigit(StrtokChain(l, ConnDelims).value[2][0])
    ensures ParseConfig(a + [l] + b, unset).remotePort == 0
    ensures StartsOffline(ParseConfig(a + [l] + b, unset), espStarted)
  {
    var lines := a + [l] + b;
    LastConnInfoWins(EmptySpecs.(sensors := SensorsOf(lines)), a, l, b, unset);
  }

  /** When the last ConnInfo line's port token starts with a digit, the remote port is
      the value of its leading digits. */
  lemma DigitPortIsRead(a: seq<seq<char>>, l: seq<char>, b: seq<seq<char>>, unset: Bounds)
    requires WellFormed(a + [l] + b)
    requires IsConnLine(l)
    requires forall i :: 0 <= i < |b| ==> !IsConnLine(b[i])
    requires StrtokChain(l, ConnDelims).Some? && IsDigit(StrtokChain(l, ConnDelims).value[2][0])
    ensures var ts := StrtokChain(l, ConnDelims).value;
      ParseConfig(a + [l] + b, unset).remotePort == DecValue(LeadingDigits(ts[2]))
  {
    var lines := a + [l] + b;
    LastConnInfoWins(EmptySpecs.(sensors := SensorsOf(lines)), a, l, b, unset);
  }
}
