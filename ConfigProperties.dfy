/** What readConfigText guarantees about the board model it builds: sensor ids follow
    file order whatever the other lines are, stored ports all resolve to a usable
    sensor and keep file order, and the last ConnInfo or Board line wins. */
module ConfigProperties {
  import opened CText
  import opened BoardConfig

  // ---------------------------------------------------------------------------
  // Well-formedness of pieces of the text

  lemma WellFormedConcat(x: seq<seq<char>>, y: seq<seq<char>>)
    ensures WellFormed(x + y) <==> WellFormed(x) && WellFormed(y)
  {
    if WellFormed(x + y) {
      forall i | 0 <= i < |x| ensures WellFormedLine(x[i]) { assert x[i] == (x + y)[i]; }
      forall i | 0 <= i < |y| ensures WellFormedLine(y[i]) { assert y[i] == (x + y)[|x| + i]; }
    }
  }

  // ---------------------------------------------------------------------------
  // Pass one: sensor ids

  /** The SensorID lines of the text, in file order. */
  function SensorLines(lines: seq<seq<char>>): (r: seq<seq<char>>)
    ensures forall k :: 0 <= k < |r| ==> IsSensorLine(r[k])
  {
    if lines == [] then []
    else
      var last := lines[|lines| - 1];
      SensorLines(lines[..|lines| - 1]) + (if IsSensorLine(last) then [last] else [])
  }

  /** Sensor k is the sensor type read from the k-th SensorID line. */
  lemma {:induction false} SensorKIsKthSensorLine(lines: seq<seq<char>>)
    requires WellFormed(lines)
    ensures |SensorsOf(lines)| == |SensorLines(lines)|
    ensures forall k :: 0 <= k < |SensorLines(lines)| ==>
              SensorOfLine(SensorLines(lines)[k]) == Some(SensorsOf(lines)[k])
  {
    if lines != [] {
      var init, last := lines[..|lines| - 1], lines[|lines| - 1];
      WellFormedPrefix(lines, |lines| - 1);
      SensorKIsKthSensorLine(init);
      assert WellFormedLine(last);
    }
  }

  lemma {:induction false} SensorsOfConcat(x: seq<seq<char>>, y: seq<seq<char>>)
    requires WellFormed(x + y)
    ensures WellFormed(x) && WellFormed(y)
    ensures SensorsOf(x + y) == SensorsOf(x) + SensorsOf(y)
  {
    WellFormedConcat(x, y);
    if y != [] {
      var y', last := y[..|y| - 1], y[|y| - 1];
      assert (x + y)[..|x + y| - 1] == x + y';
      WellFormedPrefix(x + y, |x + y| - 1);
      SensorsOfConcat(x, y');
    } else {
      assert x + y == x;
    }
  }

  /** Pass two leaves the sensor list alone. */
  lemma {:induction false} Pass2KeepsSensors(s: BoardSpecs, lines: seq<seq<char>>, unset: Bounds)
    requires WellFormed(lines)
    ensures Pass2(s, lines, unset).sensors == s.sensors
  {
    if lines != [] {
      WellFormedPrefix(lines, |lines| - 1);
      Pass2KeepsSensors(s, lines[..|lines| - 1], unset);
    }
  }

  /** The parsed sensor list is pass one's list. */
  lemma ParsedSensorsArePassOne(lines: seq<seq<char>>, unset: Bounds)
    requires WellFormed(lines)
    ensures ParseConfig(lines, unset).sensors == SensorsOf(lines)
  {
    Pass2KeepsSensors(EmptySpecs.(sensors := SensorsOf(lines)), lines, unset);
  }

  lemma OtherLineDeclaresNoSensor(l: seq<char>)
    requires WellFormed([l]) && !IsSensorLine(l)
    ensures SensorsOf([l]) == []
  {
    assert [l][..0] == [];
  }

  /** Pass one skips a line that is not a SensorID line. */
  lemma SensorsOfSkipsOtherLine(a: seq<seq<char>>, l: seq<char>, b: seq<seq<char>>)
    requires WellFormed(a + [l] + b)
    requires !IsSensorLine(l)
    ensures WellFormed(a + b)
    ensures SensorsOf(a + [l] + b) == SensorsOf(a + b)
  {
    SensorsOfConcat(a + [l], b);
    SensorsOfConcat(a, [l]);
    OtherLineDeclaresNoSensor(l);
    WellFormedConcat(a, b);
    SensorsOfConcat(a, b);
  }

  /** Taking out (or putting in) a line that is not a SensorID line anywhere in the
      text, a port line for one, changes no sensor id. */
  lemma SensorIdsIgnoreOtherLines(a: seq<seq<char>>, l: seq<char>, b: seq<seq<char>>, unset: Bounds)
    requires WellFormed(a + [l] + b)
    requires !IsSensorLine(l)
    ensures WellFormed(a + b)
    ensures ParseConfig(a + [l] + b, unset).sensors == ParseConfig(a + b, unset).sensors
  {
    SensorsOfSkipsOtherLine(a, l, b);
    ParsedSensorsArePassOne(a + [l] + b, unset);
    ParsedSensorsArePassOne(a + b, unset);
  }

  // ---------------------------------------------------------------------------
  // Pass two: ports

  /** Every stored port resolves to a sensor of the list whose multiplier is non-zero,
      and carries that sensor's multiplier, description and RangeEnd, under a name
      without spaces. */
  ghost predicate PortsValid(s: BoardSpecs)
  {
    forall j :: 0 <= j < |s.ports| ==>
      var p := s.ports[j];
      && InRange(s.sensors, p.sensorId)
      && p.multiplier == s.sensors[p.sensorId].multiplier
      && p.multiplier != 0.0
      && p.description == s.sensors[p.sensorId].sensorType + " in " + s.sensors[p.sensorId].unit
      && p.rangeEnd == s.sensors[p.sensorId].rangeEnd
      && (forall i :: 0 <= i < |p.name| ==> p.name[i] != ' ')
  }

  lemma {:induction false} Pass2KeepsPortsValid(s: BoardSpecs, lines: seq<seq<char>>, unset: Bounds)
    requires WellFormed(lines)
    requires PortsValid(s)
    ensures PortsValid(Pass2(s, lines, unset))
  {
    if lines != [] {
      WellFormedPrefix(lines, |lines| - 1);
      Pass2KeepsPortsValid(s, lines[..|lines| - 1], unset);
      assert WellFormedLine(lines[|lines| - 1]);
    }
  }

  /** No stored port has a zero multiplier or an out-of-range sensor id. */
  lemma ParsedPortsValid(lines: seq<seq<char>>, unset: Bounds)
    requires WellFormed(lines)
    ensures PortsValid(ParseConfig(lines, unset))
  {
    Pass2KeepsPortsValid(EmptySpecs.(sensors := SensorsOf(lines)), lines, unset);
  }

  /** The ports the port lines of the text yield against a sensor list, in file order. */
  function DerivedPorts(sensors: seq<SensorInfo>, lines: seq<seq<char>>, unset: Bounds): seq<PortInfo>
    requires WellFormed(lines)
  {
    if lines == [] then []
    else
      var last := lines[|lines| - 1];
      WellFormedPrefix(lines, |lines| - 1);
      DerivedPorts(sensors, lines[..|lines| - 1], unset)
        + (if IsPortLine(last) then OptionToSeq(DerivePort(sensors, PortOfLine(last).value, unset)) else [])
  }

  /** Pass two appends exactly the derived ports of the port lines, in file order;
      ConnInfo, Board and other lines add none. */
  lemma {:induction false} Pass2Ports(s: BoardSpecs, lines: seq<seq<char>>, unset: Bounds)
    requires WellFormed(lines)
    ensures Pass2(s, lines, unset).ports == s.ports + DerivedPorts(s.sensors, lines, unset)
  {
    if lines != [] {
      var init, last := lines[..|lines| - 1], lines[|lines| - 1];
      WellFormedPrefix(lines, |lines| - 1);
      Pass2Ports(s, init, unset);
      Pass2KeepsSensors(s, init, unset);
      assert WellFormedLine(last);
    }
  }

  /** The parsed port list, in file order. */
  lemma ParsedPortsInFileOrder(lines: seq<seq<char>>, unset: Bounds)
    requires WellFormed(lines)
    ensures ParseConfig(lines, unset).ports == DerivedPorts(SensorsOf(lines), lines, unset)
  {
    Pass2Ports(EmptySpecs.(sensors := SensorsOf(lines)), lines, unset);
  }

  // ---------------------------------------------------------------------------
  // Pass two: the last ConnInfo and Board lines win

  lemma {:induction false} Pass2Concat(s: BoardSpecs, x: seq<seq<char>>, y: seq<seq<char>>, unset: Bounds)
    requires WellFormed(x + y)
    ensures WellFormed(x) && WellFormed(y)
    ensures Pass2(s, x + y, unset) == Pass2(Pass2(s, x, unset), y, unset)
  {
    WellFormedConcat(x, y);
    if y == [] {
      assert x + y == x;
    } else {
      var y' := y[..|y| - 1];
      assert (x + y)[..|x + y| - 1] == x + y';
      WellFormedPrefix(y, |y| - 1);
      WellFormedConcat(x, y');
      Pass2Concat(s, x, y', unset);
    }
  }

  predicate SameConn(s: BoardSpecs, t: BoardSpecs)
  {
    s.remoteIP == t.remoteIP && s.remotePort == t.remotePort && s.hostName == t.hostName && s.remoteDir == t.remoteDir
  }

  predicate SameBoard(s: BoardSpecs, t: BoardSpecs)
  {
    s.id == t.id && s.networkSSID == t.networkSSID && s.networkPassword == t.networkPassword
    && s.databaseTableName == t.databaseTableName
  }

  lemma {:induction false} Pass2KeepsConn(s: BoardSpecs, lines: seq<seq<char>>, unset: Bounds)
    requires WellFormed(lines)
    requires forall i :: 0 <= i < |lines| ==> !IsConnLine(lines[i])
    ensures SameConn(Pass2(s, lines, unset), s)
  {
    if lines != [] {
      WellFormedPrefix(lines, |lines| - 1);
      Pass2KeepsConn(s, lines[..|lines| - 1], unset);
      assert WellFormedLine(lines[|lines| - 1]);
    }
  }

  lemma {:induction false} Pass2KeepsBoard(s: BoardSpecs, lines: seq<seq<char>>, unset: Bounds)
    requires WellFormed(lines)
    requires forall i :: 0 <= i < |lines| ==> !IsBoardLine(lines[i])
    ensures SameBoard(Pass2(s, lines, unset), s)
  {
    if lines != [] {
      WellFormedPrefix(lines, |lines| - 1);
      Pass2KeepsBoard(s, lines[..|lines| - 1], unset);
      assert WellFormedLine(lines[|lines| - 1]);
    }
  }

  /** The remote IP, port, host name and directory come from the last ConnInfo line,
      whatever earlier ConnInfo lines said. */
  lemma LastConnInfoWins(s: BoardSpecs, a: seq<seq<char>>, l: seq<char>, b: seq<seq<char>>, unset: Bounds)
    requires WellFormed(a + [l] + b)
    requires IsConnLine(l)
    requires forall i :: 0 <= i < |b| ==> !IsConnLine(b[i])
    ensures ConnOfLine(l).Some?
    ensures var r, c := Pass2(s, a + [l] + b, unset), ConnOfLine(l).value;
      r.remoteIP == c.remoteIP && r.remotePort == c.remotePort && r.hostName == c.hostName && r.remoteDir == c.remoteDir
  {
    Pass2Concat(s, a + [l], b, unset);
    assert (a + [l])[..|a + [l]| - 1] == a;
    assert WellFormedLine((a + [l])[|a|]);
    Pass2KeepsConn(Pass2(s, a + [l], unset), b, unset);
  }

  /** The board id, SSID, password and table name come from the last Board line. */
  lemma LastBoardLineWins(s: BoardSpecs, a: seq<seq<char>>, l: seq<char>, b: seq<seq<char>>, unset: Bounds)
    requires WellFormed(a + [l] + b)
    requires IsBoardLine(l)
    requires forall i :: 0 <= i < |b| ==> !IsBoardLine(b[i])
    ensures BoardOfLine(l).Some?
    ensures var r, bi := Pass2(s, a + [l] + b, unset), BoardOfLine(l).value;
      r.id == bi.id && r.networkSSID == bi.ssid && r.networkPassword == bi.password && r.databaseTableName == bi.tableName
  {
    Pass2Concat(s, a + [l], b, unset);
    assert (a + [l])[..|a + [l]| - 1] == a;
    assert WellFormedLine((a + [l])[|a|]);
    Pass2KeepsBoard(Pass2(s, a + [l], unset), b, unset);
  }
}
