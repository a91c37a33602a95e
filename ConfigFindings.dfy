/** The order of the port branch of readConfigText: setBoundsFromID runs before the
    multiplier filter, so a port line naming a sensor id the list does not have reads
    past the end of the sensor vector. The one-line text "PA:7\n" shows it. */
module ConfigFindings {
  import opened CText
  import opened BoardConfig
  import opened LineFields

  // ---------------------------------------------------------------------------
  // The concrete line

  /** "PA:7\n" is a port line naming port "PA" and sensor id 7. */
  lemma PortLineFields(line: seq<char>)
    requires line == "PA:7\n"
    ensures IsPortLine(line)
    ensures PortOfLine(line) == Some(PortLine("PA", 7))
  {
    assert line == "PA" + ":" + "7" + "\n";
    PortLineFieldsOf(line, "PA", "7");
    assert LeadingDigits("7") == "7";
    assert DecValue("7") == 7 by { assert "7"[..0] == []; }
  }

  /** A text made of that one line is one the parser accepts, and it declares no sensor. */
  lemma OnePortLineText(line: seq<char>)
    requires line == "PA:7\n"
    ensures WellFormed([line])
    ensures SensorsOf([line]) == []
  {
    PortLineFields(line);
    assert !IsSensorLine(line) && !IsConnLine(line) && !IsBoardLine(line);
    assert WellFormedLine([line][0]);
    assert [line][..0] == [];
  }

  // ---------------------------------------------------------------------------
  // The port branch as written, and the text that breaks it

  /** The port branch of the second loop in the source's order: multiplier, description,
      then setBoundsFromID, and only then the filter on the multiplier. setBoundsFromID
      indexes the sensor list with the port's id, so this order is only defined for a
      port line whose id is in range. */
  method ReadPortLineAsWritten(sensors: seq<SensorInfo>, buf: seq<char>, unset: Bounds)
      returns (port: Option<PortInfo>)
    requires WellFormedLine(buf) && IsPortLine(buf)
    requires InRange(sensors, PortOfLine(buf).value.sensorId)
    ensures port == DerivePort(sensors, PortOfLine(buf).value, unset)
  {
    var ts := StrtokChain(buf, PortDelims).value;
    var name := ErasePortNameFromSpace(ts[0]);
    var sensorId := Atoi(ts[1]);
    var tmp := PortInfo(name, sensorId, SetUnitMultiplier(sensors, sensorId),
                        GetSensorName(sensors, sensorId), 0.0, unset.floor, unset.ceiling, Unread);
    tmp := SetBoundsFromID(tmp, sensors);
    port := if tmp.multiplier != 0.0 then Some(tmp) else None;
  }

  /** The one-line text "PA:7\n" is accepted by the parser, yet its port line reaches the
      as-written port branch with sensor id 7 and an empty sensor list: the branch's
      precondition, that the id indexes the list, fails. */
  lemma AsWrittenReadsPastSensorList(line: seq<char>)
    requires line == "PA:7\n"
    ensures WellFormed([line]) && IsPortLine(line)
    ensures !InRange(SensorsOf([line]), PortOfLine(line).value.sensorId)
  {
    PortLineFields(line);
    OnePortLineText(line);
  }

  /** With setBoundsFromID after the filter (ReadSpecLine), the same text parses to a
      board with no ports: the unknown sensor id is skipped as the rest of the parser
      intends. */
  lemma OutOfRangePortIsSkipped(line: seq<char>, unset: Bounds)
    requires line == "PA:7\n"
    ensures WellFormed([line])
    ensures ParseConfig([line], unset).ports == []
  {
    PortLineFields(line);
    OnePortLineText(line);
    var s0 := EmptySpecs.(sensors := []);
    assert [line][..0] == [];
    assert Pass2(s0, [line], unset) == ApplyLine(s0, line, unset);
    assert DerivePort([], PortLine("PA", 7), unset) == None;
  }
}
