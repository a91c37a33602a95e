/** The board configuration: the data it produces (BoardSpecs with its sensor types
    and ports), the lookup helpers, and readConfigText, which reads the configuration
    text in two passes: sensor types first, then connection, board and port lines.

    A line is the C string fgets leaves in the buffer: the text of one line of the
    file, with its terminating '\n' when the file has one there. */
module BoardConfig {
  import opened CText

  /** One sensor type: a class of sensor (not a physical port). Its id is its
      position in BoardSpecs.sensors. */
  datatype SensorInfo = SensorInfo(
    sensorType: seq<char>,
    unit: seq<char>,
    multiplier: real,
    rangeStart: real,
    rangeEnd: real)

  /** A port's latest sample: not read yet, a scaled value, or the +HUGE_VAL
      (AboveRange) or -HUGE_VAL (BelowRange) error sentinel. */
  datatype Reading = Unread | Sample(v: real) | AboveRange | BelowRange

  /** RangeFloor and RangeCeiling of a default-constructed PortInfo. The parser never
      assigns these two fields, so a parsed port keeps them; the header that declares
      PortInfo (Structs.h) is not part of this model, so they are a parameter. */
  datatype Bounds = Bounds(floor: real, ceiling: real)

  /** One physical input channel bound to a sensor type by id. */
  datatype PortInfo = PortInfo(
    name: seq<char>,
    sensorId: int,
    multiplier: real,
    description: seq<char>,
    rangeEnd: real,
    rangeFloor: real,
    rangeCeiling: real,
    value: Reading)

  /** The board model readConfigText builds. */
  datatype BoardSpecs = BoardSpecs(
    id: seq<char>,
    networkSSID: seq<char>,
    networkPassword: seq<char>,
    databaseTableName: seq<char>,
    remoteIP: seq<char>,
    remoteDir: seq<char>,
    remotePort: int,
    hostName: seq<char>,
    sensors: seq<SensorInfo>,
    ports: seq<PortInfo>)

  /** A default-constructed BoardSpecs: empty strings and lists, and remote port 0
      (the value the start-up check reads as "no port given"). */
  const EmptySpecs: BoardSpecs := BoardSpecs("", "", "", "", "", "", 0, "", [], [])

  // ---------------------------------------------------------------------------
  // Lookups by sensor id (setUnitMultiplier, getSensorName, setBoundsFromID)

  /** The sensor id is an index of the sensor list. The source passes the id as a
      size_t, so a negative id wraps to a huge value and is out of range as well. */
  predicate InRange(sensors: seq<SensorInfo>, sensId: int)
  {
    0 <= sensId < |sensors|
  }

  /** The multiplier of sensor sensId, or 0 when there is no such sensor. */
  function SetUnitMultiplier(sensors: seq<SensorInfo>, sensId: int): (m: real)
    ensures !InRange(sensors, sensId) ==> m == 0.0
    ensures InRange(sensors, sensId) ==> m == sensors[sensId].multiplier
  {
    if !InRange(sensors, sensId) then 0.0 else sensors[sensId].multiplier
  }

  /** "<type> in <unit>" for sensor sensId, or "No Sensor" when there is no such sensor. */
  function GetSensorName(sensors: seq<SensorInfo>, sensId: int): (r: seq<char>)
    ensures !InRange(sensors, sensId) ==> r == "No Sensor"
    ensures InRange(sensors, sensId) ==>
      var t, u := sensors[sensId].sensorType, sensors[sensId].unit;
      |r| == |t| + 4 + |u| && r[..|t|] == t && r[|t|..|t| + 4] == " in " && r[|t| + 4..] == u
  {
    if !InRange(sensors, sensId) then "No Sensor"
    else sensors[sensId].sensorType + " in " + sensors[sensId].unit
  }

  /** Copies the sensor's RangeEnd into the port (the source assigns it twice and
      touches no other field). The source indexes the sensor list unchecked, so the id
      must be in range. */
  method SetBoundsFromID(input: PortInfo, sensors: seq<SensorInfo>) returns (output: PortInfo)
    requires InRange(sensors, input.sensorId)
    ensures output.rangeEnd == sensors[input.sensorId].rangeEnd
    ensures output == input.(rangeEnd := output.rangeEnd)
  {
    output := input;
    output := output.(rangeEnd := sensors[input.sensorId].rangeEnd);
    output := output.(rangeEnd := sensors[input.sensorId].rangeEnd);
  }

  // ---------------------------------------------------------------------------
  // Port names

  /** What the "remove whitespace" loop leaves of a name: erase(pos) drops everything
      from the first space on, so the name is cut at its first space. */
  function TruncateAtSpace(name: seq<char>): (r: seq<char>)
    ensures |r| <= |name| && r == name[..|r|]
    ensures forall i :: 0 <= i < |r| ==> r[i] != ' '
    ensures r == name || name[|r|] == ' '
  {
    name[..FindFirstIn(name, {' '})]
  }

  /** The loop itself: find the first space, erase from there to the end, look again. */
  method ErasePortNameFromSpace(name: seq<char>) returns (r: seq<char>)
    ensures r == TruncateAtSpace(name)
  {
    r := name;
    var spaceDex := FindFirstIn(r, {' '});
    while spaceDex < |r|
      invariant spaceDex == FindFirstIn(r, {' '})
      invariant TruncateAtSpace(r) == TruncateAtSpace(name)
      decreases |r|
    {
      r := r[..spaceDex];
      spaceDex := FindFirstIn(r, {' '});
    }
  }

  // ---------------------------------------------------------------------------
  // Line shapes and their fields

  const Colon: set<char> := {':'}
  const Comma: set<char> := {','}
  const Newline: set<char> := {'\n'}

  /** strtok delimiters, call by call, for each kind of line. */
  const SensorDelims: seq<set<char>> := [Colon, Comma, Comma, Comma, Comma, Newline]
  const ConnDelims: seq<set<char>> := [Colon, Colon, Colon, Colon, Newline]
  const BoardDelims: seq<set<char>> := [Colon, Colon, Colon, Colon]
  const PortDelims: seq<set<char>> := [Colon, Newline]

  /** The tokens of successive strtok calls on one line, the k-th call splitting on
      delims[k]; None as soon as one call returns NULL. */
  function StrtokChain(s: seq<char>, delims: seq<set<char>>): (r: Option<seq<seq<char>>>)
    ensures r.Some? ==> |r.value| == |delims|
    ensures r.Some? ==> forall k :: 0 <= k < |delims| ==> |r.value[k]| > 0
    decreases |delims|
  {
    if delims == [] then Some([])
    else match Strtok(s, delims[0])
      case None => None
      case Some(sp) =>
        match StrtokChain(sp.rest, delims[1..])
        case None => None
        case Some(ts) =>
          assert forall k :: 0 < k < |delims| ==> ([sp.token] + ts)[k] == ts[k - 1];
          Some([sp.token] + ts)
  }

  /** The text the (k+1)-th strtok call on a line starts from, or None once an earlier
      call has returned NULL. */
  function ChainRest(s: seq<char>, delims: seq<set<char>>, k: nat): Option<seq<char>>
    requires k <= |delims|
    decreases k
  {
    if k == 0 then Some(s)
    else match Strtok(s, delims[0])
      case None => None
      case Some(sp) => ChainRest(sp.rest, delims[1..], k - 1)
  }

  /** One strtok call that returns a token, in front of the rest of the chain. */
  lemma ChainStep(s: seq<char>, delims: seq<set<char>>, k: nat, sp: Split)
    requires 0 < k <= |delims| && Strtok(s, delims[0]) == Some(sp)
    ensures ChainRest(s, delims, k) == ChainRest(sp.rest, delims[1..], k - 1)
    ensures StrtokChain(s, delims).None? <==> StrtokChain(sp.rest, delims[1..]).None?
    ensures StrtokChain(s, delims).Some? ==>
      StrtokChain(s, delims).value == [sp.token] + StrtokChain(sp.rest, delims[1..]).value
  {
  }

  /** A first strtok call that returns NULL ends the chain. */
  lemma ChainStopsAtNull(s: seq<char>, delims: seq<set<char>>, k: nat)
    requires 0 < k <= |delims| && Strtok(s, delims[0]).None?
    ensures ChainRest(s, delims, k) == None
    ensures StrtokChain(s, delims) == None
  {
  }

  /** The chain is None exactly when one of its strtok calls returns NULL. k is the
      number of calls, |delims|, as a parameter of its own: the induction counts it
      down together with delims. */
  lemma {:induction false} StrtokChainNullIff(s: seq<char>, delims: seq<set<char>>, k: nat)
    requires k == |delims|
    ensures StrtokChain(s, delims).None? <==> ChainRest(s, delims, k).None?
    decreases k
  {
    if k == 0 {
      assert delims == [];
    } else if Strtok(s, delims[0]).None? {
      ChainStopsAtNull(s, delims, k);
    } else {
      var sp := Strtok(s, delims[0]).value;
      StrtokChainNullIff(sp.rest, delims[1..], k - 1);
      ChainStep(s, delims, k, sp);
    }
  }

  /** Token k of the chain is what the k-th strtok call returns, on the text the earlier
      calls left. */
  lemma {:induction false} StrtokChainTokens(s: seq<char>, delims: seq<set<char>>, k: nat)
    requires StrtokChain(s, delims).Some? && k < |delims|
    ensures ChainRest(s, delims, k).Some?
    ensures Strtok(ChainRest(s, delims, k).value, delims[k]).Some?
    ensures StrtokChain(s, delims).value[k] == Strtok(ChainRest(s, delims, k).value, delims[k]).value.token
    decreases k
  {
    if Strtok(s, delims[0]).None? {
      assert false;
    } else {
      var sp := Strtok(s, delims[0]).value;
      ChainStep(s, delims, 1, sp);
      if k > 0 {
        StrtokChainTokens(sp.rest, delims[1..], k - 1);
        ChainStep(s, delims, k, sp);
        assert delims[k] == delims[1..][k - 1];
      }
    }
  }

  /** First pass: a line that starts with 'S' and contains "SensorID". */
  predicate IsSensorLine(line: seq<char>)
  {
    |line| > 0 && line[0] == 'S' && Contains(line, "SensorID")
  }

  /** Second pass: a line that starts with 'C' and contains "ConnInfo". */
  predicate IsConnLine(line: seq<char>)
  {
    |line| > 0 && line[0] == 'C' && Contains(line, "ConnInfo")
  }

  /** Second pass: a line that starts with 'B' and contains "Board". */
  predicate IsBoardLine(line: seq<char>)
  {
    |line| > 0 && line[0] == 'B' && Contains(line, "Board")
  }

  /** Second pass: any line that starts with 'P'. */
  predicate IsPortLine(line: seq<char>)
  {
    |line| > 0 && line[0] == 'P'
  }

  /** "SensorID...:type,unit,multiplier,start,end": the text before ':' is skipped. */
  function SensorOfLine(line: seq<char>): Option<SensorInfo>
  {
    match StrtokChain(line, SensorDelims)
    case None => None
    case Some(ts) => Some(SensorInfo(ts[1], ts[2], Atof(ts[3]), Atof(ts[4]), Atof(ts[5])))
  }

  datatype ConnInfo = ConnInfo(remoteIP: seq<char>, remotePort: int, hostName: seq<char>, remoteDir: seq<char>)

  /** The remote port token: its integer value when it starts with a digit, else 0. */
  function RemotePortOf(tok: seq<char>): (port: int)
    ensures port >= 0
    ensures tok != [] && IsDigit(tok[0]) ==> port == DecValue(LeadingDigits(tok))
    ensures tok == [] || !IsDigit(tok[0]) ==> port == 0
  {
    if tok != [] && IsDigit(tok[0]) then Atoi(tok) else 0
  }

  /** "ConnInfo:ip:port:host:dir": the directory runs to the end of the line. */
  function ConnOfLine(line: seq<char>): Option<ConnInfo>
  {
    match StrtokChain(line, ConnDelims)
    case None => None
    case Some(ts) => Some(ConnInfo(ts[1], RemotePortOf(ts[2]), ts[3], ts[4]))
  }

  datatype BoardIdentity = BoardIdentity(id: seq<char>, ssid: seq<char>, password: seq<char>, tableName: seq<char>)

  /** "<id>:ssid:password:table": the id is the first token itself, and the table name
      keeps whatever follows the last ':' (the line's '\n' included). */
  function BoardOfLine(line: seq<char>): Option<BoardIdentity>
  {
    match StrtokChain(line, BoardDelims)
    case None => None
    case Some(ts) => Some(BoardIdentity(ts[0], ts[1], ts[2], ts[3]))
  }

  datatype PortLine = PortLine(rawName: seq<char>, sensorId: int)

  /** "<name>:<sensor id>": the id is atoi of the rest of the line. */
  function PortOfLine(line: seq<char>): Option<PortLine>
  {
    match StrtokChain(line, PortDelims)
    case None => None
    case Some(ts) => Some(PortLine(ts[0], Atoi(ts[1])))
  }

  /** Every strtok call the source makes on this line finds a token. A NULL token is
      dereferenced by the source (undefined behaviour), so the parser needs this. */
  predicate WellFormedLine(line: seq<char>)
  {
    && (IsSensorLine(line) ==> SensorOfLine(line).Some?)
    && (IsConnLine(line) ==> ConnOfLine(line).Some?)
    && (IsBoardLine(line) ==> BoardOfLine(line).Some?)
    && (IsPortLine(line) ==> PortOfLine(line).Some?)
  }

  predicate WellFormed(lines: seq<seq<char>>)
  {
    forall i :: 0 <= i < |lines| ==> WellFormedLine(lines[i])
  }

  lemma WellFormedPrefix(lines: seq<seq<char>>, n: nat)
    requires WellFormed(lines) && n <= |lines|
    ensures WellFormed(lines[..n])
  {
    forall i | 0 <= i < n ensures WellFormedLine(lines[..n][i]) {
      assert lines[..n][i] == lines[i];
    }
  }

  // ---------------------------------------------------------------------------
  // What readConfigText computes, line by line

  /** Pass one: the sensor types of the SensorID lines, in file order. */
  function SensorsOf(lines: seq<seq<char>>): seq<SensorInfo>
    requires WellFormed(lines)
  {
    if lines == [] then []
    else
      var last := lines[|lines| - 1];
      SensorsOf(lines[..|lines| - 1]) + (if IsSensorLine(last) then [SensorOfLine(last).value] else [])
  }

  /** The port a port line yields, or None when its multiplier is 0 (no such sensor, or
      a sensor whose multiplier is 0), in which case the port is not stored. */
  function DerivePort(sensors: seq<SensorInfo>, pl: PortLine, unset: Bounds): (r: Option<PortInfo>)
    ensures r.Some? <==> InRange(sensors, pl.sensorId) && sensors[pl.sensorId].multiplier != 0.0
    ensures r.Some? ==>
      && r.value.name == TruncateAtSpace(pl.rawName)
      && r.value.sensorId == pl.sensorId
      && r.value.multiplier == sensors[pl.sensorId].multiplier
      && r.value.description == sensors[pl.sensorId].sensorType + " in " + sensors[pl.sensorId].unit
      && r.value.rangeEnd == sensors[pl.sensorId].rangeEnd
      && r.value.rangeFloor == unset.floor && r.value.rangeCeiling == unset.ceiling
      && r.value.value == Unread
  {
    var m := SetUnitMultiplier(sensors, pl.sensorId);
    if m == 0.0 then None
    else Some(PortInfo(TruncateAtSpace(pl.rawName), pl.sensorId, m, GetSensorName(sensors, pl.sensorId),
                       sensors[pl.sensorId].rangeEnd, unset.floor, unset.ceiling, Unread))
  }

  function OptionToSeq<T>(o: Option<T>): seq<T>
  {
    if o.Some? then [o.value] else []
  }

  /** One line of pass two. */
  function ApplyLine(s: BoardSpecs, line: seq<char>, unset: Bounds): (r: BoardSpecs)
    requires WellFormedLine(line)
    ensures r.sensors == s.sensors
    ensures !IsConnLine(line) && !IsBoardLine(line) && !IsPortLine(line) ==> r == s
    ensures IsConnLine(line) ==>
      var c := ConnOfLine(line).value;
      r == s.(remoteIP := c.remoteIP, remotePort := c.remotePort, hostName := c.hostName, remoteDir := c.remoteDir)
    ensures IsBoardLine(line) ==>
      var b := BoardOfLine(line).value;
      r == s.(id := b.id, networkSSID := b.ssid, networkPassword := b.password, databaseTableName := b.tableName)
    ensures IsPortLine(line) ==>
      r == s.(ports := s.ports + OptionToSeq(DerivePort(s.sensors, PortOfLine(line).value, unset)))
  {
    if IsConnLine(line) then
      var c := ConnOfLine(line).value;
      s.(remoteIP := c.remoteIP, remotePort := c.remotePort, hostName := c.hostName, remoteDir := c.remoteDir)
    else if IsBoardLine(line) then
      var b := BoardOfLine(line).value;
      s.(id := b.id, networkSSID := b.ssid, networkPassword := b.password, databaseTableName := b.tableName)
    else if IsPortLine(line) then
      s.(ports := s.ports + OptionToSeq(DerivePort(s.sensors, PortOfLine(line).value, unset)))
    else s
  }

  /** Pass two over the lines, in order. */
  function Pass2(s: BoardSpecs, lines: seq<seq<char>>, unset: Bounds): BoardSpecs
    requires WellFormed(lines)
  {
    if lines == [] then s
    else ApplyLine(Pass2(s, lines[..|lines| - 1], unset), lines[|lines| - 1], unset)
  }

  /** The whole parse: pass one fills the sensor list, pass two the rest. */
  function ParseConfig(lines: seq<seq<char>>, unset: Bounds): BoardSpecs
    requires WellFormed(lines)
  {
    Pass2(EmptySpecs.(sensors := SensorsOf(lines)), lines, unset)
  }

  // ---------------------------------------------------------------------------
  // readConfigText

  /** The two fgets loops of readConfigText with the rewind between them. */
  method ReadConfigText(lines: seq<seq<char>>, unset: Bounds) returns (specs: BoardSpecs)
    requires WellFormed(lines)
    ensures specs == ParseConfig(lines, unset)
  {
    // pass one: sensor types
    var sensors := [];
    var i := 0;
    while i < |lines|
      invariant 0 <= i <= |lines|
      invariant sensors == SensorsOf(lines[..i])
    {
      WellFormedPrefix(lines, i + 1);
      assert lines[..i + 1][..i] == lines[..i];
      sensors := ReadSensorLine(sensors, lines[i]);
      i := i + 1;
    }
    assert lines[..|lines|] == lines;
    specs := EmptySpecs.(sensors := sensors);

    // rewind; pass two: connection, board and port lines
    ghost var init := specs;
    i := 0;
    while i < |lines|
      invariant 0 <= i <= |lines|
      invariant specs == Pass2(init, lines[..i], unset)
    {
      WellFormedPrefix(lines, i + 1);
      assert lines[..i + 1][..i] == lines[..i];
      specs := ReadSpecLine(specs, lines[i], unset);
      i := i + 1;
    }
    assert lines[..|lines|] == lines;
  }

  /** The body of the first loop: a SensorID line appends its sensor type. */
  method ReadSensorLine(sensors: seq<SensorInfo>, buf: seq<char>) returns (r: seq<SensorInfo>)
    requires WellFormedLine(buf)
    ensures r == sensors + (if IsSensorLine(buf) then [SensorOfLine(buf).value] else [])
  {
    r := sensors;
    if |buf| > 0 && Contains(buf, "SensorID") && buf[0] == 'S' {
      var ts := StrtokChain(buf, SensorDelims).value;
      var tmp := SensorInfo(ts[1], ts[2], Atof(ts[3]), Atof(ts[4]), Atof(ts[5]));
      r := r + [tmp];
    }
  }

  /** The body of the second loop: field-by-field updates of Specs for one line.
      setBoundsFromID is called once the port has passed the multiplier filter: the
      source calls it before, which reads past the sensor list for a port whose
      sensor id is out of range. */
  method ReadSpecLine(specs: BoardSpecs, buf: seq<char>, unset: Bounds) returns (r: BoardSpecs)
    requires WellFormedLine(buf)
    ensures r == ApplyLine(specs, buf, unset)
  {
    r := specs;
    if |buf| > 0 && buf[0] == 'C' && Contains(buf, "ConnInfo") {
      var ts := StrtokChain(buf, ConnDelims).value;
      r := r.(remoteIP := ts[1]);
      r := r.(remotePort := if IsDigit(ts[2][0]) then Atoi(ts[2]) else 0);
      r := r.(hostName := ts[3]);
      r := r.(remoteDir := ts[4]);
    }
    if |buf| > 0 && buf[0] == 'B' && Contains(buf, "Board") {
      var ts := StrtokChain(buf, BoardDelims).value;
      r := r.(id := ts[0]);
      r := r.(networkSSID := ts[1]);
      r := r.(networkPassword := ts[2]);
      r := r.(databaseTableName := ts[3]);
    } else if |buf| > 0 && buf[0] == 'P' {
      var ts := StrtokChain(buf, PortDelims).value;
      var name := ts[0];
      var sensorId := Atoi(ts[1]);
      name := ErasePortNameFromSpace(name);
      // rangeEnd is overwritten by SetBoundsFromID for every port that is kept
      var tmp := PortInfo(name, sensorId, SetUnitMultiplier(r.sensors, sensorId),
                          GetSensorName(r.sensors, sensorId), 0.0, unset.floor, unset.ceiling, Unread);
      if tmp.multiplier != 0.0 {
        tmp := SetBoundsFromID(tmp, r.sensors);
        r := r.(ports := r.ports + [tmp]);
      }
    }
  }
}
