/** What the field extraction of readConfigText reads from a line of the documented
    shape: each field, followed by the delimiter of its strtok call, is that call's
    token, so a SensorID, ConnInfo, Board or port line yields exactly its fields. */
module LineFields {
  import opened CText
  import opened BoardConfig

  /** A field strtok can return whole when it splits on d: non-empty and free of d. */
  predicate FieldFor(f: seq<char>, d: char)
  {
    |f| > 0 && forall i :: 0 <= i < |f| ==> f[i] != d
  }

  // ---------------------------------------------------------------------------
  // One strtok call at a time

  lemma ConsThree<T>(a: T, b: T, c: T, ts: seq<T>)
    ensures [a] + ([b] + ([c] + ts)) == [a, b, c] + ts
  {
  }

  /** A field followed by its delimiter is the token of a strtok call on that
      delimiter, and the delimiter is consumed. */
  lemma FieldThen(f: seq<char>, d: char, rest: seq<char>)
    requires FieldFor(f, d)
    ensures Strtok(f + [d] + rest, {d}) == Some(Split(f, rest))
  {
    var s := f + [d] + rest;
    StrtokSplitsAt(s, {d}, |f|);
    assert s[..|f|] == f && s[|f| + 1..] == rest;
  }

  /** That token in front of the tokens of the calls that follow. */
  lemma FieldStep(f: seq<char>, d: char, rest: seq<char>, ds: seq<set<char>>, ts: seq<seq<char>>)
    requires FieldFor(f, d)
    requires |ds| > 0 && ds[0] == {d}
    requires StrtokChain(rest, ds[1..]) == Some(ts)
    ensures StrtokChain(f + [d] + rest, ds) == Some([f] + ts)
  {
    FieldThen(f, d, rest);
    ChainStep(f + [d] + rest, ds, 1, Split(f, rest));
  }

  /** A last field with no delimiter after it is the whole remaining text. */
  lemma LastField(f: seq<char>, d: char, ds: seq<set<char>>)
    requires FieldFor(f, d)
    requires ds == [{d}]
    ensures StrtokChain(f, ds) == Some([f])
  {
    StrtokWhole(f, {d});
    assert ds[1..] == [] && StrtokChain([], ds[1..]) == Some([]);
    ChainStep(f, ds, 1, Split(f, []));
    assert [f] + [] == [f];
  }

  /** Three fields, each followed by its delimiter, in front of any further calls. */
  lemma ThreeFields(a: seq<char>, da: char, b: seq<char>, db: char, c: seq<char>, dc: char,
                    rest: seq<char>, ds: seq<set<char>>, ts: seq<seq<char>>)
    requires FieldFor(a, da) && FieldFor(b, db) && FieldFor(c, dc)
    requires |ds| >= 3 && ds[0] == {da} && ds[1] == {db} && ds[2] == {dc}
    requires StrtokChain(rest, ds[3..]) == Some(ts)
    ensures StrtokChain(a + [da] + (b + [db] + (c + [dc] + rest)), ds) == Some([a, b, c] + ts)
  {
    var s2 := c + [dc] + rest;
    var s1 := b + [db] + s2;
    assert ds[2..][1..] == ds[3..] && ds[1..][1..] == ds[2..];
    FieldStep(c, dc, rest, ds[2..], ts);
    FieldStep(b, db, s2, ds[1..], [c] + ts);
    FieldStep(a, da, s1, ds, [b] + ([c] + ts));
    ConsThree(a, b, c, ts);
  }

  // ---------------------------------------------------------------------------
  // Whole lines

  /** The six strtok calls of a SensorID line, over any delimiter list that agrees
      with SensorDelims call by call. */
  lemma SensorChain(tag: seq<char>, ty: seq<char>, un: seq<char>, m: seq<char>, rs: seq<char>,
                    re: seq<char>, ds: seq<set<char>>)
    requires FieldFor(tag, ':') && FieldFor(ty, ',') && FieldFor(un, ',')
    requires FieldFor(m, ',') && FieldFor(rs, ',') && FieldFor(re, '\n')
    requires |ds| == 6 && ds[0] == Colon && ds[1] == Comma && ds[2] == Comma
    requires ds[3] == Comma && ds[4] == Comma && ds[5] == Newline
    ensures StrtokChain(tag + [':'] + (ty + [','] + (un + [','] + (m + [','] + (rs + [','] + (re + ['\n'] + []))))), ds)
         == Some([tag, ty, un, m, rs, re])
  {
    var tail := ds[3..];
    var r := m + [','] + (rs + [','] + (re + ['\n'] + []));
    assert tail[3..] == [] && StrtokChain([], tail[3..]) == Some([]);
    ThreeFields(m, ',', rs, ',', re, '\n', [], tail, []);
    assert [m, rs, re] + [] == [m, rs, re];
    assert [tag, ty, un] + [m, rs, re] == [tag, ty, un, m, rs, re];
    ThreeFields(tag, ':', ty, ',', un, ',', r, ds, [m, rs, re]);
  }

  lemma SensorLineShape(line: seq<char>, tag: seq<char>, ty: seq<char>, un: seq<char>, m: seq<char>,
                        rs: seq<char>, re: seq<char>)
    requires line == tag + ":" + ty + "," + un + "," + m + "," + rs + "," + re + "\n"
    ensures line == tag + [':'] + (ty + [','] + (un + [','] + (m + [','] + (rs + [','] + (re + ['\n'] + [])))))
  {
  }

  /** A SensorID line "tag:type,unit,multiplier,start,end\n" yields the sensor type
      with those fields, the three numbers read by atof. */
  lemma SensorLineFields(line: seq<char>, tag: seq<char>, ty: seq<char>, un: seq<char>, m: seq<char>,
                         rs: seq<char>, re: seq<char>)
    requires FieldFor(tag, ':') && FieldFor(ty, ',') && FieldFor(un, ',')
    requires FieldFor(m, ',') && FieldFor(rs, ',') && FieldFor(re, '\n')
    requires line == tag + ":" + ty + "," + un + "," + m + "," + rs + "," + re + "\n"
    ensures SensorOfLine(line) == Some(SensorInfo(ty, un, Atof(m), Atof(rs), Atof(re)))
  {
    SensorLineShape(line, tag, ty, un, m, rs, re);
    SensorChain(tag, ty, un, m, rs, re, SensorDelims);
  }

  /** The five strtok calls of a ConnInfo line, over any delimiter list that agrees
      with ConnDelims call by call. */
  lemma ConnChain(tag: seq<char>, ip: seq<char>, port: seq<char>, host: seq<char>, dir: seq<char>,
                  ds: seq<set<char>>)
    requires FieldFor(tag, ':') && FieldFor(ip, ':') && FieldFor(port, ':') && FieldFor(host, ':')
    requires FieldFor(dir, '\n')
    requires |ds| == 5 && ds[0] == Colon && ds[1] == Colon && ds[2] == Colon
    requires ds[3] == Colon && ds[4] == Newline
    ensures StrtokChain(tag + [':'] + (ip + [':'] + (port + [':'] + (host + [':'] + (dir + ['\n'] + [])))), ds)
         == Some([tag, ip, port, host, dir])
  {
    var tail := ds[3..];
    var r := dir + ['\n'] + [];
    assert tail[1..][1..] == [] && StrtokChain([], tail[1..][1..]) == Some([]);
    assert [dir] + [] == [dir];
    FieldStep(dir, '\n', [], tail[1..], []);
    assert [host] + [dir] == [host, dir];
    FieldStep(host, ':', r, tail, [dir]);
    assert [tag, ip, port] + [host, dir] == [tag, ip, port, host, dir];
    ThreeFields(tag, ':', ip, ':', port, ':', host + [':'] + r, ds, [host, dir]);
  }

  lemma ConnLineShape(line: seq<char>, tag: seq<char>, ip: seq<char>, port: seq<char>, host: seq<char>,
                      dir: seq<char>)
    requires line == tag + ":" + ip + ":" + port + ":" + host + ":" + dir + "\n"
    ensures line == tag + [':'] + (ip + [':'] + (port + [':'] + (host + [':'] + (dir + ['\n'] + []))))
  {
  }

  /** A ConnInfo line "tag:ip:port:host:dir\n" yields exactly those connection
      settings, the port read as RemotePortOf its token. */
  lemma ConnLineFields(line: seq<char>, tag: seq<char>, ip: seq<char>, port: seq<char>, host: seq<char>,
                       dir: seq<char>)
    requires FieldFor(tag, ':') && FieldFor(ip, ':') && FieldFor(port, ':') && FieldFor(host, ':')
    requires FieldFor(dir, '\n')
    requires line == tag + ":" + ip + ":" + port + ":" + host + ":" + dir + "\n"
    ensures ConnOfLine(line) == Some(ConnInfo(ip, RemotePortOf(port), host, dir))
  {
    ConnLineShape(line, tag, ip, port, host, dir);
    ConnChain(tag, ip, port, host, dir, ConnDelims);
  }

  /** The four strtok calls of a Board line, all on ':', the last one taking the rest
      of the line. */
  lemma BoardChain(id: seq<char>, ssid: seq<char>, pw: seq<char>, table: seq<char>, ds: seq<set<char>>)
    requires FieldFor(id, ':') && FieldFor(ssid, ':') && FieldFor(pw, ':') && FieldFor(table, ':')
    requires |ds| == 4 && ds[0] == Colon && ds[1] == Colon && ds[2] == Colon && ds[3] == Colon
    ensures StrtokChain(id + [':'] + (ssid + [':'] + (pw + [':'] + table)), ds) == Some([id, ssid, pw, table])
  {
    assert ds[3..] == [{':'}];
    LastField(table, ':', ds[3..]);
    assert [id, ssid, pw] + [table] == [id, ssid, pw, table];
    ThreeFields(id, ':', ssid, ':', pw, ':', table, ds, [table]);
  }

  lemma BoardLineShape(line: seq<char>, id: seq<char>, ssid: seq<char>, pw: seq<char>, table: seq<char>)
    requires line == id + ":" + ssid + ":" + pw + ":" + table
    ensures line == id + [':'] + (ssid + [':'] + (pw + [':'] + table))
  {
  }

  /** A Board line "id:ssid:password:table" yields exactly those four fields; the
      table name is all that follows the third ':', its '\n' included. */
  lemma BoardLineFields(line: seq<char>, id: seq<char>, ssid: seq<char>, pw: seq<char>, table: seq<char>)
    requires FieldFor(id, ':') && FieldFor(ssid, ':') && FieldFor(pw, ':') && FieldFor(table, ':')
    requires line == id + ":" + ssid + ":" + pw + ":" + table
    ensures BoardOfLine(line) == Some(BoardIdentity(id, ssid, pw, table))
  {
    BoardLineShape(line, id, ssid, pw, table);
    BoardChain(id, ssid, pw, table, BoardDelims);
  }

  /** The two strtok calls of a port line. */
  lemma PortChain(name: seq<char>, field: seq<char>, ds: seq<set<char>>)
    requires FieldFor(name, ':') && FieldFor(field, '\n')
    requires |ds| == 2 && ds[0] == Colon && ds[1] == Newline
    ensures StrtokChain(name + [':'] + (field + ['\n'] + []), ds) == Some([name, field])
  {
    assert ds[1..][1..] == [] && StrtokChain([], ds[1..][1..]) == Some([]);
    assert [field] + [] == [field];
    FieldStep(field, '\n', [], ds[1..], []);
    assert [name] + [field] == [name, field];
    FieldStep(name, ':', field + ['\n'] + [], ds, [field]);
  }

  /** A port line "name:id\n" yields the raw name and atoi of the id field. */
  lemma PortLineFieldsOf(line: seq<char>, name: seq<char>, field: seq<char>)
    requires FieldFor(name, ':') && FieldFor(field, '\n')
    requires line == name + ":" + field + "\n"
    ensures PortOfLine(line) == Some(PortLine(name, Atoi(field)))
  {
    assert line == name + [':'] + (field + ['\n'] + []);
    PortChain(name, field, PortDelims);
  }
}
