/** The decisions the data logger's main loop takes once the hardware is stripped away:
    whether the run starts offline, how each port sample is clamped, the Wi-Fi retry
    budget with its one-way offline flag, and the deliver-or-persist step that drains
    the backlog of stored snapshots before the live one is sent.

    The network and storage calls are not modelled; their answers are given to each
    cycle as an oracle (CycleEvents). The backup file is the sequence `backlog`:
    checkForBackupFile is `backlog != []`, sendBackupDataTCP sends `backlog[0]`,
    deleteDataEntry removes `backlog[0]`, and dumpSensorDataToFile appends. */
module Controller {
  import opened BoardConfig

  /** PollingInterval before any server suggestion, in seconds. */
  const InitialPollingInterval: real := 5.0

  /** The value the server may write back into the `tmp` argument of a send call; -1
      is the value `tmp` holds before the call. */
  const NoSuggestion: real := -1.0

  // ---------------------------------------------------------------------------
  // Startup

  /** "" or " ": the values the startup checks treat as not configured. */
  predicate IsBlank(s: seq<char>)
  {
    s == "" || s == " "
  }

  /** The run starts offline when the ESP chip did not start, or when the board has no
      table name, remote directory, remote IP, remote port or host name. */
  predicate StartsOffline(specs: BoardSpecs, espStarted: bool)
  {
    || !espStarted
    || IsBlank(specs.databaseTableName)
    || IsBlank(specs.remoteDir)
    || IsBlank(specs.remoteIP)
    || specs.remotePort == 0
    || IsBlank(specs.hostName)
  }

  // ---------------------------------------------------------------------------
  // Sampling

  /** The reading of a sample: above the ceiling gives the +HUGE_VAL sentinel, otherwise
      below the floor gives the -HUGE_VAL sentinel, otherwise the sample itself. */
  function Clamp(v: real, floor: real, ceiling: real): (r: Reading)
    ensures r == AboveRange <==> v > ceiling
    ensures r == BelowRange <==> floor > v && v <= ceiling
    ensures r.Sample? <==> floor <= v <= ceiling
    ensures r.Sample? ==> r.v == v
    ensures r != Unread
  {
    if v > ceiling then AboveRange
    else if v < floor then BelowRange
    else Sample(v)
  }

  /** A port after one pass of the sampling loop, given the raw AnalogIn reading of its
      pin: ports with a zero multiplier are not read and keep their value. */
  function SampledPort(p: PortInfo, raw: real): (q: PortInfo)
    ensures p.multiplier == 0.0 ==> q == p
    ensures q.value == (if p.multiplier == 0.0 then p.value
                        else Clamp(raw * p.multiplier, p.rangeFloor, p.rangeCeiling))
    ensures q == p.(value := q.value)
  {
    if p.multiplier != 0.0 then p.(value := Clamp(raw * p.multiplier, p.rangeFloor, p.rangeCeiling))
    else p
  }

  /** What dumpSensorDataToFile stores and sendBulkDataTCP sends: the port readings. */
  datatype Snapshot = Snapshot(values: seq<Reading>)

  function SnapshotOf(ports: seq<PortInfo>): Snapshot
  {
    Snapshot(seq(|ports|, i requires 0 <= i < |ports| => ports[i].value))
  }

  // ---------------------------------------------------------------------------
  // The polling interval

  /** The update after a send: a suggestion strictly above 0 replaces the interval,
      whether or not the send itself succeeded. */
  function Adopt(interval: real, suggestion: real): (r: real)
    ensures interval > 0.0 ==> r > 0.0
    ensures r == interval || (r == suggestion && suggestion > 0.0)
    ensures suggestion > 0.0 ==> r == suggestion
  {
    if suggestion != NoSuggestion && suggestion > 0.0 then suggestion else interval
  }

  // ---------------------------------------------------------------------------
  // The retry budget

  /** OfflineMode and wifi_tries. */
  datatype Budget = Budget(offline: bool, tries: int)

  /** One reconnect step of a cycle: nothing happens while offline or while the link is
      up; otherwise a failed connect spends one try, going offline when none is left,
      and a successful one restores the full budget. */
  function AfterReconnect(b: Budget, linkUp: bool, connectOk: bool, maxTries: int): (r: Budget)
    ensures b.offline || linkUp ==> r == b
    ensures r.offline <==> b.offline || (!linkUp && !connectOk && b.tries <= 1)
    ensures !b.offline && !linkUp && connectOk ==> r == Budget(false, maxTries)
    ensures !b.offline && !linkUp && !connectOk ==> r.tries == b.tries - 1
  {
    if b.offline || linkUp then b
    else if connectOk then b.(tries := maxTries)
    else
      var t := b.tries - 1;
      Budget(b.offline || t <= 0, t)
  }

  /** The answers of checkESPWiFiConnection and connectESPWiFi in one cycle. */
  datatype Attempt = Attempt(linkUp: bool, connectOk: bool)

  /** The budget after a run of cycles. */
  function ReconnectRun(b: Budget, attempts: seq<Attempt>, maxTries: int): Budget
  {
    if attempts == [] then b
    else
      var a := attempts[|attempts| - 1];
      AfterReconnect(ReconnectRun(b, attempts[..|attempts| - 1], maxTries), a.linkUp, a.connectOk, maxTries)
  }

  /** OfflineMode only moves one way: once offline, no run of cycles changes the budget. */
  lemma {:induction false} OfflineIsSticky(b: Budget, attempts: seq<Attempt>, maxTries: int)
    requires b.offline
    ensures ReconnectRun(b, attempts, maxTries) == b
  {
    if attempts != [] {
      OfflineIsSticky(b, attempts[..|attempts| - 1], maxTries);
    }
  }

  /** Going offline is final even from an online budget: once some prefix of a run went
      offline, the whole run ends offline. */
  lemma {:induction false} OfflinePrefixStaysOffline(b: Budget, attempts: seq<Attempt>, k: nat, maxTries: int)
    requires k <= |attempts|
    requires ReconnectRun(b, attempts[..k], maxTries).offline
    ensures ReconnectRun(b, attempts, maxTries).offline
  {
    if k < |attempts| {
      var init := attempts[..|attempts| - 1];
      assert init[..k] == attempts[..k];
      OfflinePrefixStaysOffline(b, init, k, maxTries);
    } else {
      assert attempts[..k] == attempts;
    }
  }

  /** k failed reconnects in a row, from an online budget of t >= k tries, leave t - k
      tries, and go offline exactly at the t-th. */
  lemma {:induction false} FailuresSpendBudget(t: int, k: nat, maxTries: int)
    requires k <= t
    ensures ReconnectRun(Budget(false, t), seq(k, _ => Attempt(false, false)), maxTries)
            == Budget(k > 0 && k == t, t - k)
  {
    var fails := seq(k, _ => Attempt(false, false));
    if k > 0 {
      assert fails[..k - 1] == seq(k - 1, _ => Attempt(false, false));
      FailuresSpendBudget(t, k - 1, maxTries);
    }
  }

  // ---------------------------------------------------------------------------
  // Draining the backlog

  /** One pass of the drain loop: whether PollingTimer still reads at most
      PollingInterval, and the outcome of sendBackupDataTCP. */
  datatype SendOutcome = SendOutcome(ok: bool, suggestion: real)
  datatype DrainStep = DrainStep(inTime: bool, send: SendOutcome)

  /** How many stored snapshots the drain loop delivers from a backlog of `pending`:
      the longest run of in-time, successful sends, stopped by an empty backlog, an
      expired timer or the first failure. Timer answers past the end of `steps` read
      as expired. */
  function DrainCount(steps: seq<DrainStep>, pending: nat): (n: nat)
    ensures n <= |steps| && n <= pending
  {
    if pending == 0 || steps == [] || !steps[0].inTime || !steps[0].send.ok then 0
    else 1 + DrainCount(steps[1..], pending - 1)
  }

  /** The drain delivers the longest run of in-time, successful sends that the backlog
      allows: every send before the n-th was in time and succeeded, and the loop stopped
      at the n-th because the backlog was empty, the steps ran out, the timer had
      expired or that send failed. */
  lemma {:induction false} DrainCountIsLongestRun(steps: seq<DrainStep>, pending: nat)
    ensures var n := DrainCount(steps, pending);
      && (forall k :: 0 <= k < n ==> steps[k].inTime && steps[k].send.ok)
      && (n == pending || n == |steps| || !steps[n].inTime || !steps[n].send.ok)
  {
    if !(pending == 0 || steps == [] || !steps[0].inTime || !steps[0].send.ok) {
      DrainCountIsLongestRun(steps[1..], pending - 1);
      assert forall k :: 0 < k < |steps| ==> steps[k] == steps[1..][k - 1];
    }
  }

  /** PollingInterval after the drain loop: each attempted send, the failing one
      included, may replace it. */
  function IntervalAfterDrain(interval: real, steps: seq<DrainStep>, pending: nat): (r: real)
    ensures interval > 0.0 ==> r > 0.0
    decreases |steps|
  {
    if pending == 0 || steps == [] || !steps[0].inTime then interval
    else
      var next := Adopt(interval, steps[0].send.suggestion);
      if !steps[0].send.ok then next
      else IntervalAfterDrain(next, steps[1..], pending - 1)
  }

  /** After the drain the interval is the one before it or a positive suggestion the
      server made during it. */
  lemma {:induction false} IntervalAfterDrainIsSuggested(interval: real, steps: seq<DrainStep>, pending: nat)
    ensures var r := IntervalAfterDrain(interval, steps, pending);
      r == interval
      || exists k :: 0 <= k < |steps| && r == steps[k].send.suggestion && r > 0.0
           && (|| k < DrainCount(steps, pending)
               || (k == DrainCount(steps, pending) && k < pending && steps[k].inTime && !steps[k].send.ok))
    decreases |steps|
  {
    if !(pending == 0 || steps == [] || !steps[0].inTime) && steps[0].send.ok {
      var next := Adopt(interval, steps[0].send.suggestion);
      IntervalAfterDrainIsSuggested(next, steps[1..], pending - 1);
      assert forall k :: 0 <= k < |steps[1..]| ==> steps[1..][k] == steps[k + 1];
    }
  }

  /** One attempted send of the drain loop: a success delivers one entry and the loop
      goes on; a failure ends it. */
  lemma DrainStepUnfolds(steps: seq<DrainStep>, pending: nat, interval: real)
    requires steps != [] && steps[0].inTime && pending > 0
    ensures steps[0].send.ok ==>
      && DrainCount(steps, pending) == 1 + DrainCount(steps[1..], pending - 1)
      && IntervalAfterDrain(interval, steps, pending)
         == IntervalAfterDrain(Adopt(interval, steps[0].send.suggestion), steps[1..], pending - 1)
    ensures !steps[0].send.ok ==>
      && DrainCount(steps, pending) == 0
      && IntervalAfterDrain(interval, steps, pending) == Adopt(interval, steps[0].send.suggestion)
  {}

  /** The drain loop stops without sending when the timer has expired or the backlog
      is empty. */
  lemma DrainStopUnfolds(steps: seq<DrainStep>, pending: nat, interval: real)
    requires steps == [] || !steps[0].inTime || pending == 0
    ensures DrainCount(steps, pending) == 0
    ensures IntervalAfterDrain(interval, steps, pending) == interval
  {}

  /** The answers of the network in one cycle: the link check before reconnecting, the
      reconnect, the link check before sending, the drain loop and the live send. */
  datatype CycleEvents = CycleEvents(linkUp: bool, connectOk: bool, linkUpAfter: bool,
                                     drain: seq<DrainStep>, live: SendOutcome)

  // ---------------------------------------------------------------------------
  // The logger

  class DataLogger {
    /** WIFITRIES: the full retry budget. */
    const maxTries: int
    var offlineMode: bool
    var wifiTries: int
    var pollingInterval: real
    var ports: seq<PortInfo>
    /** The backup file's entries, oldest first. */
    var backlog: seq<Snapshot>
    /** What the database has received, in order. */
    ghost var delivered: seq<Snapshot>

    ghost predicate Valid()
      reads this
    {
      pollingInterval > 0.0 && wifiTries <= maxTries
    }

    /** The startup of main: the offline checks in the source's order, then, when still
        online, one connect attempt whose failure only spends a try. `stored` is what
        the backup file holds from earlier runs. */
    constructor Start(specs: BoardSpecs, stored: seq<Snapshot>, wifiTriesMax: int,
                      espStarted: bool, linkUp: bool, connectOk: bool)
      ensures Valid()
      ensures maxTries == wifiTriesMax
      ensures offlineMode == StartsOffline(specs, espStarted)
      ensures wifiTries == if !offlineMode && !linkUp && !connectOk then maxTries - 1 else maxTries
      ensures pollingInterval == InitialPollingInterval
      ensures ports == specs.ports && backlog == stored && delivered == []
    {
      var offline := false;
      if !espStarted {
        offline := true;
      }
      if specs.databaseTableName == "" || specs.databaseTableName == " " {
        offline := true;
      }
      if specs.remoteDir == " " || specs.remoteDir == "" {
        offline := true;
      }
      if specs.remoteIP == " " || specs.remoteIP == "" {
        offline := true;
      }
      if specs.remotePort == 0 {
        offline := true;
      }
      if specs.hostName == "" || specs.hostName == " " {
        offline := true;
      }
      var tries := wifiTriesMax;
      if !offline {
        var connected := linkUp || connectOk;
        if !connected {
          tries := tries - 1;
        }
      }
      maxTries := wifiTriesMax;
      offlineMode := offline;
      wifiTries := tries;
      pollingInterval := InitialPollingInterval;
      ports := specs.ports;
      backlog := stored;
      delivered := [];
    }

    /** The sampling loop: every port with a non-zero multiplier takes the clamped value
        of its raw reading. */
    method SamplePorts(raw: seq<real>)
      requires |raw| == |ports|
      modifies this
      ensures |ports| == |old(ports)|
      ensures forall i :: 0 <= i < |ports| ==> ports[i] == SampledPort(old(ports)[i], raw[i])
      ensures offlineMode == old(offlineMode) && wifiTries == old(wifiTries)
      ensures pollingInterval == old(pollingInterval)
      ensures backlog == old(backlog) && delivered == old(delivered)
    {
      var i := 0;
      while i < |ports|
        invariant 0 <= i <= |ports| == |old(ports)|
        invariant forall j :: 0 <= j < i ==> ports[j] == SampledPort(old(ports)[j], raw[j])
        invariant forall j :: i <= j < |ports| ==> ports[j] == old(ports)[j]
        invariant offlineMode == old(offlineMode) && wifiTries == old(wifiTries)
        invariant pollingInterval == old(pollingInterval)
        invariant backlog == old(backlog) && delivered == old(delivered)
      {
        var p := ports[i];
        if p.multiplier != 0.0 {
          var v := raw[i] * p.multiplier;
          var reading := Sample(v);
          if v > p.rangeCeiling {
            reading := AboveRange;
          } else if v < p.rangeFloor {
            reading := BelowRange;
          }
          ports := ports[i := p.(value := reading)];
        }
        i := i + 1;
      }
    }

    /** The reconnect step of an online cycle. */
    method Reconnect(linkUp: bool, connectOk: bool)
      requires Valid() && !offlineMode
      modifies this
      ensures Valid()
      ensures Budget(offlineMode, wifiTries)
              == AfterReconnect(Budget(old(offlineMode), old(wifiTries)), linkUp, connectOk, maxTries)
      ensures pollingInterval == old(pollingInterval) && ports == old(ports)
      ensures backlog == old(backlog) && delivered == old(delivered)
    {
      if !linkUp {
        if !connectOk {
          wifiTries := wifiTries - 1;
          if wifiTries <= 0 {
            offlineMode := true;
          }
        } else {
          wifiTries := maxTries;
        }
      }
    }

    /** The drain loop: while the timer allows and the backlog is not empty, send its
        oldest entry, adopt the server's suggestion, and delete the entry only when the
        send succeeded; the first failure ends the loop with that entry still first. */
    method DrainBacklog(steps: seq<DrainStep>)
      requires Valid()
      modifies this
      ensures Valid()
      ensures var n := DrainCount(steps, |old(backlog)|);
        && backlog == old(backlog)[n..]
        && delivered == old(delivered) + old(backlog)[..n]
      ensures pollingInterval == IntervalAfterDrain(old(pollingInterval), steps, |old(backlog)|)
      ensures offlineMode == old(offlineMode) && wifiTries == old(wifiTries) && ports == old(ports)
    {
      ghost var b0, iv0, d0 := backlog, pollingInterval, delivered;
      var queue, interval := backlog, pollingInterval;
      ghost var sent := delivered;
      var i := 0;
      while i < |steps| && steps[i].inTime && queue != []
        invariant 0 <= i <= |steps| && i <= |b0|
        invariant DrainCount(steps, |b0|) == i + DrainCount(steps[i..], |queue|)
        invariant IntervalAfterDrain(iv0, steps, |b0|) == IntervalAfterDrain(interval, steps[i..], |queue|)
        invariant queue == b0[i..]
        invariant sent == d0 + b0[..i]
        invariant interval > 0.0
        modifies {}
        decreases |queue|
      {
        var outcome := steps[i].send;
        DrainStepUnfolds(steps[i..], |queue|, interval);
        interval := Adopt(interval, outcome.suggestion);
        if !outcome.ok {
          break;
        }
        assert steps[i..][1..] == steps[i + 1..];
        sent := sent + [queue[0]];
        queue := queue[1..];
        assert b0[..i + 1] == b0[..i] + [b0[i]];
        i := i + 1;
      }
      if i == |steps| || !steps[i].inTime || queue == [] {
        DrainStopUnfolds(steps[i..], |queue|, interval);
      }
      backlog, pollingInterval := queue, interval;
      delivered := sent;
    }

    /** After the drain: with an empty backlog the live snapshot is sent, and kept in
        the backlog when that send fails; with a backlog left it is stored behind it. */
    method DeliverLive(snap: Snapshot, live: SendOutcome)
      requires Valid()
      modifies this
      ensures Valid()
      ensures old(backlog) == [] ==>
        && pollingInterval == Adopt(old(pollingInterval), live.suggestion)
        && (if live.ok then backlog == [] && delivered == old(delivered) + [snap]
            else backlog == [snap] && delivered == old(delivered))
      ensures old(backlog) != [] ==>
        && pollingInterval == old(pollingInterval)
        && backlog == old(backlog) + [snap] && delivered == old(delivered)
      ensures offlineMode == old(offlineMode) && wifiTries == old(wifiTries) && ports == old(ports)
    {
      if backlog == [] {
        pollingInterval := Adopt(pollingInterval, live.suggestion);
        if !live.ok {
          backlog := backlog + [snap];
        } else {
          delivered := delivered + [snap];
        }
      } else {
        backlog := backlog + [snap];
      }
    }

    /** One pass of the main loop: sample the ports, then, when online, reconnect if
        needed and, if the link is up, drain the backlog and deliver the snapshot;
        otherwise store the snapshot. Nothing is lost and order is kept: what the
        database received followed by the backlog grows by exactly this cycle's
        snapshot, at the end. */
    method Cycle(raw: seq<real>, ev: CycleEvents)
      requires Valid() && |raw| == |ports|
      modifies this
      ensures Valid()
      ensures |ports| == |old(ports)|
      ensures forall i :: 0 <= i < |ports| ==> ports[i] == SampledPort(old(ports)[i], raw[i])
      ensures delivered + backlog == old(delivered) + old(backlog) + [SnapshotOf(ports)]
      ensures old(offlineMode) ==> offlineMode
      ensures old(offlineMode) ==>
        && backlog == old(backlog) + [SnapshotOf(ports)] && delivered == old(delivered)
        && wifiTries == old(wifiTries) && pollingInterval == old(pollingInterval)
      ensures !old(offlineMode) ==>
        Budget(offlineMode, wifiTries)
        == AfterReconnect(Budget(false, old(wifiTries)), ev.linkUp, ev.connectOk, maxTries)
      ensures backlog == [] <==> delivered == old(delivered) + old(backlog) + [SnapshotOf(ports)]
      ensures delivered != old(delivered) ==> !old(offlineMode) && ev.linkUpAfter
      ensures !old(offlineMode) && !ev.linkUpAfter ==>
        pollingInterval == old(pollingInterval) && delivered == old(delivered)
      ensures !old(offlineMode) && ev.linkUpAfter ==>
        var n := DrainCount(ev.drain, |old(backlog)|);
        var iv := IntervalAfterDrain(old(pollingInterval), ev.drain, |old(backlog)|);
        && delivered == old(delivered) + old(backlog)[..n]
           + (if n == |old(backlog)| && ev.live.ok then [SnapshotOf(ports)] else [])
        && pollingInterval == (if n == |old(backlog)| then Adopt(iv, ev.live.suggestion) else iv)
    {
      SamplePorts(raw);
      var snap := SnapshotOf(ports);
      if !offlineMode {
        Reconnect(ev.linkUp, ev.connectOk);
        if ev.linkUpAfter {
          DrainBacklog(ev.drain);
          DeliverLive(snap, ev.live);
        } else {
          backlog := backlog + [snap];
        }
      } else {
        backlog := backlog + [snap];
      }
    }
  }
}
