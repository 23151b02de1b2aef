/** The InfluxDB pusher's control logic: the start gate, the data
    collection with its failure paths, the write counters, and the
    fixed-deadline schedule of the collection loop, which advances the
    deadline by one interval per cycle and, when it falls behind, restarts
    it one interval after the current time. The database, the controller's
    update, clock readings and exceptions are parameters. */
module Pusher {
  import opened Common
  import opened Controller
  import opened Telemetry

  /** The deadline after one cycle and the time to sleep: the deadline
      moves on by one interval; if that is still ahead of `now` the loop
      sleeps until it, otherwise it does not sleep and the deadline is
      reset to one interval after `now`. */
  function NextDeadline(deadline: real, interval: real, now: real): (r: (real, real))
    ensures deadline + interval > now ==> r == (deadline + interval, deadline + interval - now)
    ensures deadline + interval <= now ==> r == (now + interval, 0.0)
  {
    var next := deadline + interval;
    var sleepTime := next - now;
    if sleepTime > 0.0 then (next, sleepTime) else (now + interval, 0.0)
  }

  /** With a positive interval every cycle pushes the deadline strictly
      forward and past the current time, and the loop never sleeps beyond
      the new deadline. */
  lemma DeadlineAdvances(deadline: real, interval: real, now: real)
    requires interval > 0.0
    ensures var r := NextDeadline(deadline, interval, now);
      && r.0 > deadline && r.0 > now
      && 0.0 <= r.1 && now + r.1 <= r.0
  {
  }

  /** The deadlines after each cycle whose clock readings are `nows`. */
  function Schedule(d0: real, interval: real, nows: seq<real>): (ds: seq<real>)
    ensures |ds| == |nows|
    decreases |nows|
  {
    if |nows| == 0 then []
    else
      var prev := Schedule(d0, interval, nows[..|nows| - 1]);
      var d := if |prev| == 0 then d0 else prev[|prev| - 1];
      prev + [NextDeadline(d, interval, nows[|nows| - 1]).0]
  }

  /** The schedule of deadlines is strictly increasing and starts after
      the initial deadline. */
  lemma {:induction false} ScheduleIncreasing(d0: real, interval: real, nows: seq<real>)
    requires interval > 0.0
    ensures forall i :: 0 <= i < |nows| ==> d0 < Schedule(d0, interval, nows)[i]
    ensures forall i, j :: 0 <= i < j < |nows| ==> Schedule(d0, interval, nows)[i] < Schedule(d0, interval, nows)[j]
    decreases |nows|
  {
    if |nows| > 0 {
      var p := nows[..|nows| - 1];
      ScheduleIncreasing(d0, interval, p);
      var prev := Schedule(d0, interval, p);
      var d := if |prev| == 0 then d0 else prev[|prev| - 1];
      DeadlineAdvances(d, interval, nows[|nows| - 1]);
      var ds := Schedule(d0, interval, nows);
      assert ds == prev + [NextDeadline(d, interval, nows[|nows| - 1]).0];
      assert forall i :: 0 <= i < |prev| ==> prev[i] <= d;
    }
  }

  /** A loop that never falls behind keeps its deadlines on the grid
      `d0 + k * interval`. */
  predicate OnTime(d0: real, interval: real, nows: seq<real>)
  {
    forall k :: 0 <= k < |nows| ==> nows[k] < d0 + (k + 1) as real * interval
  }

  lemma {:induction false} ScheduleOnGrid(d0: real, interval: real, nows: seq<real>)
    requires OnTime(d0, interval, nows)
    ensures forall k :: 0 <= k < |nows| ==> Schedule(d0, interval, nows)[k] == d0 + (k + 1) as real * interval
    decreases |nows|
  {
    if |nows| > 0 {
      var n := |nows| - 1;
      var p := nows[..n];
      assert OnTime(d0, interval, p);
      ScheduleOnGrid(d0, interval, p);
      var prev := Schedule(d0, interval, p);
      var d := if |prev| == 0 then d0 else prev[|prev| - 1];
      if n > 0 {
        assert prev[n - 1] == d0 + ((n - 1) + 1) as real * interval;
      }
      assert d == d0 + n as real * interval;
      assert (n + 1) as real * interval == n as real * interval + interval;
      assert nows[n] < d + interval;
      var ds := Schedule(d0, interval, nows);
      assert ds == prev + [d + interval];
    }
  }

  /** The measurements `collect_data` hands over: the time of collection
      and the controller's records it copies fields from. */
  datatype Measurements = Measurements(timestamp: real, state: ControllerState)

  /** What one cycle of the collection loop did. */
  datatype CycleReport = CycleReport(collected: bool, written: bool, progressLogged: bool,
                                     raised: bool, sleepTime: real)

  class InfluxDBPusher {
    const sampleRate: real
    const sampleInterval: real
    const progressInterval: int
    var running: bool
    var errorCount: nat
    var startTime: Option<real>
    var totalSamples: nat
    var totalWrites: nat
    var lastWriteTime: real
    var writeErrors: nat
    var nextSampleTime: real

    constructor(sampleRate: real, progressInterval: int)
      requires sampleRate != 0.0
      ensures this.sampleRate == sampleRate && sampleInterval == 1.0 / sampleRate
      ensures this.progressInterval == progressInterval
      ensures !running && errorCount == 0 && startTime == None
      ensures totalSamples == 0 && totalWrites == 0 && lastWriteTime == 0.0 && writeErrors == 0
    {
      this.sampleRate := sampleRate;
      sampleInterval := 1.0 / sampleRate;
      this.progressInterval := progressInterval;
      running := false;
      errorCount := 0;
      startTime := None;
      totalSamples := 0;
      totalWrites := 0;
      lastWriteTime := 0.0;
      writeErrors := 0;
      nextSampleTime := 0.0;
    }

    /** `start`: the service runs only once the controller connected and
        the database reports "pass". */
    method Start(connected: bool, healthStatus: string, now: real) returns (ok: bool)
      modifies this`running, this`startTime
      ensures ok <==> connected && healthStatus == "pass"
      ensures ok ==> running && startTime == Some(now)
      ensures !ok ==> running == old(running) && startTime == old(startTime)
    {
      if !connected {
        return false;
      }
      if healthStatus != "pass" {
        return false;
      }
      running := true;
      startTime := Some(now);
      return true;
    }

    method Stop()
      modifies this`running
      ensures !running
    {
      running := false;
    }

    /** `collect_data`: None when the update fails or raises, and only the
        exception counts as an error; the state dictionary is never empty. */
    method CollectData(update: UpdateResult, state: ControllerState, now: real)
      returns (data: Option<Measurements>)
      modifies this`errorCount
      ensures update == Raised ==> data.None? && errorCount == old(errorCount) + 1
      ensures update == Updated(false) ==> data.None? && errorCount == old(errorCount)
      ensures update == Updated(true) ==> data == Some(Measurements(now, state)) && errorCount == old(errorCount)
    {
      if update == Raised {
        errorCount := errorCount + 1;
        return None;
      }
      if !update.ok {
        return None;
      }
      return Some(Measurements(now, state));
    }

    /** `write_to_influxdb`: a write counts as done unless the client
        raised, which counts as a write error. */
    method WriteToInfluxdb(data: Measurements, writeRaises: bool, now: real) returns (ok: bool)
      modifies this`totalWrites, this`lastWriteTime, this`writeErrors
      ensures ok == !writeRaises
      ensures ok ==> totalWrites == old(totalWrites) + 1 && lastWriteTime == now
                     && writeErrors == old(writeErrors)
      ensures !ok ==> writeErrors == old(writeErrors) + 1 && totalWrites == old(totalWrites)
                      && lastWriteTime == old(lastWriteTime)
    {
      if writeRaises {
        writeErrors := writeErrors + 1;
        return false;
      }
      totalWrites := totalWrites + 1;
      lastWriteTime := now;
      return true;
    }

    /** The loop's first deadline is the time it starts. */
    method BeginCollectionLoop(now: real)
      modifies this`nextSampleTime
      ensures nextSampleTime == now
    {
      nextSampleTime := now;
    }

    /** One pass of `run_collection_loop`: collect, write, count the sample
        and log progress every `progressInterval` samples, then move the
        deadline. An exception inside the pass (a zero progress interval,
        a zero elapsed time, no start time) counts as an error, skips the
        deadline step and pauses for 0.1 s. */
    method CollectionCycle(update: UpdateResult, state: ControllerState, writeRaises: bool,
                           tCollect: real, tWrite: real, tLog: real, now: real)
      returns (report: CycleReport)
      modifies this`errorCount, this`totalWrites, this`lastWriteTime, this`writeErrors,
               this`totalSamples, this`nextSampleTime
      ensures report.collected <==> update == Updated(true)
      ensures report.written <==> report.collected && !writeRaises
      ensures totalSamples == old(totalSamples) + (if report.written then 1 else 0)
      ensures report.progressLogged ==>
        report.written && progressInterval != 0 && totalSamples % progressInterval == 0
      ensures (report.written && progressInterval != 0 && totalSamples % progressInterval == 0
               && startTime.Some? && tLog - startTime.value != 0.0) ==> report.progressLogged
      ensures !report.raised ==>
        (nextSampleTime, report.sleepTime) == NextDeadline(old(nextSampleTime), sampleInterval, now)
      ensures report.raised ==> nextSampleTime == old(nextSampleTime) && report.sleepTime == 0.1
      ensures report.raised <==>
        report.written && (progressInterval == 0
          || (totalSamples % progressInterval == 0 && (startTime.None? || tLog - startTime.value == 0.0)))
      ensures errorCount == old(errorCount) + (if update == Raised then 1 else 0) + (if report.raised then 1 else 0)
      ensures totalWrites == old(totalWrites) + (if report.written then 1 else 0)
      ensures writeErrors == old(writeErrors) + (if report.collected && writeRaises then 1 else 0)
      ensures report.written ==> lastWriteTime == tWrite
      ensures !report.written ==> lastWriteTime == old(lastWriteTime)
    {
      var data := CollectData(update, state, tCollect);
      var raised := false;
      var logged := false;
      var written := false;
      if data.Some? {
        written := WriteToInfluxdb(data.value, writeRaises, tWrite);
        if written {
          totalSamples := totalSamples + 1;
          if progressInterval == 0 {
            raised := true;
          } else if totalSamples % progressInterval == 0 {
            if startTime.None? || tLog - startTime.value == 0.0 {
              raised := true;
            } else {
              logged := true;
            }
          }
        }
      }
      if raised {
        errorCount := errorCount + 1;
        return CycleReport(data.Some?, written, false, true, 0.1);
      }
      var r := NextDeadline(nextSampleTime, sampleInterval, now);
      nextSampleTime := r.0;
      report := CycleReport(data.Some?, written, logged, false, r.1);
    }
  }
}
