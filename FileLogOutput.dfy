/**
 * The background log writer: producers enqueue records in the waiting queue;
 * the worker swaps the two queues when its writing queue is empty and then
 * drains the writing queue in order, one formatted block per record. Each
 * step is modelled as one atomic operation.
 */
module FileLogOutputs {

  /** Unity's `LogType`, in its declaration order. */
  datatype LogType = Error | Assert | Warning | Log | Exception

  /** `LogOutputLevel`. */
  datatype LogOutputLevel = LOG | WARNING | ASSERT | ERROR | MAX

  /** The numeric value of each level. */
  function LevelCode(level: LogOutputLevel): (code: int)
    ensures 0 <= code <= 4
    ensures code == 4 <==> level == MAX
  {
    match level
    case LOG => 0
    case WARNING => 1
    case ASSERT => 2
    case ERROR => 3
    case MAX => 4
  }

  /** `s_LogTypeLevelDict`: the level of each log type. */
  function LevelOf(t: LogType): (level: LogOutputLevel)
    ensures level != MAX
    ensures level == ERROR <==> t == Error || t == Exception
    ensures level == LOG <==> t == Log
    ensures level == WARNING <==> t == Warning
    ensures level == ASSERT <==> t == Assert
  {
    match t
    case Log => LOG
    case Warning => WARNING
    case Assert => ASSERT
    case Error => ERROR
    case Exception => ERROR
  }

  /** `LogOutputData`: message, stack trace and type of one record. */
  datatype LogOutputData = LogOutputData(log: string, track: string, logType: LogType)

  /** A line of `n` dashes. */
  function Dashes(n: nat): (s: string)
    ensures |s| == n && forall i :: 0 <= i < n ==> s[i] == '-'
  {
    if n == 0 then "" else Dashes(n - 1) + "-"
  }

  /** The line of 117 dashes written around error blocks. */
  const Separator: string := Dashes(117)

  /** Only errors and exceptions are written with their stack trace. */
  predicate HasStackTrace(t: LogType) {
    t == Error || t == Exception
  }

  /** The lines written for one record read at time `timestamp`. */
  function FormatRecord(timestamp: string, d: LogOutputData): (lines: seq<string>)
    ensures HasStackTrace(d.logType) ==>
      && |lines| == 4 && lines[0] == lines[3] == Separator
      && lines[1] == timestamp + "\t" + d.log + "\n" && lines[2] == d.track
    ensures !HasStackTrace(d.logType) ==> lines == [timestamp + "\t" + d.log]
  {
    if HasStackTrace(d.logType) then [Separator, timestamp + "\t" + d.log + "\n", d.track, Separator]
    else [timestamp + "\t" + d.log]
  }

  /** Number of lines a sequence of records takes: four per error or exception, one otherwise. */
  function LineCount(records: seq<LogOutputData>): nat {
    if records == [] then 0
    else (if HasStackTrace(records[0].logType) then 4 else 1) + LineCount(records[1..])
  }

  /** The lines written for `records`, the k-th read at time `timestamps[k]`. */
  function FormatAll(timestamps: seq<string>, records: seq<LogOutputData>): (lines: seq<string>)
    requires |timestamps| == |records|
    ensures |lines| == LineCount(records)
  {
    if records == [] then []
    else FormatRecord(timestamps[0], records[0]) + FormatAll(timestamps[1..], records[1..])
  }

  /** Formatting distributes over concatenation: each record's lines stay together and in order. */
  lemma {:induction false} FormatAllAppend(t1: seq<string>, r1: seq<LogOutputData>, t2: seq<string>, r2: seq<LogOutputData>)
    requires |t1| == |r1| && |t2| == |r2|
    ensures FormatAll(t1 + t2, r1 + r2) == FormatAll(t1, r1) + FormatAll(t2, r2)
    decreases |r1|
  {
    if r1 == [] {
      assert t1 + t2 == t2 && r1 + r2 == r2;
    } else {
      assert (t1 + t2)[1..] == t1[1..] + t2;
      assert (r1 + r2)[1..] == r1[1..] + r2;
      FormatAllAppend(t1[1..], r1[1..], t2, r2);
    }
  }

  /** A log, an error and a warning give one line, a four-line block, then one line. */
  lemma LogErrorWarning(t: seq<string>, a: string, b: string, trace: string, c: string)
    requires |t| == 3
    ensures FormatAll(t, [LogOutputData(a, "", Log), LogOutputData(b, trace, Error), LogOutputData(c, "", Warning)])
      == [t[0] + "\t" + a, Separator, t[1] + "\t" + b + "\n", trace, Separator, t[2] + "\t" + c]
  {
    var rs := [LogOutputData(a, "", Log), LogOutputData(b, trace, Error), LogOutputData(c, "", Warning)];
    assert FormatAll(t[2..], rs[2..]) == FormatRecord(t[2], rs[2]) + FormatAll(t[3..], rs[3..]);
    assert FormatAll(t[1..], rs[1..]) == FormatRecord(t[1], rs[1]) + FormatAll(t[2..], rs[2..]);
    assert FormatAll(t, rs) == FormatRecord(t[0], rs[0]) + FormatAll(t[1..], rs[1..]);
  }

  /** What one pass of the worker loop did. */
  datatype WorkerStep = Stopped | Blocked | Swapped | Drained

  class FileLogOutput {
    var writing: seq<LogOutputData>
    var waiting: seq<LogOutputData>
    var isRunning: bool
    /** The lines handed to the log file's writer, in order. */
    var written: seq<string>
    /** Every record passed to `Log`, in call order. */
    ghost var logged: seq<LogOutputData>
    /** The records already dequeued by the worker, and the time read for each. */
    ghost var drained: seq<LogOutputData>
    ghost var stamps: seq<string>

    /**
     * No record is lost, duplicated or reordered: what was drained, then the
     * writing queue, then the waiting queue, is exactly what was logged; and
     * the file holds the drained records, formatted, in that order.
     */
    ghost predicate Valid()
      reads this
    {
      && drained + writing + waiting == logged
      && |stamps| == |drained|
      && written == FormatAll(stamps, drained)
    }

    /** The constructor: both queues empty, running (the log file is opened empty). */
    constructor ()
      ensures Valid()
      ensures writing == [] && waiting == [] && isRunning && written == [] && logged == []
    {
      writing := [];
      waiting := [];
      isRunning := true;
      written := [];
      logged := [];
      drained := [];
      stamps := [];
    }

    /** `Log`: appends the record to the waiting queue (whether or not the writer was closed). */
    method Log(logData: LogOutputData)
      requires Valid()
      modifies this
      ensures Valid()
      ensures waiting == old(waiting) + [logData] && logged == old(logged) + [logData]
      ensures writing == old(writing) && written == old(written) && isRunning == old(isRunning)
    {
      waiting := waiting + [logData];
      logged := logged + [logData];
    }

    /**
     * The locked block of `WriteLog`, entered with an empty writing queue:
     * with nothing waiting the worker blocks; otherwise the queues are swapped.
     */
    method SwapQueues() returns (swapped: bool)
      requires Valid() && writing == []
      modifies this
      ensures Valid()
      ensures swapped <==> old(waiting) != []
      ensures swapped ==> writing == old(waiting) && waiting == []
      ensures !swapped ==> unchanged(this)
      ensures logged == old(logged) && written == old(written) && isRunning == old(isRunning)
    {
      if waiting == [] {
        return false;
      }
      writing, waiting := waiting, writing;
      swapped := true;
    }

    /** The body of the draining loop: the lines of one record, stamped with the time just read. */
    method WriteRecord(timestamp: string, log: LogOutputData)
      modifies this
      ensures written == old(written) + FormatRecord(timestamp, log)
      ensures writing == old(writing) && waiting == old(waiting) && isRunning == old(isRunning)
      ensures logged == old(logged) && drained == old(drained) && stamps == old(stamps)
    {
      if log.logType == Error || log.logType == Exception {
        written := written + [Separator];
        written := written + [timestamp + "\t" + log.log + "\n"];
        written := written + [log.track];
        written := written + [Separator];
      } else {
        written := written + [timestamp + "\t" + log.log];
      }
    }

    /**
     * One turn of the draining loop: dequeues the front record of the writing
     * queue and writes its lines, stamped with `timestamp`.
     */
    method DrainOne(timestamp: string)
      requires writing != []
      requires drained + writing + waiting == logged && |stamps| == |drained|
      requires written == FormatAll(stamps, drained)
      modifies this
      ensures writing == old(writing)[1..] && drained == old(drained) + [old(writing)[0]]
      ensures stamps == old(stamps) + [timestamp]
      ensures waiting == old(waiting) && logged == old(logged) && isRunning == old(isRunning)
      ensures drained + writing + waiting == logged && |stamps| == |drained|
      ensures written == FormatAll(stamps, drained)
    {
      var log := writing[0];
      writing := writing[1..];
      WriteRecord(timestamp, log);
      assert FormatAll([timestamp], [log]) == FormatRecord(timestamp, log);
      FormatAllAppend(stamps, drained, [timestamp], [log]);
      drained := drained + [log];
      stamps := stamps + [timestamp];
    }

    /**
     * The draining loop of `WriteLog`: dequeues every record of the writing
     * queue, front first, and writes its lines; `now[k]` is the time read for
     * the k-th one.
     */
    method DrainWriting(now: seq<string>)
      requires Valid() && |now| == |writing|
      modifies this
      ensures Valid()
      ensures writing == [] && waiting == old(waiting) && logged == old(logged) && isRunning == old(isRunning)
      ensures drained == old(drained) + old(writing)
      ensures written == old(written) + FormatAll(now, old(writing))
    {
      var i := 0;
      while |writing| > 0
        invariant 0 <= i <= |now| && writing == old(writing)[i..]
        invariant drained == old(drained) + old(writing)[..i] && stamps == old(stamps) + now[..i]
        invariant waiting == old(waiting) && logged == old(logged) && isRunning == old(isRunning)
        invariant drained + writing + waiting == logged && |stamps| == |drained|
        invariant written == FormatAll(stamps, drained)
        decreases |writing|
      {
        DrainOne(now[i]);
        assert old(writing)[..i + 1] == old(writing)[..i] + [old(writing)[i]];
        assert now[..i + 1] == now[..i] + [now[i]];
        i := i + 1;
      }
      assert old(writing)[..i] == old(writing) && now[..i] == now;
      FormatAllAppend(old(stamps), old(drained), now, old(writing));
    }

    /**
     * One pass of the `WriteLog` loop: nothing once the writer is closed;
     * otherwise a swap when the writing queue is empty, a drain when it is not.
     */
    method WriteLogIteration(now: seq<string>) returns (step: WorkerStep)
      requires Valid() && |now| == |writing|
      modifies this
      ensures Valid()
      ensures logged == old(logged) && isRunning == old(isRunning)
      ensures !old(isRunning) ==> step == Stopped && unchanged(this)
      ensures old(isRunning) && old(writing) == [] && old(waiting) == [] ==> step == Blocked && unchanged(this)
      ensures old(isRunning) && old(writing) == [] && old(waiting) != [] ==>
        step == Swapped && writing == old(waiting) && waiting == [] && written == old(written)
      ensures old(isRunning) && old(writing) != [] ==>
        && step == Drained && writing == [] && waiting == old(waiting)
        && written == old(written) + FormatAll(now, old(writing))
    {
      if !isRunning {
        return Stopped;
      }
      if |writing| == 0 {
        var swapped := SwapQueues();
        step := if swapped then Swapped else Blocked;
      } else {
        DrainWriting(now);
        step := Drained;
      }
    }

    /** `Close`: stops the worker loop (closing the file itself is not modelled). */
    method Close()
      requires Valid()
      modifies this
      ensures Valid()
      ensures !isRunning
      ensures writing == old(writing) && waiting == old(waiting) && written == old(written) && logged == old(logged)
    {
      isRunning := false;
    }
  }
}
