/**
 * The recorder: a table from process name to (focused seconds, productive flag), loaded
 * from the share directory's data file, credited on every focus change, and written back
 * as a snapshot at most once per `write_delay` seconds.
 */
module Recorder {
  import opened Wrappers
  import opened Client

  /** One row of the data file, and one credit handed to `add_data`. */
  datatype Data = Data(name: string, time: nat, isProd: bool)

  /** The in-memory table: name to (accumulated seconds, productive flag). */
  type Times = map<string, (nat, bool)>

  datatype RecorderError =
    | GetProcessError
    | PathDoesNotExistError(path: string)
    | CsvError
    | FileError
    | WriteThreadError
    | PidChannelError

  /** A process whose window has the focus, as the process-name lookup reports it. */
  datatype Process = Process(pid: int, name: string)

  /**
   * `add_data`: a known name gains the record's time and takes its flag; a new name enters
   * with the record's time and flag; every other entry stays as it was.
   */
  function AddRecord(times: Times, data: Data): (r: Times)
    ensures r.Keys == times.Keys + {data.name}
  {
    if data.name in times then
      times[data.name := (times[data.name].0 + data.time, data.isProd)]
    else
      times[data.name := (data.time, data.isProd)]
  }

  /** What `AddRecord` does to each entry of the table. */
  lemma AddRecordEntries(times: Times, data: Data)
    ensures var r := AddRecord(times, data);
            && (data.name in times ==> r[data.name] == (times[data.name].0 + data.time, data.isProd))
            && (data.name !in times ==> r[data.name] == (data.time, data.isProd))
            && (forall n :: n in times && n != data.name ==> r[n] == times[n])
            && (forall n :: n in times ==> r[n].0 >= times[n].0)
  {
  }

  /** The table after crediting `credits` in order, starting from `base`. */
  function Replay(base: Times, credits: seq<Data>): Times
    decreases |credits|
  {
    if credits == [] then base
    else AddRecord(Replay(base, credits[..|credits| - 1]), credits[|credits| - 1])
  }

  /** The seconds credited to `name` in `credits`. */
  function SumFor(credits: seq<Data>, name: string): nat
    decreases |credits|
  {
    if credits == [] then 0
    else SumFor(credits[..|credits| - 1], name)
         + if credits[|credits| - 1].name == name then credits[|credits| - 1].time else 0
  }

  /** `credits[i]` is the last credit for its name. */
  predicate LastCreditFor(credits: seq<Data>, i: int) {
    0 <= i < |credits| && forall j :: i < j < |credits| ==> credits[j].name != credits[i].name
  }

  /**
   * The table after any sequence of credits: its names are the base's and the credited ones;
   * each total is the base total plus everything credited to the name; each flag is that of
   * the name's last credit, or the base's when it has none.
   */
  lemma {:induction false} ReplayTotals(base: Times, credits: seq<Data>, name: string)
    ensures name in Replay(base, credits) <==>
              name in base || exists i :: 0 <= i < |credits| && credits[i].name == name
    ensures (forall i :: 0 <= i < |credits| ==> credits[i].name != name) ==> SumFor(credits, name) == 0
    ensures name in Replay(base, credits) ==>
              Replay(base, credits)[name].0 == (if name in base then base[name].0 else 0) + SumFor(credits, name)
    ensures name in base && (forall i :: 0 <= i < |credits| ==> credits[i].name != name) ==>
              Replay(base, credits)[name] == base[name]
    ensures forall i :: LastCreditFor(credits, i) && credits[i].name == name ==>
              Replay(base, credits)[name].1 == credits[i].isProd
    decreases |credits|
  {
    if credits != [] {
      var init := credits[..|credits| - 1];
      var last := credits[|credits| - 1];
      ReplayTotals(base, init, name);
      assert forall i :: 0 <= i < |init| ==> init[i] == credits[i];
      var m := Replay(base, init);
      assert Replay(base, credits) == AddRecord(m, last);
      if last.name == name && name !in m {
        assert SumFor(init, name) == 0;
      }
      forall i | LastCreditFor(credits, i) && credits[i].name == name
        ensures Replay(base, credits)[name].1 == credits[i].isProd
      {
        if i < |credits| - 1 {
          assert credits[|credits| - 1].name != name;
          assert LastCreditFor(init, i);
        }
      }
    }
  }

  /** A credit never lowers a total: every name's total only grows along the replay. */
  lemma {:induction false} ReplayGrows(base: Times, credits: seq<Data>, k: nat, name: string)
    requires k <= |credits| && name in Replay(base, credits[..k])
    ensures name in Replay(base, credits)
    ensures Replay(base, credits)[name].0 >= Replay(base, credits[..k])[name].0
    decreases |credits|
  {
    if k < |credits| {
      var init := credits[..|credits| - 1];
      assert init[..k] == credits[..k];
      ReplayGrows(base, init, k, name);
    } else {
      assert credits[..k] == credits;
    }
  }

  // ---------------------------------------------------------------------------------------
  // The data file

  /** One record of the data file: a row that deserialises as Data, or one that does not. */
  datatype Row = Row(data: Data) | Malformed

  /** The data file: its records after the header, or a file the reader cannot open. */
  datatype DataFile = DataFile(rows: seq<Row>) | Unreadable

  /** The share directory: its path, whether it is a directory, and its data file, if any. */
  datatype ShareDir = ShareDir(path: string, isDir: bool, dataFile: Option<DataFile>)

  /**
   * The table loaded from `rows`: each record enters with its time and with the flag
   * "the name is productive" (the stored flag is ignored); a later record replaces an
   * earlier one of the same name; the first malformed record is a CsvError.
   */
  function Load(rows: seq<Row>, productive: seq<string>): (r: Result<Times, RecorderError>)
    ensures r.Err? ==> r.error == CsvError
    decreases |rows|
  {
    if rows == [] then Ok(map[])
    else
      match Load(rows[..|rows| - 1], productive)
      case Err(e) => Err(e)
      case Ok(m) =>
        match rows[|rows| - 1]
        case Malformed => Err(CsvError)
        case Row(data) => Ok(m[data.name := (data.time, data.name in productive)])
  }

  /** The load fails exactly when some record is malformed. */
  lemma {:induction false} LoadFailsIff(rows: seq<Row>, productive: seq<string>)
    ensures Load(rows, productive).Err? <==> exists i :: 0 <= i < |rows| && rows[i].Malformed?
    decreases |rows|
  {
    if rows != [] {
      var init := rows[..|rows| - 1];
      LoadFailsIff(init, productive);
      assert forall i :: 0 <= i < |init| ==> init[i] == rows[i];
    }
  }

  /** `rows[i]` is a well-formed record and the last record of its name. */
  predicate LastRecordFor(rows: seq<Row>, i: int) {
    && 0 <= i < |rows| && rows[i].Row?
    && forall j :: i < j < |rows| && rows[j].Row? ==> rows[j].data.name != rows[i].data.name
  }

  /** A successful load holds exactly the names of the well-formed records. */
  lemma {:induction false} LoadKeys(rows: seq<Row>, productive: seq<string>, n: string)
    requires Load(rows, productive).Ok?
    ensures n in Load(rows, productive).value <==>
              exists i :: 0 <= i < |rows| && rows[i].Row? && rows[i].data.name == n
    decreases |rows|
  {
    if rows != [] {
      var init := rows[..|rows| - 1];
      LoadKeys(init, productive, n);
      assert forall i :: 0 <= i < |init| ==> init[i] == rows[i];
    }
  }

  /**
   * In a successful load each name carries the time of its last record and the flag
   * "the name is productive"; the stored flag plays no part.
   */
  lemma {:induction false} LoadLastWins(rows: seq<Row>, productive: seq<string>, i: nat)
    requires Load(rows, productive).Ok? && LastRecordFor(rows, i)
    ensures rows[i].data.name in Load(rows, productive).value
    ensures Load(rows, productive).value[rows[i].data.name]
            == (rows[i].data.time, rows[i].data.name in productive)
    decreases |rows|
  {
    var init := rows[..|rows| - 1];
    if i < |rows| - 1 {
      assert forall k :: 0 <= k < |init| ==> init[k] == rows[k];
      assert LastRecordFor(init, i);
      LoadLastWins(init, productive, i);
    }
  }

  /** The record loop of `parse_data`. */
  method LoadRows(rows: seq<Row>, productive: seq<string>) returns (r: Result<Times, RecorderError>)
    ensures r == Load(rows, productive)
  {
    var table: Times := map[];
    var i := 0;
    while i < |rows|
      invariant 0 <= i <= |rows|
      invariant Load(rows[..i], productive) == Ok(table)
    {
      assert rows[..i + 1][..i] == rows[..i];
      match rows[i] {
        case Malformed =>
          assert rows[..i + 1][i].Malformed?;
          LoadErrorPropagates(rows, i + 1, productive);
          return Err(CsvError);
        case Row(data) =>
          var prod := data.name in productive;
          table := table[data.name := (data.time, prod)];
      }
      i := i + 1;
    }
    assert rows[..i] == rows;
    return Ok(table);
  }

  /** Once the records read so far hold a malformed one, the whole load fails with CsvError. */
  lemma LoadErrorPropagates(rows: seq<Row>, k: nat, productive: seq<string>)
    requires k <= |rows| && Load(rows[..k], productive).Err?
    ensures Load(rows, productive) == Err(CsvError)
  {
    LoadFailsIff(rows[..k], productive);
    LoadFailsIff(rows, productive);
    var i :| 0 <= i < k && rows[..k][i].Malformed?;
    assert rows[i].Malformed?;
  }

  /** `create_data`: a header-only data file in a share path that is a directory. */
  function CreateData(dir: ShareDir): (r: (Result<(), RecorderError>, ShareDir))
    ensures dir.isDir ==> r.0 == Ok(()) && r.1 == dir.(dataFile := Some(DataFile([])))
    ensures !dir.isDir ==> r.0 == Err(PathDoesNotExistError(dir.path)) && r.1 == dir
  {
    if dir.isDir then (Ok(()), dir.(dataFile := Some(DataFile([]))))
    else (Err(PathDoesNotExistError(dir.path)), dir)
  }

  /**
   * `parse_data`: the loaded table when the data file exists; otherwise the file is created
   * and the table is empty.
   */
  method ParseData(dir: ShareDir, productive: seq<string>)
    returns (r: Result<Times, RecorderError>, after: ShareDir)
    ensures dir.dataFile == Some(Unreadable) ==> r == Err(CsvError) && after == dir
    ensures dir.dataFile.Some? && dir.dataFile.value.DataFile? ==>
              r == Load(dir.dataFile.value.rows, productive) && after == dir
    ensures dir.dataFile.None? && dir.isDir ==>
              r == Ok(map[]) && after == dir.(dataFile := Some(DataFile([])))
    ensures dir.dataFile.None? && !dir.isDir ==>
              r == Err(PathDoesNotExistError(dir.path)) && after == dir
    ensures r == ParseDataResult(dir, productive)
  {
    after := dir;
    match dir.dataFile {
      case Some(Unreadable) =>
        r := Err(CsvError);
      case Some(DataFile(rows)) =>
        r := LoadRows(rows, productive);
      case None =>
        var created;
        created, after := CreateData(dir).0, CreateData(dir).1;
        if created.Err? {
          r := Err(created.error);
        } else {
          r := Ok(map[]);
        }
    }
  }

  /** The rows are a snapshot of `times`: one row per entry, carrying its time and flag. */
  predicate IsSnapshotOf(rows: seq<Data>, times: Times) {
    && |rows| == |times.Keys|
    && (forall i :: 0 <= i < |rows| ==> rows[i].name in times
                                        && times[rows[i].name] == (rows[i].time, rows[i].isProd))
    && (forall i, j :: 0 <= i < j < |rows| ==> rows[i].name != rows[j].name)
    && (forall n :: n in times ==> exists i :: 0 <= i < |rows| && rows[i].name == n)
  }

  /** The records `write_data` emits for `times`, in the map's (unspecified) iteration order. */
  method WriteRows(times: Times) returns (rows: seq<Data>)
    ensures IsSnapshotOf(rows, times)
  {
    rows := [];
    var left := times.Keys;
    while left != {}
      invariant left <= times.Keys
      invariant |rows| + |left| == |times.Keys|
      invariant forall i :: 0 <= i < |rows| ==> rows[i].name in times && rows[i].name !in left
                                                && times[rows[i].name] == (rows[i].time, rows[i].isProd)
      invariant forall i, j :: 0 <= i < j < |rows| ==> rows[i].name != rows[j].name
      invariant forall n :: n in times ==> n in left || exists i :: 0 <= i < |rows| && rows[i].name == n
      decreases |left|
    {
      var name :| name in left;
      var (time, isProd) := times[name];
      ghost var before := rows;
      rows := rows + [Data(name, time, isProd)];
      left := left - {name};
      assert forall i :: 0 <= i < |before| ==> rows[i] == before[i];
      assert rows[|rows| - 1].name == name;
    }
    assert |left| == 0;
  }

  /**
   * Round trip: loading the rows written for `times` gives back every name with its time,
   * and with its flag recomputed from the productive list.
   */
  lemma WriteThenLoad(times: Times, rows: seq<Data>, productive: seq<string>)
    requires IsSnapshotOf(rows, times)
    ensures Load(AsRecords(rows), productive).Ok?
    ensures Load(AsRecords(rows), productive).value.Keys == times.Keys
    ensures forall n :: n in times ==>
              Load(AsRecords(rows), productive).value[n] == (times[n].0, n in productive)
  {
    SnapshotEntriesLoaded(times, rows, productive);
    SnapshotNamesOnly(times, rows, productive);
  }

  /** Every entry of the table comes back from its snapshot, with the flag recomputed. */
  lemma SnapshotEntriesLoaded(times: Times, rows: seq<Data>, productive: seq<string>)
    requires IsSnapshotOf(rows, times)
    ensures Load(AsRecords(rows), productive).Ok?
    ensures forall n :: n in times ==>
              n in Load(AsRecords(rows), productive).value
              && Load(AsRecords(rows), productive).value[n] == (times[n].0, n in productive)
  {
    var records := AsRecords(rows);
    LoadFailsIff(records, productive);
    forall n | n in times
      ensures n in Load(records, productive).value
              && Load(records, productive).value[n] == (times[n].0, n in productive)
    {
      var i :| 0 <= i < |rows| && rows[i].name == n;
      assert LastRecordFor(records, i);
      LoadLastWins(records, productive, i);
    }
  }

  /** Nothing but the table's names comes back from its snapshot. */
  lemma SnapshotNamesOnly(times: Times, rows: seq<Data>, productive: seq<string>)
    requires IsSnapshotOf(rows, times) && Load(AsRecords(rows), productive).Ok?
    ensures forall n :: n in Load(AsRecords(rows), productive).value ==> n in times
  {
    var records := AsRecords(rows);
    forall n | n in Load(records, productive).value
      ensures n in times
    {
      LoadKeys(records, productive, n);
      var i :| 0 <= i < |records| && records[i].Row? && records[i].data.name == n;
      assert records[i].data == rows[i];
    }
  }

  /** The rows as records of the data file. */
  function AsRecords(rows: seq<Data>): (records: seq<Row>)
    ensures |records| == |rows| && forall i :: 0 <= i < |rows| ==> records[i] == Row(rows[i])
  {
    seq(|rows|, i requires 0 <= i < |rows| => Row(rows[i]))
  }

  // ---------------------------------------------------------------------------------------
  // The event loop

  /** The result `parse_data` gives for `dir`. */
  function ParseDataResult(dir: ShareDir, productive: seq<string>): Result<Times, RecorderError> {
    match dir.dataFile
    case Some(Unreadable) => Err(CsvError)
    case Some(DataFile(rows)) => Load(rows, productive)
    case None => if dir.isDir then Ok(map[]) else Err(PathDoesNotExistError(dir.path))
  }

  /** What the pid channel delivers: a focused pid with its lookup, no focus, or closure. */
  datatype Received =
    | Focused(lookup: Option<Process>)
    | Unfocused
    | Closed

  /** How awaiting the pending write ends: written, the write failed, or its task failed. */
  datatype WriteOutcome = Written | WriteFailed | WriteJoinFailed

  /** `write_handle.await??` */
  function AwaitWrite(outcome: WriteOutcome): (r: Result<(), ClientError>)
    ensures r.Ok? <==> outcome == Written
  {
    match outcome
    case Written => Ok(())
    case WriteFailed => Err(RecorderClientError)
    case WriteJoinFailed => Err(JoinThreadError)
  }

  /**
   * One pass of the loop: the `running` flag read at its head, what the channel delivered,
   * the wall clock in milliseconds once it had, and how an await of the pending write ends.
   */
  datatype Event = Event(running: bool, received: Received, now: nat, awaited: WriteOutcome)

  datatype Outcome = Continue | Break | Fail(error: ClientError)

  /** The seconds `elapsed().as_secs()` reports between two clock readings in milliseconds. */
  function ElapsedSecs(from: nat, to: nat): (r: nat)
    requires from <= to
    ensures r * 1000 <= to - from < (r + 1) * 1000
  {
    (to - from) / 1000
  }

  /** Whole seconds of at least `d` mean at least `d` thousand milliseconds. */
  lemma ElapsedBound(from: nat, to: nat, d: nat)
    requires from <= to && ElapsedSecs(from, to) >= d
    ensures from + d * 1000 <= to
  {
  }

  /** The channel delivered something the loop goes on with: a found process or no focus. */
  predicate Delivered(received: Received) {
    received.Unfocused? || (received.Focused? && received.lookup.Some?)
  }

  /** Whether `proc` is a process whose name is listed as productive. */
  function Listed(productive: seq<string>, proc: Option<Process>): bool {
    proc.Some? && proc.value.name in productive
  }

  /** The credit for process `p` focused from clock reading `from` to `to`. */
  function Credit(productive: seq<string>, p: Process, from: nat, to: nat): (d: Data)
    requires from <= to
    ensures d.name == p.name && d.isProd == (p.name in productive)
  {
    Data(p.name, ElapsedSecs(from, to), p.name in productive)
  }

  /** A write task started at clock reading `start` with a copy of `table`. */
  datatype Write = Write(start: nat, table: Times)

  /** The recorder's state as the loop of `start` sees it, with the writes started so far. */
  datatype Loop = Loop(prevProc: Option<Process>, currProc: Option<Process>, isProd: bool,
                       startTime: nat, writeTime: nat, procTimes: Times, writes: seq<Write>)

  /**
   * The loop body for event `ev` after the `running` check: wait for the event, publish
   * whether the new process is productive, credit the previous one with the whole seconds
   * since the last event, and, when one was credited and `write_delay` seconds have passed
   * since the last write started, await that write and start a new one.
   */
  function Handle(s: Loop, ev: Event, productive: seq<string>, writeDelay: nat): (r: (Loop, Outcome))
    requires s.startTime <= ev.now && s.writeTime <= ev.now
    ensures r.0.prevProc == s.currProc
    ensures r.1 == Break <==> ev.received.Closed?
    ensures r.1.Fail? ==> r.1.error == RecorderClientError || r.1.error == JoinThreadError
  {
    match ev.received
    case Closed => (s.(prevProc := s.currProc), Break)
    case Focused(None) => (s.(prevProc := s.currProc), Fail(RecorderClientError))
    case Focused(Some(p)) => Proceed(s, ev, Some(p), productive, writeDelay)
    case Unfocused => Proceed(s, ev, None, productive, writeDelay)
  }

  /** The rest of the pass once the channel delivered `curr` as the new current process. */
  function Proceed(s: Loop, ev: Event, curr: Option<Process>, productive: seq<string>,
                   writeDelay: nat): (r: (Loop, Outcome))
    requires s.startTime <= ev.now && s.writeTime <= ev.now
    ensures r.0.prevProc == s.currProc && r.0.currProc == curr
    ensures r.0.isProd <==> Listed(productive, curr)
    ensures r.1 != Break
    ensures r.1.Fail? ==> r.1.error == RecorderClientError || r.1.error == JoinThreadError
  {
    var t := s.(prevProc := s.currProc, currProc := curr, isProd := Listed(productive, curr));
    if s.currProc.None? then
      (t.(startTime := ev.now), Continue)
    else
      var table := AddRecord(s.procTimes, Credit(productive, s.currProc.value, s.startTime, ev.now));
      if ElapsedSecs(s.writeTime, ev.now) < writeDelay then
        (t.(procTimes := table, startTime := ev.now), Continue)
      else if ev.awaited != Written then
        (t.(procTimes := table), Fail(AwaitWrite(ev.awaited).error))
      else
        (t.(procTimes := table, writes := s.writes + [Write(ev.now, table)], writeTime := ev.now,
            startTime := ev.now), Continue)
  }

  /** The table a pass leaves: credited for the previous process after a delivered event. */
  lemma HandleTable(s: Loop, ev: Event, productive: seq<string>, writeDelay: nat)
    requires s.startTime <= ev.now && s.writeTime <= ev.now
    ensures Handle(s, ev, productive, writeDelay).0.procTimes
            == if Delivered(ev.received) && s.currProc.Some?
               then AddRecord(s.procTimes, Credit(productive, s.currProc.value, s.startTime, ev.now))
               else s.procTimes
  {
  }

  /** The pass stops the loop exactly on a closed channel, and fails exactly as `start` does. */
  lemma HandleOutcome(s: Loop, ev: Event, productive: seq<string>, writeDelay: nat)
    requires s.startTime <= ev.now && s.writeTime <= ev.now
    ensures var (r, outcome) := Handle(s, ev, productive, writeDelay);
            && (outcome == Break <==> ev.received == Closed)
            && (ev.received == Focused(None) ==> outcome == Fail(RecorderClientError))
            && (Delivered(ev.received) ==>
                  (outcome.Fail? <==> s.currProc.Some? && ElapsedSecs(s.writeTime, ev.now) >= writeDelay
                                      && ev.awaited != Written))
            && (outcome.Fail? && Delivered(ev.received) ==> outcome.error == AwaitWrite(ev.awaited).error)
            && r.prevProc == s.currProc
            && (!Delivered(ev.received) ==> r == s.(prevProc := s.currProc))
  {
  }

  /**
   * After a delivered event the new process is current and its productive flag is
   * published; the previous process alone is credited, with the whole seconds since the
   * last event; every other total stays as it was.
   */
  lemma HandleCredits(s: Loop, ev: Event, productive: seq<string>, writeDelay: nat)
    requires s.startTime <= ev.now && s.writeTime <= ev.now && Delivered(ev.received)
    ensures var r := Handle(s, ev, productive, writeDelay).0;
            && r.currProc == (if ev.received.Focused? then ev.received.lookup else None)
            && (r.isProd <==> r.currProc.Some? && r.currProc.value.name in productive)
            && (s.currProc.None? ==> r.procTimes == s.procTimes)
            && (s.currProc.Some? ==>
                  var name := s.currProc.value.name;
                  && name in r.procTimes
                  && r.procTimes[name].0
                     == (if name in s.procTimes then s.procTimes[name].0 else 0)
                        + ElapsedSecs(s.startTime, ev.now)
                  && r.procTimes[name].1 == (name in productive)
                  && forall n :: n in s.procTimes && n != name ==> r.procTimes[n] == s.procTimes[n])
            && r.procTimes.Keys == s.procTimes.Keys + (if s.currProc.Some? then {s.currProc.value.name} else {})
  {
    HandleTable(s, ev, productive, writeDelay);
    if s.currProc.Some? {
      AddRecordEntries(s.procTimes, Credit(productive, s.currProc.value, s.startTime, ev.now));
    }
  }

  /**
   * A write starts only on a delivered event that credited a previous process once
   * `write_delay` seconds have passed and the pending write has been awaited; it takes the
   * table just credited, and it is the only way `write_time` moves.
   */
  lemma HandleWrites(s: Loop, ev: Event, productive: seq<string>, writeDelay: nat)
    requires s.startTime <= ev.now && s.writeTime <= ev.now
    ensures var (r, outcome) := Handle(s, ev, productive, writeDelay);
            var due := Delivered(ev.received) && s.currProc.Some?
                       && ElapsedSecs(s.writeTime, ev.now) >= writeDelay && ev.awaited == Written;
            && (due ==> r.writes == s.writes + [Write(ev.now, r.procTimes)] && r.writeTime == ev.now)
            && (!due ==> r.writes == s.writes && r.writeTime == s.writeTime)
            && (outcome == Continue ==> r.startTime == ev.now)
            && (outcome != Continue ==> r.startTime == s.startTime)
  {
  }

  /** Every total of `a` is present in `b` and no smaller there. */
  predicate Dominates(b: Times, a: Times) {
    forall n :: n in a ==> n in b && b[n].0 >= a[n].0
  }

  /** A pass never lowers a total. */
  lemma HandleGrows(s: Loop, ev: Event, productive: seq<string>, writeDelay: nat)
    requires s.startTime <= ev.now && s.writeTime <= ev.now
    ensures Dominates(Handle(s, ev, productive, writeDelay).0.procTimes, s.procTimes)
  {
    HandleTable(s, ev, productive, writeDelay);
    if Delivered(ev.received) && s.currProc.Some? {
      AddRecordEntries(s.procTimes, Credit(productive, s.currProc.value, s.startTime, ev.now));
    }
  }

  /** Consecutive write starts lie at least `gap` apart. */
  predicate Spaced(writes: seq<Write>, gap: nat) {
    forall k :: 0 < k < |writes| ==> writes[k - 1].start + gap <= writes[k].start
  }

  /** Each write carries no smaller totals than the one before. */
  predicate Growing(writes: seq<Write>) {
    forall k :: 0 < k < |writes| ==> Dominates(writes[k].table, writes[k - 1].table)
  }

  /**
   * What the writes of a recorder keep: they start at least `write_delay` seconds apart, the
   * last one at `write_time`, and none of them, nor the live table, loses time recorded in an
   * earlier one.
   */
  predicate WritesKept(s: Loop, writeDelay: nat) {
    && Spaced(s.writes, writeDelay * 1000)
    && Growing(s.writes)
    && (|s.writes| > 0 ==> s.writes[|s.writes| - 1].start == s.writeTime
                           && Dominates(s.procTimes, s.writes[|s.writes| - 1].table))
  }

  lemma DominatesTrans(c: Times, b: Times, a: Times)
    requires Dominates(c, b) && Dominates(b, a)
    ensures Dominates(c, a)
  {
  }

  /** A pass keeps the writes spaced and growing. */
  lemma HandleKeepsWrites(s: Loop, ev: Event, productive: seq<string>, writeDelay: nat)
    requires s.startTime <= ev.now && s.writeTime <= ev.now && WritesKept(s, writeDelay)
    ensures WritesKept(Handle(s, ev, productive, writeDelay).0, writeDelay)
  {
    var r := Handle(s, ev, productive, writeDelay).0;
    HandleGrows(s, ev, productive, writeDelay);
    HandleWrites(s, ev, productive, writeDelay);
    if |s.writes| > 0 {
      DominatesTrans(r.procTimes, s.procTimes, s.writes[|s.writes| - 1].table);
    }
    if |r.writes| > |s.writes| {
      ElapsedBound(s.writeTime, ev.now, writeDelay);
      assert r.writes[..|s.writes|] == s.writes;
    }
  }

  /** The events come with clock readings that never go backwards. */
  predicate Ordered(events: seq<Event>) {
    forall i, j :: 0 <= i < j < |events| ==> events[i].now <= events[j].now
  }

  /** Neither clock of `s` is ahead of event `i` or any later one. */
  predicate ClocksBefore(s: Loop, events: seq<Event>, i: nat) {
    forall j :: i <= j < |events| ==> s.startTime <= events[j].now && s.writeTime <= events[j].now
  }

  lemma HandleClocks(s: Loop, events: seq<Event>, i: nat, productive: seq<string>, writeDelay: nat)
    requires i < |events| && Ordered(events) && ClocksBefore(s, events, i)
    ensures ClocksBefore(Handle(s, events[i], productive, writeDelay).0, events, i + 1)
  {
    HandleWrites(s, events[i], productive, writeDelay);
  }

  /**
   * The loop of `start` from event `i` on: the state it leaves and the error it returns, if
   * any. It runs while `running` holds and events last, and stops on a closed channel.
   */
  function Run(s: Loop, events: seq<Event>, i: nat, productive: seq<string>, writeDelay: nat)
    : (r: (Loop, Option<ClientError>))
    requires i <= |events| && Ordered(events) && ClocksBefore(s, events, i)
    ensures r.1.Some? ==> r.1.value == RecorderClientError || r.1.value == JoinThreadError
    decreases |events| - i
  {
    if i == |events| || !events[i].running then (s, None)
    else
      HandleClocks(s, events, i, productive, writeDelay);
      var (next, outcome) := Handle(s, events[i], productive, writeDelay);
      match outcome
      case Fail(e) => (next, Some(e))
      case Break => (next, None)
      case Continue => Run(next, events, i + 1, productive, writeDelay)
  }

  /** The loop never lowers a total, and keeps the writes spaced and growing. */
  lemma {:induction false} RunKeeps(s: Loop, events: seq<Event>, i: nat, productive: seq<string>,
                                    writeDelay: nat)
    requires i <= |events| && Ordered(events) && ClocksBefore(s, events, i)
    ensures Dominates(Run(s, events, i, productive, writeDelay).0.procTimes, s.procTimes)
    ensures WritesKept(s, writeDelay) ==> WritesKept(Run(s, events, i, productive, writeDelay).0, writeDelay)
    ensures |Run(s, events, i, productive, writeDelay).0.writes| >= |s.writes|
    ensures Run(s, events, i, productive, writeDelay).0.writes[..|s.writes|] == s.writes
    decreases |events| - i
  {
    if i < |events| && events[i].running {
      HandleClocks(s, events, i, productive, writeDelay);
      var (next, outcome) := Handle(s, events[i], productive, writeDelay);
      HandleGrows(s, events[i], productive, writeDelay);
      HandleWrites(s, events[i], productive, writeDelay);
      if WritesKept(s, writeDelay) {
        HandleKeepsWrites(s, events[i], productive, writeDelay);
      }
      if outcome == Continue {
        RunKeeps(next, events, i + 1, productive, writeDelay);
        var r := Run(next, events, i + 1, productive, writeDelay).0;
        DominatesTrans(r.procTimes, next.procTimes, s.procTimes);
        assert r.writes[..|next.writes|][..|s.writes|] == r.writes[..|s.writes|];
        assert next.writes[..|s.writes|] == s.writes;
      } else {
        assert next.writes[..|s.writes|] == s.writes;
      }
    } else {
      assert s.writes[..|s.writes|] == s.writes;
    }
  }

  /** The record a pass credits: one for the previous process after a delivered event. */
  function StepCredits(s: Loop, ev: Event, productive: seq<string>): seq<Data>
    requires s.startTime <= ev.now
  {
    if Delivered(ev.received) && s.currProc.Some?
    then [Credit(productive, s.currProc.value, s.startTime, ev.now)] else []
  }

  /** A pass credits exactly the records `StepCredits` lists. */
  lemma HandleReplays(s: Loop, ev: Event, productive: seq<string>, writeDelay: nat)
    requires s.startTime <= ev.now && s.writeTime <= ev.now
    ensures Handle(s, ev, productive, writeDelay).0.procTimes
            == Replay(s.procTimes, StepCredits(s, ev, productive))
  {
    var credits := StepCredits(s, ev, productive);
    HandleTable(s, ev, productive, writeDelay);
    if credits != [] {
      assert credits[..0] == [];
    }
  }

  /** Replaying two runs of credits one after the other is replaying them joined. */
  lemma {:induction false} ReplayAppend(base: Times, first: seq<Data>, rest: seq<Data>)
    ensures Replay(base, first + rest) == Replay(Replay(base, first), rest)
    decreases |rest|
  {
    if rest == [] {
      assert first + rest == first;
    } else {
      var joined := first + rest;
      var init := rest[..|rest| - 1];
      assert joined[..|joined| - 1] == first + init;
      assert joined[|joined| - 1] == rest[|rest| - 1];
      ReplayAppend(base, first, init);
      assert Replay(base, joined) == AddRecord(Replay(base, first + init), rest[|rest| - 1]);
    }
  }

  /** The records the loop credits from event `i` on, in order. */
  function RunCredits(s: Loop, events: seq<Event>, i: nat, productive: seq<string>, writeDelay: nat)
    : seq<Data>
    requires i <= |events| && Ordered(events) && ClocksBefore(s, events, i)
    decreases |events| - i
  {
    if i == |events| || !events[i].running then []
    else
      HandleClocks(s, events, i, productive, writeDelay);
      var (next, outcome) := Handle(s, events[i], productive, writeDelay);
      StepCredits(s, events[i], productive)
      + if outcome == Continue then RunCredits(next, events, i + 1, productive, writeDelay) else []
  }

  /**
   * The table the loop leaves is the one it started with, credited with exactly the records
   * `RunCredits` lists, in order.
   */
  lemma {:induction false} RunReplays(s: Loop, events: seq<Event>, i: nat, productive: seq<string>,
                                      writeDelay: nat)
    requires i <= |events| && Ordered(events) && ClocksBefore(s, events, i)
    ensures Run(s, events, i, productive, writeDelay).0.procTimes
            == Replay(s.procTimes, RunCredits(s, events, i, productive, writeDelay))
    decreases |events| - i
  {
    if i < |events| && events[i].running {
      HandleClocks(s, events, i, productive, writeDelay);
      var (next, outcome) := Handle(s, events[i], productive, writeDelay);
      var step := StepCredits(s, events[i], productive);
      HandleReplays(s, events[i], productive, writeDelay);
      if outcome == Continue {
        var rest := RunCredits(next, events, i + 1, productive, writeDelay);
        RunReplays(next, events, i + 1, productive, writeDelay);
        ReplayAppend(s.procTimes, step, rest);
      } else {
        assert step + [] == step;
      }
    }
  }

  class Recorder {
    const productive: seq<string>
    const writeDelay: nat
    var prevProc: Option<Process>
    var currProc: Option<Process>
    var startTime: nat
    var writeTime: nat
    var procTimes: Times
    /** The productive flag shared with the alerter. */
    var isProd: bool
    /** The write tasks started so far, oldest first. */
    var writes: seq<Write>

    function State(): Loop
      reads this
    {
      Loop(prevProc, currProc, isProd, startTime, writeTime, procTimes, writes)
    }

    constructor (productive: seq<string>, writeDelay: nat, table: Times, now: nat)
      ensures this.productive == productive && this.writeDelay == writeDelay
      ensures State() == Loop(None, None, false, now, now, table, [])
    {
      this.productive := productive;
      this.writeDelay := writeDelay;
      prevProc := None;
      currProc := None;
      startTime := now;
      writeTime := now;
      procTimes := table;
      isProd := false;
      writes := [];
    }

    /**
     * `Recorder::new`: the table parsed from the share directory, no process yet, and both
     * clocks started `now`.
     */
    static method New(dir: ShareDir, productive: seq<string>, writeDelay: nat, now: nat)
      returns (r: Result<Recorder, RecorderError>, after: ShareDir)
      ensures var loaded := ParseDataResult(dir, productive);
              && (r.Err? <==> loaded.Err?)
              && (r.Err? ==> r.error == loaded.error)
              && (r.Ok? ==> && fresh(r.value)
                            && r.value.State() == Loop(None, None, false, now, now, loaded.value, [])
                            && r.value.productive == productive && r.value.writeDelay == writeDelay)
      ensures after == if dir.dataFile.None? && dir.isDir then dir.(dataFile := Some(DataFile([])))
                       else dir
    {
      var loaded;
      loaded, after := ParseData(dir, productive);
      if loaded.Err? {
        return Err(loaded.error), after;
      }
      var recorder := new Recorder(productive, writeDelay, loaded.value, now);
      return Ok(recorder), after;
    }

    /** `add_data` on the table. */
    method AddData(data: Data)
      modifies this`procTimes
      ensures procTimes == AddRecord(old(procTimes), data)
    {
      if data.name in procTimes {
        var (t, _) := procTimes[data.name];
        procTimes := procTimes[data.name := (t + data.time, data.isProd)];
      } else {
        procTimes := procTimes[data.name := (data.time, data.isProd)];
      }
    }

    /**
     * `wait_for_event`: the current process becomes the previous one, and the channel's
     * delivery decides the new current one; a failed lookup or a closed channel is an error
     * and leaves the current process as it was.
     */
    method WaitForEvent(received: Received) returns (r: Result<(), RecorderError>)
      modifies this`prevProc, this`currProc
      ensures prevProc == old(currProc)
      ensures received.Closed? ==> r == Err(PidChannelError) && currProc == old(currProc)
      ensures received == Focused(None) ==> r == Err(GetProcessError) && currProc == old(currProc)
      ensures received.Focused? && received.lookup.Some? ==> r.Ok? && currProc == received.lookup
      ensures received.Unfocused? ==> r.Ok? && currProc.None?
    {
      prevProc := currProc;
      match received {
        case Closed =>
          return Err(PidChannelError);
        case Focused(lookup) =>
          if lookup.None? {
            return Err(GetProcessError);
          }
          currProc := lookup;
        case Unfocused =>
          currProc := None;
      }
      return Ok(());
    }

    /** Spawn a write of the current table at clock reading `now`. */
    method StartWrite(now: nat)
      modifies this`writes, this`writeTime
      ensures writes == old(writes) + [Write(now, procTimes)] && writeTime == now
    {
      writes := writes + [Write(now, procTimes)];
      writeTime := now;
    }

    /** One pass of the loop body of `start`, after the `running` check. */
    method HandleEvent(ev: Event) returns (outcome: Outcome)
      requires startTime <= ev.now && writeTime <= ev.now
      modifies this
      ensures (State(), outcome) == Handle(old(State()), ev, productive, writeDelay)
    {
      var waited := WaitForEvent(ev.received);
      if waited.Err? {
        if waited.error == PidChannelError {
          return Break;
        } else {
          return Fail(RecorderClientError);
        }
      }

      match currProc {
        case Some(p) => isProd := p.name in productive;
        case None => isProd := false;
      }

      match prevProc {
        case Some(p) =>
          AddData(Data(p.name, ElapsedSecs(startTime, ev.now), p.name in productive));
          var writeElapsed := ElapsedSecs(writeTime, ev.now);
          if writeElapsed >= writeDelay {
            var joined := AwaitWrite(ev.awaited);
            if joined.Err? {
              return Fail(joined.error);
            }
            StartWrite(ev.now);
          }
        case None =>
      }

      startTime := ev.now;
      return Continue;
    }

    /**
     * `start`: start a write of the loaded table, then handle events while `running` holds,
     * stopping at a closed channel and failing on any other error; finally await the pending
     * write. The clock readings must not go backwards (`elapsed().unwrap()` panics if they do).
     */
    method Start(startNow: nat, events: seq<Event>, finalWrite: WriteOutcome)
      returns (r: Result<(), ClientError>)
      requires startTime <= startNow && writeTime <= startNow && Ordered(events)
      requires forall i :: 0 <= i < |events| ==> startNow <= events[i].now
      modifies this
      ensures var first := old(State()).(writeTime := startNow,
                                         writes := old(writes) + [Write(startNow, old(procTimes))]);
              ClocksBefore(first, events, 0)
              && var (final, error) := Run(first, events, 0, productive, writeDelay);
              && State() == final
              && r == (if error.Some? then Err(error.value) else AwaitWrite(finalWrite))
    {
      StartWrite(startNow);
      ghost var first := State();
      assert ClocksBefore(first, events, 0);
      var i := 0;
      while i < |events| && events[i].running
        invariant 0 <= i <= |events| && ClocksBefore(State(), events, i)
        invariant Run(first, events, 0, productive, writeDelay)
                  == Run(State(), events, i, productive, writeDelay)
        decreases |events| - i
      {
        HandleClocks(State(), events, i, productive, writeDelay);
        var outcome := HandleEvent(events[i]);
        if outcome.Fail? {
          return Err(outcome.error);
        }
        if outcome.Break? {
          break;
        }
        i := i + 1;
      }
      var joined := AwaitWrite(finalWrite);
      if joined.Err? {
        return Err(joined.error);
      }
      return Ok(());
    }
  }
}
