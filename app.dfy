/**
 * The page's session: the three stopwatch fields of the session state, the
 * spreadsheet the page reads and writes, and the read cache in front of it.
 * The clock and the outcome of each network call are parameters.
 */
module App {
  import opened Options
  import opened Sheet
  import opened Trend

  /** What the page shows under the stopwatch buttons. */
  datatype TimerStatus = Measuring | Finished(seconds: real) | Idle

  /** The outcome of pressing the save button. */
  datatype SaveOutcome = Saved | InvalidTime | WriteFailed

  /**
   * The save guard of main and the table save_data writes: nothing when the
   * entered time is not positive, otherwise the loaded table with exactly one
   * new row, holding the chosen unit, level and time, after all the old rows.
   */
  function Submit(df: Frame, unit: string, level: string, inputTime: real, date: string): (r: Option<Frame>)
    ensures r.None? <==> inputTime <= 0.0
    ensures r.Some? ==> |r.value.rows| == |df.rows| + 1
    ensures r.Some? ==> r.value.rows[..|df.rows|] == df.rows
    ensures r.Some? ==> r.value.rows[|df.rows|] == Record(date, unit, level, inputTime)
    ensures r.Some? ==> Usable(r.value)
  {
    if inputTime > 0.0 then Some(AppendEntry(df, Record(date, unit, level, inputTime))) else None
  }

  class Session {
    /** st.session_state.start_time: when the running measurement began. */
    var startTime: Option<real>
    /** st.session_state.elapsed_time: the last measured time in seconds. */
    var elapsedTime: real
    /** st.session_state.is_running */
    var isRunning: bool
    /** The worksheet "Sheet1" as it stands in the spreadsheet. */
    var sheet: Frame
    /** The value st.cache_data keeps for load_data; None once cleared. */
    var cache: Option<Frame>

    /**
     * A running stopwatch has a start instant and shows no measured time; a
     * cached table is one load_data can return.
     */
    ghost predicate Valid()
      reads this
    {
      && (isRunning ==> startTime.Some? && elapsedTime == 0.0)
      && (cache.Some? ==> cache.value == EmptyFrame || Usable(cache.value))
    }

    /** A fresh session over the given worksheet: idle stopwatch, nothing cached. */
    constructor (sheet: Frame)
      ensures Valid()
      ensures startTime == None && elapsedTime == 0.0 && !isRunning
      ensures this.sheet == sheet && cache == None
    {
      startTime := None;
      elapsedTime := 0.0;
      isRunning := false;
      this.sheet := sheet;
      cache := None;
    }

    /** The start button, from any state. */
    method Start(now: real)
      requires Valid()
      modifies this`startTime, this`elapsedTime, this`isRunning
      ensures Valid()
      ensures startTime == Some(now) && isRunning && elapsedTime == 0.0
    {
      startTime := Some(now);
      isRunning := true;
      elapsedTime := 0.0;
    }

    /**
     * The stop button: acts only while running, recording the time since the
     * start and keeping the start instant; otherwise it changes nothing.
     */
    method Stop(now: real)
      requires Valid()
      modifies this`elapsedTime, this`isRunning
      ensures Valid()
      ensures old(isRunning) ==> elapsedTime == now - startTime.value && !isRunning
      ensures old(isRunning) && now >= startTime.value ==> elapsedTime >= 0.0
      ensures !old(isRunning) ==> elapsedTime == old(elapsedTime) && isRunning == old(isRunning)
    {
      if isRunning {
        elapsedTime := now - startTime.value;
        isRunning := false;
      }
    }

    /** The reset button, from any state; the new state does not depend on the old one. */
    method Reset()
      requires Valid()
      modifies this`startTime, this`elapsedTime, this`isRunning
      ensures Valid()
      ensures startTime == None && elapsedTime == 0.0 && !isRunning
    {
      startTime := None;
      elapsedTime := 0.0;
      isRunning := false;
    }

    /** "Measuring" exactly while running, "finished" exactly when stopped with a positive time. */
    function Status(): (s: TimerStatus)
      reads this
      ensures s == Measuring <==> isRunning
      ensures s.Finished? <==> !isRunning && elapsedTime > 0.0
      ensures s.Finished? ==> s.seconds == elapsedTime
    {
      if isRunning then Measuring
      else if elapsedTime > 0.0 then Finished(elapsedTime)
      else Idle
    }

    /**
     * load_data behind st.cache_data: a cached table is returned as it is,
     * without reading; otherwise the worksheet is read (readOk says whether
     * the read succeeds) and the result, fallback included, is cached.
     */
    method Load(readOk: bool) returns (df: Frame)
      requires Valid()
      modifies this`cache
      ensures Valid()
      ensures old(cache).Some? ==> df == old(cache).value && cache == old(cache)
      ensures old(cache).None? ==> df == LoadData(if readOk then Some(sheet) else None) && cache == Some(df)
    {
      if cache.Some? {
        df := cache.value;
      } else {
        df := LoadData(if readOk then Some(sheet) else None);
        cache := Some(df);
      }
    }

    /**
     * The save button, with df the table loaded at the top of the run. A time
     * that is not positive is rejected and nothing changes. Otherwise the whole
     * table df plus the entry is written back and the cache is cleared.
     * `failure` is None when conn.update succeeds; Some(after) when it raises,
     * `after` being whatever the worksheet holds then, since nothing promises
     * that a failed whole-sheet rewrite wrote nothing. The raise skips the
     * cache clear, so the cache stays as it was.
     */
    method Save(df: Frame, unit: string, level: string, inputTime: real, date: string, failure: Option<Frame>)
      returns (outcome: SaveOutcome)
      requires Valid()
      modifies this`sheet, this`cache
      ensures Valid()
      ensures outcome == InvalidTime <==> inputTime <= 0.0
      ensures outcome == Saved <==> inputTime > 0.0 && failure.None?
      ensures outcome == Saved ==> Some(sheet) == Submit(df, unit, level, inputTime, date) && cache == None
      ensures outcome == WriteFailed ==> sheet == failure.value && cache == old(cache)
      ensures outcome == InvalidTime ==> sheet == old(sheet) && cache == old(cache)
    {
      var written := Submit(df, unit, level, inputTime, date);
      if written.None? {
        outcome := InvalidTime;
      } else if failure.Some? {
        sheet := failure.value;
        outcome := WriteFailed;
      } else {
        sheet := written.value;
        cache := None;
        outcome := Saved;
      }
    }
  }

  /** Start at t0 and stop at t1 in a fresh session: the page reports t1 - t0 when it is positive. */
  method StartThenStop(t0: real, t1: real) returns (status: TimerStatus)
    ensures t1 > t0 <==> status == Finished(t1 - t0)
    ensures t1 <= t0 <==> status == Idle
  {
    var s := new Session(EmptyFrame);
    s.Start(t0);
    s.Stop(t1);
    status := s.Status();
  }

  /** Pressing stop a second time leaves the measured time as the first press set it. */
  method StopTwice(t0: real, t1: real, t2: real) returns (first: real, second: real)
    ensures first == t1 - t0
    ensures second == first
  {
    var s := new Session(EmptyFrame);
    s.Start(t0);
    s.Stop(t1);
    first := s.elapsedTime;
    s.Stop(t2);
    second := s.elapsedTime;
  }

  /** Reset after any measurement returns the stopwatch to its fresh state, however often it is pressed. */
  method ResetAfterMeasuring(t0: real, t1: real) returns (once: TimerStatus, twice: TimerStatus)
    ensures once == Idle && twice == once
  {
    var s := new Session(EmptyFrame);
    s.Start(t0);
    s.Stop(t1);
    s.Reset();
    once := s.Status();
    s.Reset();
    twice := s.Status();
  }

  /**
   * Read after write in one session: after a successful save the next load
   * reads the worksheet again and sees the loaded rows followed by the entry,
   * so the rerun page has a chart for the saved drill.
   */
  method SaveThenReload(sheet: Frame, unit: string, level: string, time: real, date: string)
    returns (before: Frame, after: Frame)
    requires time > 0.0
    ensures before == LoadData(Some(sheet))
    ensures after.rows == before.rows + [Record(date, unit, level, time)]
    ensures ChartFor(after.rows, unit, level).Line?
  {
    var s := new Session(sheet);
    before := s.Load(true);
    var outcome := s.Save(before, unit, level, time, date, None);
    after := s.Load(true);
    ReadAfterWrite(before, Record(date, unit, level, time));
    assert after.rows[|after.rows| - 1] in after.rows;
  }

  /** Without a save in between, a second load is served from the cache even if reading would fail. */
  method LoadTwice(sheet: Frame) returns (first: Frame, second: Frame)
    ensures first == LoadData(Some(sheet))
    ensures second == first
  {
    var s := new Session(sheet);
    first := s.Load(true);
    second := s.Load(false);
  }

  /** A rejected time leaves the worksheet as it was. */
  method RejectedSave(sheet: Frame, unit: string, level: string, time: real, date: string)
    returns (outcome: SaveOutcome, after: Frame)
    requires time <= 0.0
    ensures outcome == InvalidTime && after == sheet
  {
    var s := new Session(sheet);
    var df := s.Load(true);
    outcome := s.Save(df, unit, level, time, date, None);
    after := s.sheet;
  }

  /**
   * When the worksheet cannot be read, the page loads the empty table, and a
   * save then replaces the whole worksheet by the one new row.
   */
  method SaveAfterFailedRead(sheet: Frame, unit: string, level: string, time: real, date: string)
    returns (written: Frame)
    requires time > 0.0
    ensures written == Frame(RecordColumns, [Record(date, unit, level, time)])
  {
    var s := new Session(sheet);
    var df := s.Load(false);
    var outcome := s.Save(df, unit, level, time, date, None);
    written := s.sheet;
    SaveOnFallbackWritesOneRow(None, Record(date, unit, level, time));
  }
}
