/** The activity log of App.tsx: most recent entry first, at most
    `Capacity` entries. Timestamps are supplied by the caller. */
module ActivityLog {
  import opened Types
  import opened Seqs

  const Capacity: nat := 100

  /** The first `Capacity` entries of a history. */
  function Window(history: seq<LogEntry>): seq<LogEntry>
  {
    history[..Min(|history|, Capacity)]
  }

  /** `addLog`: puts the new entry in front and drops whatever falls
      beyond the capacity. */
  function AddLog(logs: seq<LogEntry>, timestamp: string, message: string, level: LogLevel,
                  platform: Option<Platform>): (r: seq<LogEntry>)
    ensures |r| == Min(|logs| + 1, Capacity)
    ensures r[0] == LogEntry(timestamp, message, level, platform)
    ensures forall i :: 1 <= i < |r| ==> r[i] == logs[i - 1]
    ensures |logs| >= Capacity ==> r == [r[0]] + logs[..Capacity - 1]
  {
    Push(logs, LogEntry(timestamp, message, level, platform))
  }

  function Push(logs: seq<LogEntry>, e: LogEntry): seq<LogEntry>
  {
    Window([e] + logs)
  }

  /** The log after the entries are added one by one, first to last. */
  function PushAll(logs: seq<LogEntry>, entries: seq<LogEntry>): seq<LogEntry>
  {
    if |entries| == 0 then logs
    else Push(PushAll(logs, entries[..|entries| - 1]), entries[|entries| - 1])
  }

  lemma WindowCons(e: LogEntry, history: seq<LogEntry>)
    ensures Window([e] + Window(history)) == Window([e] + history)
  {
    var w := Window(history);
    var n := Min(|history| + 1, Capacity);
    assert |Window([e] + w)| == n;
    forall i | 0 <= i < n
      ensures Window([e] + w)[i] == Window([e] + history)[i]
    {
      if i > 0 {
        assert ([e] + w)[i] == w[i - 1];
        assert ([e] + history)[i] == history[i - 1];
      }
    }
  }

  /** After at least one entry, the log is the most recent `Capacity`
      entries of the whole history, newest first. */
  lemma {:induction false} PushAllWindow(logs: seq<LogEntry>, entries: seq<LogEntry>)
    requires |entries| > 0
    ensures PushAll(logs, entries) == Window(Reverse(entries) + logs)
    decreases |entries|
  {
    var n := |entries|;
    var init := entries[..n - 1];
    var e := entries[n - 1];
    if n == 1 {
      assert PushAll(logs, init) == logs;
      assert Reverse(entries) == [e];
    } else {
      PushAllWindow(logs, init);
      WindowCons(e, Reverse(init) + logs);
      assert Reverse(entries) == [e] + Reverse(init);
      assert [e] + (Reverse(init) + logs) == Reverse(entries) + logs;
    }
  }

  /** However many entries are added, the log never exceeds the capacity,
      and once more than `Capacity` have been added to an empty log the
      earliest ones are gone. */
  lemma PushAllBounded(entries: seq<LogEntry>)
    ensures |PushAll([], entries)| == Min(|entries|, Capacity)
    ensures |entries| > 0 ==> PushAll([], entries)[0] == entries[|entries| - 1]
    ensures |entries| > Capacity ==> PushAll([], entries)[Capacity - 1] == entries[|entries| - Capacity]
  {
    if |entries| > 0 {
      PushAllWindow([], entries);
      assert Reverse(entries) + [] == Reverse(entries);
    }
  }

  /** Adding entries in two batches is adding them in one. */
  lemma {:induction false} PushAllConcat(logs: seq<LogEntry>, a: seq<LogEntry>, b: seq<LogEntry>)
    ensures PushAll(logs, a + b) == PushAll(PushAll(logs, a), b)
    decreases |b|
  {
    if |b| == 0 {
      assert a + b == a;
    } else {
      var n := |b|;
      assert (a + b)[..|a + b| - 1] == a + b[..n - 1];
      assert (a + b)[|a + b| - 1] == b[n - 1];
      PushAllConcat(logs, a, b[..n - 1]);
    }
  }
}
