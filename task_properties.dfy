/** Properties of the task store and of the transcription: separators in a
    joined trace, splitting a trace back into its items, the outcome of a
    run that fails before the engine starts, and the absence of any guard
    against a second update of the same task. */
module TaskProperties {
  import opened Base
  import opened TaskText
  import opened Tasks

  lemma {:induction false} NewlinesAppend(a: string, b: string)
    ensures Newlines(a + b) == Newlines(a) + Newlines(b)
    decreases |a|
  {
    if a != [] {
      assert (a + b)[0] == a[0] && (a + b)[1..] == a[1..] + b;
      NewlinesAppend(a[1..], b);
    } else {
      assert a + b == b;
    }
  }

  /** The join of n >= 1 parts has n - 1 separators on top of the newlines
      the parts already hold. */
  lemma {:induction false} JoinNewlines(parts: seq<string>)
    requires |parts| >= 1
    ensures Newlines(Join(parts)) == |parts| - 1 + InnerNewlines(parts)
    decreases |parts|
  {
    if |parts| == 1 {
      assert parts[1..] == [];
    } else {
      JoinNewlines(parts[1..]);
      NewlinesAppend(parts[0], "\n" + Join(parts[1..]));
      NewlinesAppend("\n", Join(parts[1..]));
      assert Newlines("\n") == 1 by { assert "\n"[1..] == []; }
      assert Join(parts) == parts[0] + ("\n" + Join(parts[1..]));
    }
  }

  lemma {:induction false} InnerNewlinesZero(parts: seq<string>)
    ensures InnerNewlines(parts) == 0 <==> forall i | 0 <= i < |parts| :: Newlines(parts[i]) == 0
    decreases |parts|
  {
    if parts != [] {
      InnerNewlinesZero(parts[1..]);
      assert forall i | 1 <= i < |parts| :: parts[1..][i - 1] == parts[i];
    }
  }

  lemma {:induction false} NoNewlineMeansNewlinesZero(s: string)
    ensures '\n' !in s <==> Newlines(s) == 0
    decreases |s|
  {
    if s != [] {
      NoNewlineMeansNewlinesZero(s[1..]);
      assert s == [s[0]] + s[1..];
    }
  }

  /** A list trace of n >= 1 items holds exactly n - 1 newlines exactly when
      no item's text contains a newline. */
  lemma TranscriptSeparators(enc: Encoders, items: seq<Item>)
    requires |items| >= 1
    ensures Newlines(Transcript(enc, List(items))) == |items| - 1 <==>
      forall i | 0 <= i < |items| :: '\n' !in ItemText(enc, items[i])
  {
    var texts := ItemTexts(enc, items);
    JoinNewlines(texts);
    InnerNewlinesZero(texts);
    forall i | 0 <= i < |items|
      ensures '\n' !in ItemText(enc, items[i]) <==> Newlines(texts[i]) == 0
    {
      NoNewlineMeansNewlinesZero(texts[i]);
    }
  }

  lemma {:induction false} SplitSingle(a: string)
    requires '\n' !in a
    ensures Split(a) == [a]
    decreases |a|
  {
    if a != [] {
      assert '\n' !in a[1..] by {
        forall k | 0 <= k < |a[1..]| ensures a[1..][k] != '\n' { assert a[1..][k] == a[k + 1]; }
      }
      SplitSingle(a[1..]);
      assert [a[0]] + a[1..] == a;
    }
  }

  lemma {:induction false} SplitAfterLine(a: string, b: string)
    requires '\n' !in a
    ensures Split(a + "\n" + b) == [a] + Split(b)
    decreases |a|
  {
    if a == [] {
      assert a + "\n" + b == "\n" + b;
      assert ("\n" + b)[1..] == b;
    } else {
      var s := a + "\n" + b;
      assert s[1..] == a[1..] + "\n" + b;
      assert '\n' !in a[1..] by {
        forall k | 0 <= k < |a[1..]| ensures a[1..][k] != '\n' { assert a[1..][k] == a[k + 1]; }
      }
      SplitAfterLine(a[1..], b);
      assert [a[0]] + a[1..] == a;
    }
  }

  /** Splitting a join at its newlines gives the parts back when no part
      holds a newline. */
  lemma {:induction false} SplitJoin(parts: seq<string>)
    requires |parts| >= 1
    requires forall i | 0 <= i < |parts| :: '\n' !in parts[i]
    ensures Split(Join(parts)) == parts
    decreases |parts|
  {
    if |parts| == 1 {
      SplitSingle(parts[0]);
    } else {
      assert forall i | 0 <= i < |parts[1..]| :: parts[1..][i] == parts[i + 1];
      SplitJoin(parts[1..]);
      SplitAfterLine(parts[0], Join(parts[1..]));
      assert [parts[0]] + parts[1..] == parts;
    }
  }

  /** A list trace can be read back item by item. */
  lemma TranscriptRoundTrip(enc: Encoders, items: seq<Item>)
    requires |items| >= 1
    requires forall i | 0 <= i < |items| :: '\n' !in ItemText(enc, items[i])
    ensures Split(Transcript(enc, List(items))) == ItemTexts(enc, items)
  {
    SplitJoin(ItemTexts(enc, items));
  }

  /** A task whose configuration cannot be loaded ends failed with the
      loader's message, every result field still None, and the finally
      block raising on the unbound `config_dict`. */
  lemma ConfigFailureLeavesResultsEmpty(
    createdAt: string, request: TaskRequest,
    load: ConfigSource -> Result<Config, string>,
    engine: (TaskRequest, Config) -> EngineRun, enc: Encoders)
    requires load(ConfigSourceOf(request)).Err?
    ensures var e := Executed(PendingRecord(createdAt), request, load, engine, enc);
      && e.record.status == Failed
      && e.record.errors == Some(load(ConfigSourceOf(request)).error)
      && ResultsEmpty(e.record)
      && e.cleanup.closed == [] && e.cleanup.escaped == Some("config_dict")
  {
  }

  /** An engine that finishes with a dict final result and an empty error
      list gives a completed record whose final result is that dict's JSON
      text and whose errors are the empty string. */
  lemma StubbedRunScenario(
    createdAt: string, request: TaskRequest,
    load: ConfigSource -> Result<Config, string>,
    engine: (TaskRequest, Config) -> EngineRun, enc: Encoders,
    result: Obj, actions: Trace, thoughts: Trace, agentId: string)
    requires load(ConfigSourceOf(request)).Ok?
    requires engine(request, load(ConfigSourceOf(request)).value)
      == Finished(History(Structured(result), List([]), actions, thoughts), agentId)
    ensures var e := Executed(PendingRecord(createdAt), request, load, engine, enc);
      && e.record.status == Completed
      && StatusName(e.record.status) == "completed"
      && e.record.finalResult == Some(enc.jsonDumps(result))
      && e.record.errors == Some("")
  {
  }

  /** When the context was never bound and the browser is not kept open,
      the finally block raises before closing the browser that was bound. */
  lemma BrowserLeaksWhenContextFails(cfg: Config)
    requires !KeepBrowserOpen(cfg)
    ensures Release(Some(cfg), BrowserOnly) == Cleanup([], Some("browser_context"))
  {
  }

  /** Nothing in execute_task looks at the current status: running it again
      on a completed record rewrites the record. */
  lemma NoTerminalGuard(
    rec: TaskRecord, request: TaskRequest,
    load: ConfigSource -> Result<Config, string>,
    engine: (TaskRequest, Config) -> EngineRun, enc: Encoders)
    requires rec.status == Completed
    requires load(ConfigSourceOf(request)).Err?
    ensures Executed(rec, request, load, engine, enc).record.status == Failed
  {
  }
}
