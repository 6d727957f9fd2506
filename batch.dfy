/**
 * `map`: the batch pipeline. Each line is validated by `validLine` (outside
 * any try of its own), offered to `processable` by its raw name, processed
 * by `processLine`, and its events passed through `process`. The stream is
 * lazy, so the lines before a failing one have already sent their
 * self-metrics; any exception then ends the batch with one batch_error and
 * an empty result.
 */
module Batch {
  import opened Wrappers
  import opened Domain
  import opened LineParser

  /** The batch so far: the events collected and the self-metrics sent, or a batch ended by an exception. */
  datatype Outcome =
    | Completed(events: seq<Event>, diags: seq<Diagnostic>)
    | Aborted(diags: seq<Diagnostic>)

  /** `evs.stream().map(process).collect(toList())`: None when some call throws. */
  function ProcessEach(proc: Processor, evs: seq<Event>): (r: Option<seq<Event>>)
    ensures r.Some? <==> forall i :: 0 <= i < |evs| ==> proc.process(evs[i]).Some?
    ensures r.Some? ==> |r.value| == |evs| && forall i :: 0 <= i < |evs| ==> r.value[i] == proc.process(evs[i]).value
  {
    if evs == [] then Some([])
    else
      var init, last := evs[..|evs| - 1], evs[|evs| - 1];
      assert forall i :: 0 <= i < |init| ==> init[i] == evs[i];
      match ProcessEach(proc, init)
      case None => None
      case Some(done) =>
        match proc.process(last)
        case None => None
        case Some(e) => Some(done + [e])
  }

  /** One line through the whole pipeline. */
  function LineStep(p: Platform, proc: Processor, line: string): (r: Outcome)
    ensures ValidLine(line).Err? ==> r == Aborted([])
    ensures ValidLine(line).Ok? && proc.processable(ValidLine(line).value.0) == Some(false) ==> r == Completed([], [])
    ensures r.Completed? ==> |r.events| <= 1
    ensures r.diags != [] ==>
      ValidLine(line).Ok? && proc.processable(ValidLine(line).value.0) == Some(true) && r.diags == ParseLine(p, line).diags
  {
    match ValidLine(line)
    case Err(_) => Aborted([])
    case Ok(elements) =>
      match proc.processable(elements.0)
      case None => Aborted([])
      case Some(keep) =>
        if !keep then Completed([], [])
        else
          var lr := ParseLine(p, line);
          match ProcessEach(proc, lr.events)
          case None => Aborted(lr.diags)
          case Some(evs) => Completed(evs, lr.diags)
  }

  /** Once a call on a prefix throws, the whole list throws. */
  lemma ProcessEachFails(proc: Processor, evs: seq<Event>, k: int)
    requires 0 <= k <= |evs| && ProcessEach(proc, evs[..k]).None?
    ensures ProcessEach(proc, evs).None?
  {
  }

  /** The outcome of running `b` after `a`: an aborted batch runs nothing more. */
  function Then(a: Outcome, b: Outcome): Outcome
  {
    match a
    case Aborted(_) => a
    case Completed(e1, d1) =>
      match b
      case Completed(e2, d2) => Completed(e1 + e2, d1 + d2)
      case Aborted(d2) => Aborted(d1 + d2)
  }

  /** The outcomes in order, each run after the ones before it. */
  function Sequence(outs: seq<Outcome>): Outcome
  {
    if outs == [] then Completed([], [])
    else Then(Sequence(outs[..|outs| - 1]), outs[|outs| - 1])
  }

  /** What each line would do on its own. */
  function Outcomes(p: Platform, proc: Processor, lines: seq<string>): (outs: seq<Outcome>)
    ensures |outs| == |lines| && forall i :: 0 <= i < |lines| ==> outs[i] == LineStep(p, proc, lines[i])
  {
    seq(|lines|, i requires 0 <= i < |lines| => LineStep(p, proc, lines[i]))
  }

  /** The lazy stream over the lines, one line after the other. */
  function Stream(p: Platform, proc: Processor, lines: seq<string>): Outcome
  {
    Sequence(Outcomes(p, proc, lines))
  }

  /** `map`: the events returned and every self-metric sent, ending with batch_error when the batch failed. */
  function MapBatch(p: Platform, proc: Processor, lines: seq<string>): (r: Mapped)
    ensures lines == [] ==> r == Mapped([], [])
    ensures Stream(p, proc, lines).Aborted? ==> r.events == [] && |r.diags| >= 1 && r.diags[|r.diags| - 1] == BatchError
  {
    if lines == [] then Mapped([], [])
    else
      match Stream(p, proc, lines)
      case Completed(evs, diags) => Mapped(evs, diags)
      case Aborted(diags) => Mapped([], diags + [BatchError])
  }

  /** Running nothing first, or last, changes nothing. */
  lemma ThenIdentity(a: Outcome)
    ensures Then(Completed([], []), a) == a
    ensures Then(a, Completed([], [])) == a
  {
  }

  /** Sequencing outcomes is associative. */
  lemma ThenAssociative(a: Outcome, b: Outcome, c: Outcome)
    ensures Then(Then(a, b), c) == Then(a, Then(b, c))
  {
    if a.Completed? && b.Completed? && c.Completed? {
      assert (a.events + b.events) + c.events == a.events + (b.events + c.events);
      assert (a.diags + b.diags) + c.diags == a.diags + (b.diags + c.diags);
    } else if a.Completed? && b.Completed? {
      assert (a.diags + b.diags) + c.diags == a.diags + (b.diags + c.diags);
    }
  }

  /** A batch is its first part followed by the rest. */
  lemma {:induction false} SequenceAppend(a: seq<Outcome>, b: seq<Outcome>)
    ensures Sequence(a + b) == Then(Sequence(a), Sequence(b))
  {
    if b == [] {
      assert a + b == a;
      ThenIdentity(Sequence(a));
    } else {
      var init, last := b[..|b| - 1], b[|b| - 1];
      assert (a + b)[..|a + b| - 1] == a + init;
      assert (a + b)[|a + b| - 1] == last;
      SequenceAppend(a, init);
      ThenAssociative(Sequence(a), Sequence(init), last);
    }
  }

  /** The lines of a concatenation are the lines of each part. */
  lemma OutcomesAppend(p: Platform, proc: Processor, a: seq<string>, b: seq<string>)
    ensures Outcomes(p, proc, a + b) == Outcomes(p, proc, a) + Outcomes(p, proc, b)
  {
  }

  /** A batch of lines is the batch of its first part followed by the batch of the rest. */
  lemma StreamAppend(p: Platform, proc: Processor, a: seq<string>, b: seq<string>)
    ensures Stream(p, proc, a + b) == Then(Stream(p, proc, a), Stream(p, proc, b))
  {
    OutcomesAppend(p, proc, a, b);
    SequenceAppend(Outcomes(p, proc, a), Outcomes(p, proc, b));
  }

  /** The sequence fails exactly when some outcome is a failure. */
  lemma {:induction false} SequenceAborts(outs: seq<Outcome>)
    ensures Sequence(outs).Aborted? <==> exists i :: 0 <= i < |outs| && outs[i].Aborted?
  {
    if outs != [] {
      var init := outs[..|outs| - 1];
      SequenceAborts(init);
      if Sequence(init).Aborted? {
        var i :| 0 <= i < |init| && init[i].Aborted?;
        assert outs[i] == init[i];
      }
      if exists i :: 0 <= i < |outs| && outs[i].Aborted? {
        var i :| 0 <= i < |outs| && outs[i].Aborted?;
        if i < |init| {
          assert init[i] == outs[i];
        }
      }
    }
  }

  /** A self-metric no outcome sends is not sent by the sequence. */
  lemma {:induction false} SequenceDiagAbsent(outs: seq<Outcome>, d: Diagnostic)
    requires forall i :: 0 <= i < |outs| ==> d !in outs[i].diags
    ensures d !in Sequence(outs).diags
  {
    if outs != [] {
      SequenceDiagAbsent(outs[..|outs| - 1], d);
    }
  }

  /** Sequencing adds up the self-metrics and the events. */
  lemma ThenBounded(a: Outcome, b: Outcome)
    ensures |Then(a, b).diags| <= |a.diags| + |b.diags|
    ensures Then(a, b).Completed? ==> a.Completed? && b.Completed? && |Then(a, b).events| == |a.events| + |b.events|
  {
  }

  /** The sequence sends at most `n` self-metrics per outcome and returns at most `m` events per outcome. */
  lemma {:induction false} SequenceBounded(outs: seq<Outcome>, n: nat, m: nat)
    requires forall i :: 0 <= i < |outs| ==> |outs[i].diags| <= n
    requires forall i :: 0 <= i < |outs| && outs[i].Completed? ==> |outs[i].events| <= m
    ensures |Sequence(outs).diags| <= n * |outs|
    ensures Sequence(outs).Completed? ==> |Sequence(outs).events| <= m * |outs|
  {
    if outs != [] {
      var init, last := outs[..|outs| - 1], outs[|outs| - 1];
      assert forall i :: 0 <= i < |init| ==> init[i] == outs[i];
      SequenceBounded(init, n, m);
      assert n * |outs| == n * |init| + n;
      assert m * |outs| == m * |init| + m;
      ThenBounded(Sequence(init), last);
    }
  }

  /**
   * One line through the pipeline: at most one event and six self-metrics,
   * never batch_error, and never invalid_lines tagged
   * InvalidStatsDLineException (`validLine` has already passed when
   * `processLine` runs).
   */
  lemma LineStepBounded(p: Platform, proc: Processor, line: string)
    ensures var o := LineStep(p, proc, line);
      |o.diags| <= 6 && (o.Completed? ==> |o.events| <= 1) &&
      BatchError !in o.diags && InvalidLines(InvalidStatsDLine) !in o.diags
  {
    if LineStep(p, proc, line).diags != [] {
      LineSummary(p, line);
    }
  }

  /** The batch fails exactly when some line fails: `validLine`, `processable` or `process` throws. */
  lemma AbortIffSomeLineAborts(p: Platform, proc: Processor, lines: seq<string>)
    ensures Stream(p, proc, lines).Aborted? <==> exists i :: 0 <= i < |lines| && LineStep(p, proc, lines[i]).Aborted?
  {
    var outs := Outcomes(p, proc, lines);
    SequenceAborts(outs);
    if exists i :: 0 <= i < |lines| && LineStep(p, proc, lines[i]).Aborted? {
      var i :| 0 <= i < |lines| && LineStep(p, proc, lines[i]).Aborted?;
      assert outs[i].Aborted?;
    }
  }

  /**
   * A line that fails `validLine` (empty, without `:`, or with an empty
   * name) fails the whole batch: nothing is returned and batch_error is
   * the last self-metric.
   */
  lemma InvalidLineAbortsBatch(p: Platform, proc: Processor, lines: seq<string>, i: int)
    requires 0 <= i < |lines| && ValidLine(lines[i]).Err?
    ensures MapBatch(p, proc, lines).events == []
    ensures var d := MapBatch(p, proc, lines).diags; |d| >= 1 && d[|d| - 1] == BatchError
  {
    AbortIffSomeLineAborts(p, proc, lines);
    assert LineStep(p, proc, lines[i]).Aborted?;
  }

  /**
   * batch_error is sent exactly when the batch fails, and then once, as the
   * last self-metric, with nothing returned.
   */
  lemma BatchErrorIffAborted(p: Platform, proc: Processor, lines: seq<string>)
    requires lines != []
    ensures var r := MapBatch(p, proc, lines);
      (BatchError in r.diags <==> Stream(p, proc, lines).Aborted?) &&
      (Stream(p, proc, lines).Aborted? ==> r.events == [] && r.diags[|r.diags| - 1] == BatchError) &&
      multiset(r.diags)[BatchError] == (if Stream(p, proc, lines).Aborted? then 1 else 0)
  {
    var outs := Outcomes(p, proc, lines);
    forall i | 0 <= i < |outs|
      ensures BatchError !in outs[i].diags
    {
      LineStepBounded(p, proc, lines[i]);
    }
    SequenceDiagAbsent(outs, BatchError);
    var stream := Stream(p, proc, lines);
    assert multiset(stream.diags)[BatchError] == 0;
    if stream.Aborted? {
      assert MapBatch(p, proc, lines).diags == stream.diags + [BatchError];
      assert multiset(stream.diags + [BatchError]) == multiset(stream.diags) + multiset{BatchError};
    }
  }

  /**
   * `validLine` has already passed for every line `processLine` sees, so
   * the invalid_lines self-metric is never tagged InvalidStatsDLineException.
   */
  lemma InvalidStatsDLineNeverReported(p: Platform, proc: Processor, lines: seq<string>)
    ensures InvalidLines(InvalidStatsDLine) !in MapBatch(p, proc, lines).diags
  {
    var outs := Outcomes(p, proc, lines);
    forall i | 0 <= i < |outs|
      ensures InvalidLines(InvalidStatsDLine) !in outs[i].diags
    {
      LineStepBounded(p, proc, lines[i]);
    }
    SequenceDiagAbsent(outs, InvalidLines(InvalidStatsDLine));
  }

  /** A batch returns at most one event per line and sends at most six self-metrics per line plus one batch_error. */
  lemma SelfMetricsBounded(p: Platform, proc: Processor, lines: seq<string>)
    ensures |MapBatch(p, proc, lines).events| <= |lines|
    ensures |MapBatch(p, proc, lines).diags| <= 6 * |lines| + 1
  {
    var outs := Outcomes(p, proc, lines);
    forall i | 0 <= i < |outs|
      ensures |outs[i].diags| <= 6 && (outs[i].Completed? ==> |outs[i].events| <= 1)
    {
      LineStepBounded(p, proc, lines[i]);
    }
    SequenceBounded(outs, 6, 1);
  }

  /** Lines that yield nothing and send nothing can be dropped from a batch. */
  lemma EventlessLineIsTransparent(p: Platform, proc: Processor, a: seq<string>, line: string, b: seq<string>)
    requires LineStep(p, proc, line) == Completed([], [])
    ensures MapBatch(p, proc, a + [line] + b) == MapBatch(p, proc, a + b)
  {
    var oa, ob := Outcomes(p, proc, a), Outcomes(p, proc, b);
    OutcomesAppend(p, proc, a + [line], b);
    OutcomesAppend(p, proc, a, [line]);
    OutcomesAppend(p, proc, a, b);
    assert Outcomes(p, proc, [line]) == [Completed([], [])];
    SilentOutcomeIsTransparent(oa, ob);
    assert Stream(p, proc, a + [line] + b) == Stream(p, proc, a + b);
    if a + b == [] {
      assert a == [] && b == [];
      assert a + [line] + b == [line];
    }
  }

  /** An outcome with no events and no self-metrics can be dropped from a sequence. */
  lemma SilentOutcomeIsTransparent(x: seq<Outcome>, y: seq<Outcome>)
    ensures Sequence(x + [Completed([], [])] + y) == Sequence(x + y)
  {
    var silent := Completed([], []);
    SequenceAppend(x + [silent], y);
    SequenceAppend(x, [silent]);
    SequenceAppend(x, y);
    assert [silent][..0] == [];
    ThenIdentity(silent);
    ThenIdentity(Sequence(x));
  }

  /** A line the processor declines is silent: the batch is as if it were absent. */
  lemma SkippedLineIsSilent(p: Platform, proc: Processor, a: seq<string>, line: string, b: seq<string>)
    requires ValidLine(line).Ok? && proc.processable(ValidLine(line).value.0) == Some(false)
    ensures MapBatch(p, proc, a + [line] + b) == MapBatch(p, proc, a + b)
  {
    EventlessLineIsTransparent(p, proc, a, line, b);
  }

  /** The batch of the first `i + 1` lines is the batch of the first `i` followed by line `i`. */
  lemma StreamSnoc(p: Platform, proc: Processor, lines: seq<string>, i: int)
    requires 0 <= i < |lines|
    ensures Stream(p, proc, lines[..i + 1]) == Then(Stream(p, proc, lines[..i]), LineStep(p, proc, lines[i]))
  {
    var outs := Outcomes(p, proc, lines[..i + 1]);
    assert outs[..i] == Outcomes(p, proc, lines[..i]);
  }

  /** Once a prefix of the batch has failed, the rest of the lines change nothing. */
  lemma AbortedPrefixIsFinal(p: Platform, proc: Processor, lines: seq<string>, i: int)
    requires 0 <= i <= |lines| && Stream(p, proc, lines[..i]).Aborted?
    ensures Stream(p, proc, lines) == Stream(p, proc, lines[..i])
  {
    StreamAppend(p, proc, lines[..i], lines[i..]);
    assert lines[..i] + lines[i..] == lines;
  }

  /** A batch of one line without `:` returns nothing and sends only batch_error. */
  lemma LineWithoutColonAborts(p: Platform, proc: Processor, line: string)
    requires ':' !in line
    ensures MapBatch(p, proc, [line]) == Mapped([], [BatchError])
  {
    var outs := Outcomes(p, proc, [line]);
    assert outs == [Aborted([])];
    assert outs[..0] == [];
    assert Sequence(outs) == Then(Completed([], []), Aborted([]));
    assert [] + [BatchError] == [BatchError];
  }

  /** `bad.metric|c` has no `:`: the batch returns nothing and sends only batch_error. */
  lemma MissingColonExample(p: Platform, proc: Processor, line: string)
    requires line == "bad.metric|c"
    ensures MapBatch(p, proc, [line]) == Mapped([], [BatchError])
  {
    BadMetricHasNoColon(line);
    LineWithoutColonAborts(p, proc, line);
  }

  /** `bad.metric|c` holds no `:`. */
  lemma BadMetricHasNoColon(line: string)
    requires line == "bad.metric|c"
    ensures ':' !in line
  {
  }

  /** What `map` returns for a stream outcome: its events, or nothing when it failed. */
  function Returned(o: Outcome): seq<Event>
  {
    if o.Completed? then o.events else []
  }

  /** The events of the outcomes, in order. */
  function Flatten(outs: seq<Outcome>): seq<Event>
  {
    if outs == [] then [] else Flatten(outs[..|outs| - 1]) + Returned(outs[|outs| - 1])
  }

  /** A batch that completes returns the events of its lines, concatenated in line order. */
  lemma {:induction false} CompletedSequenceEvents(outs: seq<Outcome>)
    requires Sequence(outs).Completed?
    ensures Sequence(outs).events == Flatten(outs)
    ensures forall i :: 0 <= i < |outs| ==> outs[i].Completed?
  {
    if outs != [] {
      var init := outs[..|outs| - 1];
      assert Sequence(init).Completed?;
      CompletedSequenceEvents(init);
      assert forall i :: 0 <= i < |init| ==> init[i] == outs[i];
    }
  }

  /** The self-metrics of the outcomes, in order. */
  function FlattenDiags(outs: seq<Outcome>): seq<Diagnostic>
  {
    if outs == [] then [] else FlattenDiags(outs[..|outs| - 1]) + outs[|outs| - 1].diags
  }

  /** A batch that completes sends the self-metrics of its lines, concatenated in line order. */
  lemma {:induction false} CompletedSequenceDiags(outs: seq<Outcome>)
    requires Sequence(outs).Completed?
    ensures Sequence(outs).diags == FlattenDiags(outs)
  {
    if outs != [] {
      var init := outs[..|outs| - 1];
      assert Sequence(init).Completed?;
      CompletedSequenceDiags(init);
    }
  }

  /** One line that does not fail the batch passed `validLine` and `processable`, and carries the processed events of `processLine` when accepted. */
  lemma CompletedLineStep(p: Platform, proc: Processor, line: string)
    requires LineStep(p, proc, line).Completed?
    ensures ValidLine(line).Ok? && proc.processable(ValidLine(line).value.0).Some?
    ensures LineStep(p, proc, line).events ==
      if proc.processable(ValidLine(line).value.0).value
      then ProcessEach(proc, ParseLine(p, line).events).value
      else []
  {
  }

  /**
   * `map` over a batch that completes: the events of each line in order, a
   * line contributing `process` of its event when `processable` accepts its
   * raw name and nothing when it declines it.
   */
  lemma BatchIsConcatenation(p: Platform, proc: Processor, lines: seq<string>)
    requires Stream(p, proc, lines).Completed?
    ensures MapBatch(p, proc, lines).events == Flatten(Outcomes(p, proc, lines))
    ensures MapBatch(p, proc, lines).diags == FlattenDiags(Outcomes(p, proc, lines))
    ensures forall i :: 0 <= i < |lines| ==> LineStep(p, proc, lines[i]).Completed?
  {
    var outs := Outcomes(p, proc, lines);
    CompletedSequenceEvents(outs);
    CompletedSequenceDiags(outs);
  }

  /** `map` returns what its stream returns. */
  lemma MapBatchReturned(p: Platform, proc: Processor, lines: seq<string>)
    ensures MapBatch(p, proc, lines).events == Returned(Stream(p, proc, lines))
  {
    if lines == [] {
      assert Outcomes(p, proc, lines) == [];
    }
  }

  /** Running a step that completes without events between two parts returns what the two parts return. */
  lemma SilentStepReturned(x: Outcome, step: Outcome, y: Outcome)
    requires step.Completed? && step.events == []
    ensures Returned(Then(Then(x, step), y)) == Returned(Then(x, y))
  {
    if x.Completed? && y.Completed? {
      assert x.events + [] + y.events == x.events + y.events;
    }
  }

  /**
   * A line that yields nothing without failing the batch (processLine
   * caught its exception, or the type was unknown) leaves the events of the
   * other lines as they would be without it.
   */
  lemma LineFailureIsolated(p: Platform, proc: Processor, a: seq<string>, line: string, b: seq<string>)
    requires LineStep(p, proc, line).Completed? && LineStep(p, proc, line).events == []
    ensures MapBatch(p, proc, a + [line] + b).events == MapBatch(p, proc, a + b).events
  {
    var step := LineStep(p, proc, line);
    var sa, sb := Stream(p, proc, a), Stream(p, proc, b);
    StreamAppend(p, proc, a + [line], b);
    StreamAppend(p, proc, a, [line]);
    StreamOfOne(p, proc, line);
    assert Stream(p, proc, a + [line] + b) == Then(Then(sa, step), sb);
    StreamAppend(p, proc, a, b);
    SilentStepReturned(sa, step, sb);
    MapBatchReturned(p, proc, a + [line] + b);
    MapBatchReturned(p, proc, a + b);
  }

  /** A batch of one line is that line's step. */
  lemma StreamOfOne(p: Platform, proc: Processor, line: string)
    ensures Stream(p, proc, [line]) == LineStep(p, proc, line)
  {
    var step := LineStep(p, proc, line);
    var outs := Outcomes(p, proc, [line]);
    assert outs == [step];
    assert outs[..0] == [];
    assert Sequence(outs) == Then(Sequence([]), step);
    ThenIdentity(step);
  }

  /**
   * A line with a raw name the processor accepts but metadata that
   * `validLineMetadata` rejects (empty, or not two to four components) sends
   * one invalid_lines and leaves the events of the other lines unchanged.
   */
  lemma MalformedMetadataIsolated(p: Platform, proc: Processor, a: seq<string>, line: string, b: seq<string>)
    requires ValidLine(line).Ok? && ValidLineMetadata(ValidLine(line).value.1).Err?
    requires proc.processable(ValidLine(line).value.0) == Some(true)
    ensures LineStep(p, proc, line) == Completed([], [InvalidLines(ValidLineMetadata(ValidLine(line).value.1).error)])
    ensures MapBatch(p, proc, a + [line] + b).events == MapBatch(p, proc, a + b).events
  {
    InvalidLineReported(p, line);
    LineFailureIsolated(p, proc, a, line, b);
  }
}
