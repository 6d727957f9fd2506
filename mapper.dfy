/**
 * The `DefaultMetricMapper` object: a metric platform, a mapping processor
 * and an optional Statful client. `processLine` and `map` run step by step
 * and send self-metrics as they go; each is proved to compute what
 * `ParseLine` and `MapBatch` specify.
 */
module Mapper {
  import opened Wrappers
  import opened Sanitizer
  import opened Domain
  import opened Tags
  import opened LineParser
  import opened Batch

  class DefaultMetricMapper {
    /** The MetricType enumeration and Float.parseFloat. */
    const platform: Platform
    /** The MappingProcessor given to the constructor. */
    const processor: Processor
    /** Whether a Statful client is set (`statfulClient != null`). */
    var client: bool
    /** Every self-metric the client has received, in order. */
    var selfMetrics: seq<Diagnostic>

    /** A mapper without a client. */
    constructor(platform: Platform, processor: Processor)
      ensures this.platform == platform && this.processor == processor
      ensures !client && selfMetrics == []
    {
      this.platform := platform;
      this.processor := processor;
      client := false;
      selfMetrics := [];
    }

    /** `setStatfulClient`: `present` is false for a null client. */
    method SetStatfulClient(present: bool)
      modifies this`client
      ensures client == present
    {
      client := present;
    }

    /** Sends one self-metric when a client is set. */
    method Record(d: Diagnostic)
      modifies this`selfMetrics
      ensures selfMetrics == old(selfMetrics) + Sent(client, [d])
    {
      if client {
        selfMetrics := selfMetrics + [d];
      }
    }

    /** `Float.parseFloat(valueStr)`, or 0 with a malformed_value self-metric. */
    method ParseValueOf(valueStr: string) returns (value: real)
      modifies this`selfMetrics
      ensures value == ParseValue(platform, valueStr).0
      ensures selfMetrics == old(selfMetrics) + Sent(client, ParseValue(platform, valueStr).1)
    {
      match platform.parseFloat(valueStr)
      case Some(v) =>
        value := v;
      case None =>
        value := 0.0;
        Record(MalformedValue);
    }

    /** The emptiness filter over the optional components: one malformed_value per empty one. */
    method FilterComponents(optional: seq<string>) returns (filtered: seq<string>)
      modifies this`selfMetrics
      ensures filtered == NonEmptyComponents(optional)
      ensures selfMetrics == old(selfMetrics) + Sent(client, Repeat(MalformedValue, EmptyCount(optional)))
    {
      filtered := [];
      ghost var start := selfMetrics;
      ghost var malformed: seq<Diagnostic> := [];
      var i := 0;
      while i < |optional|
        invariant 0 <= i <= |optional|
        invariant filtered == NonEmptyComponents(optional[..i])
        invariant malformed == Repeat(MalformedValue, EmptyCount(optional[..i]))
        invariant selfMetrics == start + Sent(client, malformed)
      {
        FilterStep(optional, i);
        if optional[i] == "" {
          Record(MalformedValue);
          SentAppend(start, client, malformed, [MalformedValue]);
          malformed := malformed + [MalformedValue];
        } else {
          filtered := filtered + [optional[i]];
        }
        i := i + 1;
      }
      assert optional[..i] == optional;
    }

    /**
     * One pass of the loop: the `switch` on the first character of
     * `component`, from sampling factor `factor`, tags `tags` and the
     * self-metrics `sent` so far.
     */
    method ScanComponent(statType: string, component: string, factor: real, tags: map<string, string>,
                         ghost sent: seq<Diagnostic>, ghost start: seq<Diagnostic>)
        returns (failure: Option<JavaException>, nextFactor: real, nextTags: map<string, string>,
                 ghost nextSent: seq<Diagnostic>)
      requires component != ""
      requires selfMetrics == start + Sent(client, sent)
      modifies this`selfMetrics
      ensures var next := ComponentStep(platform, statType, Scanning(factor, tags, sent), Classify(platform, component));
        selfMetrics == start + Sent(client, next.diags) &&
        (failure.Some? <==> next.TagFailure?) &&
        (next.TagFailure? ==> failure.value == next.error) &&
        (next.Scanning? ==> next == Scanning(nextFactor, nextTags, nextSent))
    {
      failure, nextFactor, nextTags, nextSent := None, factor, tags, sent;
      if component[0] == '@' {
        if statType !in platform.knownTypes {
          Record(IllegalMetricType);
          SentAppend(start, client, nextSent, [IllegalMetricType]);
          nextSent := nextSent + [IllegalMetricType];
        }
        match platform.parseFloat(component[1..])
        case Some(f) =>
          nextFactor := f;
        case None =>
          Record(InvalidSampleFactor);
          SentAppend(start, client, nextSent, [InvalidSampleFactor]);
          nextSent := nextSent + [InvalidSampleFactor];
      } else if component[0] == '#' {
        var decoded := ParseDogStatsDTags(component);
        if decoded.Err? {
          failure := Some(decoded.error);
        } else {
          nextTags := tags + decoded.value;
        }
      } else {
        Record(UnknownMetadataComponentType);
        SentAppend(start, client, sent, [UnknownMetadataComponentType]);
        nextSent := sent + [UnknownMetadataComponentType];
      }
    }

    /**
     * The loop over the non-empty components. A tag block that throws ends
     * the loop with its exception.
     */
    method ScanComponents(statType: string, filtered: seq<string>)
        returns (failure: Option<JavaException>, samplingFactor: real, tags: map<string, string>)
      requires AllNonEmpty(filtered)
      modifies this`selfMetrics
      ensures var s := RunComponents(platform, statType, Scanning(1.0, map[], []), Classified(platform, filtered));
        selfMetrics == old(selfMetrics) + Sent(client, s.diags) &&
        (failure.Some? <==> s.TagFailure?) &&
        (s.TagFailure? ==> failure.value == s.error) &&
        (s.Scanning? ==> samplingFactor == s.sampling && tags == s.tags)
    {
      failure, samplingFactor, tags := None, 1.0, map[];
      ghost var sent: seq<Diagnostic> := [];
      ghost var start := selfMetrics;
      var j := 0;
      while j < |filtered|
        invariant 0 <= j <= |filtered|
        invariant RunComponents(platform, statType, Scanning(1.0, map[], []), Classified(platform, filtered[..j]))
          == Scanning(samplingFactor, tags, sent)
        invariant selfMetrics == start + Sent(client, sent)
      {
        ScanStep(platform, statType, Scanning(1.0, map[], []), filtered, j);
        ghost var next := ComponentStep(platform, statType, Scanning(samplingFactor, tags, sent), Classify(platform, filtered[j]));
        assert RunComponents(platform, statType, Scanning(1.0, map[], []), Classified(platform, filtered[..j + 1])) == next;
        var thrown, nextFactor, nextTags;
        ghost var nextSent;
        thrown, nextFactor, nextTags, nextSent := ScanComponent(statType, filtered[j], samplingFactor, tags, sent, start);
        if thrown.Some? {
          assert next.TagFailure? && thrown.value == next.error;
          failure := thrown;
          assert Classified(platform, filtered[..j + 1]) == Classified(platform, filtered)[..j + 1];
          ScanAbortIsFinal(platform, statType, Scanning(1.0, map[], []), Classified(platform, filtered), j + 1);
          return;
        }
        assert next == Scanning(nextFactor, nextTags, nextSent);
        samplingFactor, tags, sent := nextFactor, nextTags, nextSent;
        j := j + 1;
      }
      assert filtered[..j] == filtered;
    }

    /**
     * `processLine`: the event the line yields, if any, with every
     * self-metric sent along the way, as `ParseLine` describes them.
     */
    method ProcessLine(line: string) returns (events: seq<Event>)
      modifies this`selfMetrics
      ensures events == ParseLine(platform, line).events
      ensures selfMetrics == old(selfMetrics) + Sent(client, ParseLine(platform, line).diags)
    {
      ghost var start := selfMetrics;
      var elements := ValidLine(line);
      if elements.Err? {
        Record(InvalidLines(elements.error));
        return [];
      }
      var metric := Escape(elements.value.0);
      var components := ValidLineMetadata(elements.value.1);
      if components.Err? {
        Record(InvalidLines(components.error));
        return [];
      }
      var cs := components.value;
      var valueStr, statType := cs[0], cs[1];
      assert ParseLine(platform, line) == ParseComponents(platform, metric, cs);

      var value := ParseValueOf(valueStr);
      var filtered := [];
      if |cs| >= 3 {
        filtered := FilterComponents(cs[2..]);
      } else {
        assert cs[2..] == [];
      }
      SentAppend(start, client, ParseValue(platform, valueStr).1, Repeat(MalformedValue, EmptyCount(cs[2..])));
      ghost var pre := PreScanDiags(platform, cs);
      assert selfMetrics == start + Sent(client, pre);

      var failure, samplingFactor, tags := ScanComponents(statType, filtered);
      ghost var scan := ScanOf(platform, cs);
      SentAppend(start, client, pre, scan.diags);
      if failure.Some? {
        Record(InvalidLines(failure.value));
        SentAppend(start, client, pre + scan.diags, [InvalidLines(failure.value)]);
        return [];
      }
      match BuildEvent(platform, statType, metric, value, samplingFactor, tags)
      case Ok(ev) =>
        events := [ev];
        Record(ValidLines);
        SentAppend(start, client, pre + scan.diags, [ValidLines]);
      case Err(_) =>
        events := [];
        Record(IllegalEvent);
        SentAppend(start, client, pre + scan.diags, [IllegalEvent]);
    }

    /** `evs.stream().map(process).collect(toList())`: None when some call throws. */
    method ProcessEvents(evs: seq<Event>) returns (processed: Option<seq<Event>>)
      ensures processed == ProcessEach(processor, evs)
    {
      var done: seq<Event> := [];
      var k := 0;
      while k < |evs|
        invariant 0 <= k <= |evs|
        invariant ProcessEach(processor, evs[..k]) == Some(done)
      {
        assert evs[..k + 1][..k] == evs[..k];
        match processor.process(evs[k])
        case None =>
          ProcessEachFails(processor, evs, k + 1);
          return None;
        case Some(e) =>
          done := done + [e];
        k := k + 1;
      }
      assert evs[..k] == evs;
      processed := Some(done);
    }

    /**
     * One line of the stream: the `processable` filter on its raw name,
     * `processLine` and `process`. `completed` is false when one of them
     * throws, which ends the batch.
     */
    method MapLine(line: string) returns (completed: bool, events: seq<Event>)
      modifies this`selfMetrics
      ensures completed <==> LineStep(platform, processor, line).Completed?
      ensures completed ==> events == LineStep(platform, processor, line).events
      ensures selfMetrics == old(selfMetrics) + Sent(client, LineStep(platform, processor, line).diags)
    {
      var elements := ValidLine(line);
      if elements.Err? {
        return false, [];
      }
      match processor.processable(elements.value.0)
      case None =>
        return false, [];
      case Some(keep) =>
        if !keep {
          return true, [];
        }
        var lineEvents := ProcessLine(line);
        var processed := ProcessEvents(lineEvents);
        match processed
        case None =>
          return false, [];
        case Some(evs) =>
          return true, evs;
    }

    /**
     * `map`: the events of every line in order, or nothing when any line
     * throws, after a batch_error self-metric.
     */
    method Map(lines: seq<string>) returns (events: seq<Event>)
      modifies this`selfMetrics
      ensures events == MapBatch(platform, processor, lines).events
      ensures selfMetrics == old(selfMetrics) + Sent(client, MapBatch(platform, processor, lines).diags)
    {
      if |lines| == 0 {
        return [];
      }
      ghost var start := selfMetrics;
      events := [];
      ghost var sent: seq<Diagnostic> := [];
      var i := 0;
      while i < |lines|
        invariant 0 <= i <= |lines|
        invariant Stream(platform, processor, lines[..i]) == Completed(events, sent)
        invariant selfMetrics == start + Sent(client, sent)
      {
        StreamSnoc(platform, processor, lines, i);
        ghost var step := LineStep(platform, processor, lines[i]);
        var completed, lineEvents := MapLine(lines[i]);
        SentAppend(start, client, sent, step.diags);
        if !completed {
          AbortedPrefixIsFinal(platform, processor, lines, i + 1);
          Record(BatchError);
          SentAppend(start, client, sent + step.diags, [BatchError]);
          return [];
        }
        events := events + lineEvents;
        sent := sent + step.diags;
        i := i + 1;
      }
      assert lines[..i] == lines;
    }
  }
}
