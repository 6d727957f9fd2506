/**
 * `processLine` and the checks it relies on: `validLine`, `validLineMetadata`,
 * `isNullOrEmpty` and `buildEvent`. `ParseLine` computes, for one line, the
 * event it adds (at most one) and the self-metrics the mapper sends while
 * processing it, in the order they are sent.
 */
module LineParser {
  import opened Wrappers
  import opened JavaStrings
  import opened Sanitizer
  import opened Domain
  import opened Tags

  /** `validLine`: the raw metric name and the metadata, cut at the first `:`. */
  function ValidLine(line: string): (r: Result<(string, string), JavaException>)
    ensures r.Ok? <==> ':' in line && line[0] != ':'
    ensures r.Ok? ==> line == r.value.0 + [':'] + r.value.1 && r.value.0 != "" && ':' !in r.value.0
    ensures r.Err? ==> r.error == (if line == "" then IllegalArgument else InvalidStatsDLine)
  {
    if line == "" then Err(IllegalArgument)
    else
      var elements := SplitFirst(line, ':');
      if |elements| < 2 || elements[0] == "" then Err(InvalidStatsDLine)
      else Ok((elements[0], elements[1]))
  }

  /** A non-empty, `:`-free name, a `:` and any metadata validate back to the two halves. */
  lemma ValidLineOf(name: string, metadata: string)
    requires name != "" && ':' !in name
    ensures ValidLine(name + [':'] + metadata) == Ok((name, metadata))
  {
    SplitFirstOf(name, ':', metadata);
  }

  /** `validLineMetadata`: the `|`-separated components, of which there must be two to four. */
  function ValidLineMetadata(metadata: string): (r: Result<seq<string>, JavaException>)
    ensures r.Ok? <==> metadata != "" && 2 <= |Split(metadata, '|')| <= 4
    ensures r.Ok? ==> r.value == Split(metadata, '|')
    ensures r.Ok? ==> '|' in metadata && 2 <= |r.value| <= 4 && r.value[|r.value| - 1] != ""
    ensures r.Ok? ==> forall k :: 0 <= k < |r.value| ==> '|' !in r.value[k]
    ensures r.Err? ==> r.error == (if metadata == "" then IllegalArgument else MalformedMetricComponent)
  {
    if metadata == "" then Err(IllegalArgument)
    else
      var components := Split(metadata, '|');
      if |components| < 2 || |components| > 4 then Err(MalformedMetricComponent)
      else Ok(components)
  }

  /** The accepted components, joined back with `|`, are the metadata up to trailing separators. */
  lemma MetadataRejoins(metadata: string)
    requires ValidLineMetadata(metadata).Ok?
    ensures var cs := ValidLineMetadata(metadata).value;
      Join(cs, '|') <= metadata &&
      forall k :: |Join(cs, '|')| <= k < |metadata| ==> metadata[k] == '|'
  {
    SplitLosesOnlyTrailingSeparators(metadata, '|');
  }

  /** Two to four `|`-free components, the last one non-empty, are accepted unchanged. */
  lemma ValidLineMetadataOf(cs: seq<string>)
    requires 2 <= |cs| <= 4 && cs[|cs| - 1] != ""
    requires forall k :: 0 <= k < |cs| ==> '|' !in cs[k]
    ensures ValidLineMetadata(Join(cs, '|')) == Ok(cs)
  {
    SplitOfJoin(cs, '|');
    JoinEndsWithLast(cs, '|');
  }

  /**
   * Trailing `|`s are dropped before counting: `a|b|`, with `a` and `b`
   * free of `|` and `b` non-empty, is accepted as the two components `a`, `b`.
   */
  lemma TrailingSeparatorDropped(a: string, b: string)
    requires '|' !in a && '|' !in b && b != ""
    ensures ValidLineMetadata(a + ['|'] + b + ['|']) == Ok([a, b])
  {
    var m := a + ['|'] + b + ['|'];
    JoinTwo(a, b);
    JoinOfThree(a, b, "");
    assert m == Join([a, b, ""], '|');
    PiecesOfJoin([a, b, ""], '|');
    assert m[|a|] == '|';
    var all := [a, b, ""];
    assert all[..2] == [a, b];
    assert DropTrailingEmpty(all) == DropTrailingEmpty([a, b]);
  }

  /** Three pieces join to `a|b|c`. */
  lemma JoinOfThree(a: string, b: string, c: string)
    ensures Join([a, b, c], '|') == a + ['|'] + b + ['|'] + c
  {
    assert [a, b, c][1..] == [b, c];
    JoinTwo(b, c);
  }

  /** Metadata made only of `|` has no components and is rejected. */
  lemma OnlySeparatorsRejected(metadata: string)
    requires metadata == "|||"
    ensures ValidLineMetadata(metadata) == Err(MalformedMetricComponent)
  {
    assert |Split(metadata, '|')| == 0 by {
      OnlySeparatorsSplit(metadata);
    }
  }

  /** `split` of a non-empty run of separators is empty. */
  lemma OnlySeparatorsSplit(s: string)
    requires s != [] && forall k :: 0 <= k < |s| ==> s[k] == '|'
    ensures Split(s, '|') == []
  {
    var parts := Split(s, '|');
    if parts != [] {
      var x := parts[|parts| - 1][0];
      JoinHasPiece(parts, '|', x);
      SplitLosesOnlyTrailingSeparators(s, '|');
      assert false;
    }
  }

  /** The join of some pieces holds every character of its last piece. */
  lemma {:induction false} JoinHasPiece(parts: seq<string>, sep: char, x: char)
    requires |parts| >= 1 && x in parts[|parts| - 1]
    ensures x in Join(parts, sep)
  {
    if |parts| > 1 {
      JoinHasPiece(parts[1..], sep, x);
    }
  }

  /** A join ends with its last piece, so it is non-empty when that piece is. */
  lemma {:induction false} JoinEndsWithLast(parts: seq<string>, sep: char)
    requires |parts| >= 1
    ensures |Join(parts, sep)| >= |parts[|parts| - 1]|
  {
    if |parts| > 1 {
      JoinEndsWithLast(parts[1..], sep);
    }
  }

  /** `buildEvent`: both strings must pass `isNullOrEmpty` and the type must be a MetricType. */
  function BuildEvent(p: Platform, metricType: string, metric: string, value: real, sampleRate: real,
                      tags: map<string, string>): (r: Result<Event, JavaException>)
    ensures r.Ok? <==> metric != "" && metricType != "" && metricType in p.knownTypes
    ensures r.Ok? ==> r.value == Event(metric, metricType, value, sampleRate, tags)
    ensures r.Err? ==> r.error == (if metric == "" || metricType == "" then IllegalArgument else UnknownMetricType)
  {
    if metric == "" || metricType == "" then Err(IllegalArgument)
    else if metricType !in p.knownTypes then Err(UnknownMetricType)
    else Ok(Event(metric, metricType, value, sampleRate, tags))
  }

  /** The optional components that pass the emptiness filter, in order. */
  function NonEmptyComponents(cs: seq<string>): (r: seq<string>)
    ensures |r| <= |cs|
    ensures forall k :: 0 <= k < |r| ==> r[k] != ""
    ensures forall c :: c in r <==> c in cs && c != ""
  {
    if cs == [] then []
    else
      var init, last := cs[..|cs| - 1], cs[|cs| - 1];
      assert cs == init + [last];
      NonEmptyComponents(init) + (if last == "" then [] else [last])
  }

  /** Filtering distributes over concatenation, so the kept components keep their order. */
  lemma {:induction false} NonEmptyComponentsAppend(a: seq<string>, b: seq<string>)
    ensures NonEmptyComponents(a + b) == NonEmptyComponents(a) + NonEmptyComponents(b)
  {
    if b == [] {
      assert a + b == a;
    } else {
      var init, last := b[..|b| - 1], b[|b| - 1];
      assert (a + b)[..|a + b| - 1] == a + init;
      assert (a + b)[|a + b| - 1] == last;
      NonEmptyComponentsAppend(a, init);
    }
  }

  /** A single component is kept exactly when it is non-empty. */
  lemma NonEmptyComponentsOne(c: string)
    ensures NonEmptyComponents([c]) == if c == "" then [] else [c]
  {
    assert [c][..0] == [];
  }

  /** How many optional components are empty; each sends one malformed_value self-metric. */
  function EmptyCount(cs: seq<string>): (n: nat)
    ensures n + |NonEmptyComponents(cs)| == |cs|
    ensures n == 0 <==> forall k :: 0 <= k < |cs| ==> cs[k] != ""
  {
    if cs == [] then 0
    else
      var init, last := cs[..|cs| - 1], cs[|cs| - 1];
      assert forall k :: 0 <= k < |init| ==> init[k] == cs[k];
      EmptyCount(init) + (if last == "" then 1 else 0)
  }

  /** `n` copies of the same self-metric. */
  function Repeat(d: Diagnostic, n: nat): (ds: seq<Diagnostic>)
    ensures |ds| == n && forall k :: 0 <= k < n ==> ds[k] == d
  {
    seq(n, _ => d)
  }

  /** One more optional component: the filter keeps it or counts it as empty. */
  lemma FilterStep(cs: seq<string>, i: int)
    requires 0 <= i < |cs|
    ensures NonEmptyComponents(cs[..i + 1]) == NonEmptyComponents(cs[..i]) + (if cs[i] == "" then [] else [cs[i]])
    ensures Repeat(MalformedValue, EmptyCount(cs[..i + 1])) ==
      Repeat(MalformedValue, EmptyCount(cs[..i])) + (if cs[i] == "" then [MalformedValue] else [])
  {
    assert cs[..i + 1][..i] == cs[..i];
  }

  /**
   * A non-empty optional component as the `switch` on its first character
   * reads it: `@` and the sampling factor `Float.parseFloat` makes of the
   * rest (None when it throws), `#` and what `parseDogStatsDTags` makes of
   * the whole component, or anything else.
   */
  datatype Component =
    | SampleFactor(factor: Option<real>)
    | TagBlock(decoded: Result<map<string, string>, JavaException>)
    | Unrecognised

  /** What the `switch` makes of one non-empty component. */
  function Classify(p: Platform, component: string): (k: Component)
    requires component != ""
    ensures k.SampleFactor? <==> component[0] == '@'
    ensures k.TagBlock? <==> component[0] == '#'
  {
    if component[0] == '@' then SampleFactor(p.parseFloat(component[1..]))
    else if component[0] == '#' then TagBlock(ParseDogStatsDTags(component))
    else Unrecognised
  }

  /** Every component is non-empty. */
  predicate AllNonEmpty(cs: seq<string>)
  {
    forall k :: 0 <= k < |cs| ==> cs[k] != ""
  }

  /** The components the loop runs over, each classified. */
  function Classified(p: Platform, cs: seq<string>): (ks: seq<Component>)
    requires AllNonEmpty(cs)
    ensures |ks| == |cs| && forall i :: 0 <= i < |cs| ==> ks[i] == Classify(p, cs[i])
  {
    seq(|cs|, i requires 0 <= i < |cs| => Classify(p, cs[i]))
  }

  /**
   * The state of the component loop: the sampling factor, the tags and the
   * self-metrics so far, or the exception a tag block threw (which leaves
   * the loop and the rest of the line).
   */
  datatype Scan =
    | Scanning(sampling: real, tags: map<string, string>, diags: seq<Diagnostic>)
    | TagFailure(diags: seq<Diagnostic>, error: JavaException)

  /** One pass of the loop: the branch of the `switch` for a classified component. */
  function ComponentStep(p: Platform, statType: string, st: Scan, k: Component): (r: Scan)
    ensures st.TagFailure? ==> r == st
    ensures r.TagFailure? <==> st.TagFailure? || (k.TagBlock? && k.decoded.Err?)
    ensures st.Scanning? ==> |st.diags| <= |r.diags| <= |st.diags| + 2 && r.diags[..|st.diags|] == st.diags
    ensures st.Scanning? && r.Scanning? ==>
      r.sampling == (if k.SampleFactor? && k.factor.Some? then k.factor.value else st.sampling) &&
      r.tags == (if k.TagBlock? then st.tags + k.decoded.value else st.tags)
  {
    match st
    case TagFailure(_, _) => st
    case Scanning(sampling, tags, diags) =>
      match k
      case SampleFactor(factor) =>
        var checked := if statType in p.knownTypes then diags else diags + [IllegalMetricType];
        if factor.Some? then Scanning(factor.value, tags, checked)
        else Scanning(sampling, tags, checked + [InvalidSampleFactor])
      case TagBlock(decoded) =>
        if decoded.Ok? then Scanning(sampling, tags + decoded.value, diags)
        else TagFailure(diags, decoded.error)
      case Unrecognised =>
        Scanning(sampling, tags, diags + [UnknownMetadataComponentType])
  }

  /** The loop over the components, from the state `st`. */
  function RunComponents(p: Platform, statType: string, st: Scan, ks: seq<Component>): (r: Scan)
    ensures r.Scanning? ==> st.Scanning?
  {
    if ks == [] then st
    else ComponentStep(p, statType, RunComponents(p, statType, st, ks[..|ks| - 1]), ks[|ks| - 1])
  }

  /** The sampling factor of the last `@` component whose number parses. */
  function LastSampleFactor(ks: seq<Component>): Option<real>
  {
    if ks == [] then None
    else
      var last := ks[|ks| - 1];
      if last.SampleFactor? && last.factor.Some? then last.factor
      else LastSampleFactor(ks[..|ks| - 1])
  }

  /** Every `#` component decoded without a repeated key. */
  predicate TagBlocksDecode(ks: seq<Component>)
  {
    forall i :: 0 <= i < |ks| && ks[i].TagBlock? ==> ks[i].decoded.Ok?
  }

  /** The maps of the `#` components that decoded, in order. */
  function TagMaps(ks: seq<Component>): seq<map<string, string>>
  {
    if ks == [] then []
    else
      var last := ks[|ks| - 1];
      TagMaps(ks[..|ks| - 1]) + (if last.TagBlock? && last.decoded.Ok? then [last.decoded.value] else [])
  }

  /** The maps merged in order with `putAll`: a later map overrides an earlier one. */
  function TagUnion(ms: seq<map<string, string>>): map<string, string>
  {
    if ms == [] then map[] else TagUnion(ms[..|ms| - 1]) + ms[|ms| - 1]
  }

  /** Running over `a + b` is running over `a`, then over `b` from where `a` left off. */
  lemma {:induction false} RunComponentsAppend(p: Platform, statType: string, st: Scan, a: seq<Component>, b: seq<Component>)
    ensures RunComponents(p, statType, st, a + b) == RunComponents(p, statType, RunComponents(p, statType, st, a), b)
  {
    if b == [] {
      assert a + b == a;
    } else {
      RunComponentsAppend(p, statType, st, a, b[..|b| - 1]);
      assert (a + b)[..|a + b| - 1] == a + b[..|b| - 1];
    }
  }

  /** Once a prefix of the components has aborted the loop, the rest are never looked at. */
  lemma ScanAbortIsFinal(p: Platform, statType: string, st: Scan, ks: seq<Component>, j: int)
    requires 0 <= j <= |ks| && RunComponents(p, statType, st, ks[..j]).TagFailure?
    ensures RunComponents(p, statType, st, ks) == RunComponents(p, statType, st, ks[..j])
  {
    var mid := RunComponents(p, statType, st, ks[..j]);
    RunComponentsAppend(p, statType, st, ks[..j], ks[j..]);
    assert ks[..j] + ks[j..] == ks;
    AbortedIsFinal(p, statType, mid.diags, mid.error, ks[j..]);
  }

  /** One more classified component: one more pass of the loop. */
  lemma ScanStep(p: Platform, statType: string, st: Scan, cs: seq<string>, j: int)
    requires AllNonEmpty(cs) && 0 <= j < |cs|
    ensures RunComponents(p, statType, st, Classified(p, cs[..j + 1])) ==
      ComponentStep(p, statType, RunComponents(p, statType, st, Classified(p, cs[..j])), Classify(p, cs[j]))
  {
    var ks := Classified(p, cs[..j + 1]);
    assert ks[..j] == Classified(p, cs[..j]);
  }

  /** A line aborted by a tag block stays aborted, whatever components follow. */
  lemma {:induction false} AbortedIsFinal(p: Platform, statType: string, diags: seq<Diagnostic>, e: JavaException, ks: seq<Component>)
    ensures RunComponents(p, statType, TagFailure(diags, e), ks) == TagFailure(diags, e)
  {
    if ks != [] {
      AbortedIsFinal(p, statType, diags, e, ks[..|ks| - 1]);
    }
  }

  /** The loop finishes exactly when every `#` component decodes; otherwise it ends with the first failure's exception. */
  lemma {:induction false} ScanCompletesIffTagsDecode(p: Platform, statType: string, st: Scan, ks: seq<Component>)
    requires st.Scanning?
    ensures RunComponents(p, statType, st, ks).Scanning? <==> TagBlocksDecode(ks)
    ensures RunComponents(p, statType, st, ks).TagFailure? ==>
      exists i :: 0 <= i < |ks| && ks[i].TagBlock? && ks[i].decoded == Err(RunComponents(p, statType, st, ks).error)
  {
    if ks != [] {
      var init := ks[..|ks| - 1];
      ScanCompletesIffTagsDecode(p, statType, st, init);
      assert forall i :: 0 <= i < |init| ==> init[i] == ks[i];
      var mid := RunComponents(p, statType, st, init);
      if mid.TagFailure? {
        var i :| 0 <= i < |init| && init[i].TagBlock? && init[i].decoded == Err(mid.error);
        assert ks[i] == init[i];
      }
    }
  }

  /** After the loop, the sampling factor is the last one that parsed, or the starting one. */
  lemma {:induction false} SamplingIsLastFactor(p: Platform, statType: string, st: Scan, ks: seq<Component>)
    requires st.Scanning?
    requires RunComponents(p, statType, st, ks).Scanning?
    ensures RunComponents(p, statType, st, ks).sampling == LastSampleFactor(ks).GetOr(st.sampling)
  {
    if ks != [] {
      var init := ks[..|ks| - 1];
      if RunComponents(p, statType, st, init).Scanning? {
        SamplingIsLastFactor(p, statType, st, init);
      }
    }
  }

  /** The tag maps of one more component. */
  lemma TagMapsSnoc(ks: seq<Component>)
    requires ks != []
    ensures var last := ks[|ks| - 1];
      TagMaps(ks) == TagMaps(ks[..|ks| - 1]) + (if last.TagBlock? && last.decoded.Ok? then [last.decoded.value] else [])
  {
  }

  /** Merging one more map. */
  lemma TagUnionSnoc(ms: seq<map<string, string>>, m: map<string, string>)
    ensures TagUnion(ms + [m]) == TagUnion(ms) + m
  {
    assert (ms + [m])[..|ms|] == ms;
  }

  /** One pass of the loop that does not abort merges in the block it decodes, if any. */
  lemma StepTags(p: Platform, statType: string, st: Scan, k: Component)
    requires st.Scanning? && ComponentStep(p, statType, st, k).Scanning?
    ensures ComponentStep(p, statType, st, k).tags ==
      if k.TagBlock? && k.decoded.Ok? then st.tags + k.decoded.value else st.tags
  {
  }

  /** Merging with `putAll` is associative. */
  lemma MergeAssociative(a: map<string, string>, b: map<string, string>, c: map<string, string>)
    ensures (a + b) + c == a + (b + c)
  {
  }

  /** Merging the blocks of one more component into `base`: the new block, if any, goes last. */
  lemma UnionAfterBlock(base: map<string, string>, ks: seq<Component>)
    requires ks != []
    ensures var last := ks[|ks| - 1];
      base + TagUnion(TagMaps(ks)) ==
        if last.TagBlock? && last.decoded.Ok? then (base + TagUnion(TagMaps(ks[..|ks| - 1]))) + last.decoded.value
        else base + TagUnion(TagMaps(ks[..|ks| - 1]))
  {
    var init, last := ks[..|ks| - 1], ks[|ks| - 1];
    TagMapsSnoc(ks);
    var ms := TagMaps(init);
    if last.TagBlock? && last.decoded.Ok? {
      var m := last.decoded.value;
      assert TagMaps(ks) == ms + [m];
      TagUnionSnoc(ms, m);
      MergeAssociative(base, TagUnion(ms), m);
    } else {
      assert TagMaps(ks) == ms;
    }
  }

  /** After the loop, the tags are the starting tags with every decoded block merged in order. */
  lemma {:induction false} TagsAreMergedBlocks(p: Platform, statType: string, st: Scan, ks: seq<Component>)
    requires st.Scanning?
    requires RunComponents(p, statType, st, ks).Scanning?
    ensures RunComponents(p, statType, st, ks).tags == st.tags + TagUnion(TagMaps(ks))
  {
    if ks != [] {
      var init, last := ks[..|ks| - 1], ks[|ks| - 1];
      var mid := RunComponents(p, statType, st, init);
      assert RunComponents(p, statType, st, ks) == ComponentStep(p, statType, mid, last);
      if mid.Scanning? {
        TagsAreMergedBlocks(p, statType, st, init);
        StepTags(p, statType, mid, last);
        UnionAfterBlock(st.tags, ks);
      }
    }
  }

  /** A key is merged in exactly when some block holds it. */
  lemma {:induction false} TagUnionKeys(ms: seq<map<string, string>>, k: string)
    ensures k in TagUnion(ms) <==> exists i :: 0 <= i < |ms| && k in ms[i]
  {
    if ms != [] {
      var init := ms[..|ms| - 1];
      TagUnionKeys(init, k);
      if k in TagUnion(ms) && k !in ms[|ms| - 1] {
        var i :| 0 <= i < |init| && k in init[i];
        assert ms[i] == init[i];
      }
      if exists i :: 0 <= i < |ms| && k in ms[i] {
        var i :| 0 <= i < |ms| && k in ms[i];
        if i < |ms| - 1 {
          assert init[i] == ms[i];
        }
      }
    }
  }

  /** A key takes its value from the last block that holds it. */
  lemma {:induction false} LaterTagBlockWins(ms: seq<map<string, string>>, i: int, k: string)
    requires 0 <= i < |ms| && k in ms[i]
    requires forall j :: i < j < |ms| ==> k !in ms[j]
    ensures k in TagUnion(ms) && TagUnion(ms)[k] == ms[i][k]
  {
    if i < |ms| - 1 {
      var init := ms[..|ms| - 1];
      LaterTagBlockWins(init, i, k);
    }
  }

  /** Every key and value is canonical, and no value is empty. */
  predicate SanitizedTags(m: map<string, string>)
  {
    forall k :: k in m ==> IsCanonical(k) && IsCanonical(m[k]) && m[k] != ""
  }

  /** Every tag block that decoded holds sanitised tags. */
  predicate BlocksSanitized(ks: seq<Component>)
  {
    forall i :: 0 <= i < |ks| && ks[i].TagBlock? && ks[i].decoded.Ok? ==> SanitizedTags(ks[i].decoded.value)
  }

  /** Classified components come from `parseDogStatsDTags`, whose maps are sanitised. */
  lemma ClassifiedBlocksSanitized(p: Platform, cs: seq<string>)
    requires AllNonEmpty(cs)
    ensures BlocksSanitized(Classified(p, cs))
  {
    var ks := Classified(p, cs);
    forall i | 0 <= i < |ks| && ks[i].TagBlock? && ks[i].decoded.Ok?
      ensures SanitizedTags(ks[i].decoded.value)
    {
      TagsAreSanitized(cs[i]);
    }
  }

  /** Merging two sanitised maps gives a sanitised map. */
  lemma SanitizedUnion(a: map<string, string>, b: map<string, string>)
    requires SanitizedTags(a) && SanitizedTags(b)
    ensures SanitizedTags(a + b)
  {
  }

  /** Merging sanitised blocks gives sanitised tags. */
  lemma {:induction false} MergedTagsAreSanitized(ks: seq<Component>)
    requires BlocksSanitized(ks)
    ensures SanitizedTags(TagUnion(TagMaps(ks)))
  {
    if ks != [] {
      var init, last := ks[..|ks| - 1], ks[|ks| - 1];
      assert forall i :: 0 <= i < |init| ==> init[i] == ks[i];
      assert BlocksSanitized(init);
      MergedTagsAreSanitized(init);
      TagMapsSnoc(ks);
      var ms := TagMaps(init);
      if last.TagBlock? && last.decoded.Ok? {
        TagUnionSnoc(ms, last.decoded.value);
        assert SanitizedTags(last.decoded.value);
        SanitizedUnion(TagUnion(ms), last.decoded.value);
      } else {
        assert TagMaps(ks) == ms + [] == ms;
      }
    }
  }

  /** The loop only appends self-metrics, at most two per component. */
  lemma {:induction false} ScanDiagsAppendOnly(p: Platform, statType: string, st: Scan, ks: seq<Component>)
    requires st.Scanning?
    ensures var d := RunComponents(p, statType, st, ks).diags;
      |st.diags| <= |d| <= |st.diags| + 2 * |ks| && d[..|st.diags|] == st.diags
  {
    if ks != [] {
      var init := ks[..|ks| - 1];
      ScanDiagsAppendOnly(p, statType, st, init);
      var mid := RunComponents(p, statType, st, init);
      if mid.Scanning? {
        var d := RunComponents(p, statType, st, ks).diags;
        assert d[..|mid.diags|] == mid.diags;
        assert d[..|st.diags|] == mid.diags[..|st.diags|];
      }
    }
  }

  /** The value and the self-metric `Float.parseFloat(valueStr)` leads to. */
  function ParseValue(p: Platform, valueStr: string): (r: (real, seq<Diagnostic>))
    ensures r.1 == [] <==> p.parseFloat(valueStr).Some?
    ensures r.1 != [] ==> r.1 == [MalformedValue]
    ensures r.0 == p.parseFloat(valueStr).GetOr(0.0)
  {
    match p.parseFloat(valueStr)
    case Some(v) => (v, [])
    case None => (0.0, [MalformedValue])
  }

  /** The self-metrics sent before the loop: a bad value, then one per empty optional component. */
  function PreScanDiags(p: Platform, cs: seq<string>): seq<Diagnostic>
    requires |cs| >= 2
  {
    ParseValue(p, cs[0]).1 + Repeat(MalformedValue, EmptyCount(cs[2..]))
  }

  /** The loop as `processLine` runs it: over the non-empty optional components, from sampling factor 1 and no tags. */
  function ScanOf(p: Platform, cs: seq<string>): Scan
    requires |cs| >= 2
  {
    var optional := NonEmptyComponents(cs[2..]);
    RunComponents(p, cs[1], Scanning(1.0, map[], []), Classified(p, optional))
  }

  /** `processLine` once the metadata is split: the event of `metric` and the self-metrics sent. */
  function ParseComponents(p: Platform, metric: string, cs: seq<string>): (r: Mapped)
    requires |cs| >= 2
    ensures |r.events| <= 1 && |r.diags| >= 1
    ensures |r.events| == 1 <==> r.diags[|r.diags| - 1] == ValidLines
  {
    var value := ParseValue(p, cs[0]).0;
    var pre := PreScanDiags(p, cs);
    match ScanOf(p, cs)
    case TagFailure(d, e) => Mapped([], pre + d + [InvalidLines(e)])
    case Scanning(sampling, tags, d) =>
      match BuildEvent(p, cs[1], metric, value, sampling, tags)
      case Ok(ev) => Mapped([ev], pre + d + [ValidLines])
      case Err(_) => Mapped([], pre + d + [IllegalEvent])
  }

  /**
   * `processLine`: the events it adds and the self-metrics it sends. A line
   * that fails `validLine` or `validLineMetadata` sends one invalid_lines
   * tagged with the exception and adds nothing.
   */
  function ParseLine(p: Platform, line: string): (r: Mapped)
    ensures |r.events| <= 1 && |r.diags| >= 1
    ensures |r.events| == 1 <==> r.diags[|r.diags| - 1] == ValidLines
    ensures r.events != [] ==> ValidLine(line).Ok? && ValidLineMetadata(ValidLine(line).value.1).Ok?
  {
    match ValidLine(line)
    case Err(e) => Rejected(e)
    case Ok(elements) =>
      match ValidLineMetadata(elements.1)
      case Err(e) => Rejected(e)
      case Ok(cs) => ParseComponents(p, Escape(elements.0), cs)
  }

  /** What a line rejected with `e` by a validation yields: no event and one invalid_lines tagged with `e`. */
  function Rejected(e: JavaException): (r: Mapped)
    ensures r.events == [] && r.diags == [InvalidLines(e)]
    ensures r.diags[|r.diags| - 1] != ValidLines
  {
    Mapped([], [InvalidLines(e)])
  }

  /** A line rejected by `validLine` or `validLineMetadata` adds nothing and sends one invalid_lines tagged with the exception. */
  lemma InvalidLineReported(p: Platform, line: string)
    requires ValidLine(line).Err? || ValidLineMetadata(ValidLine(line).value.1).Err?
    ensures ParseLine(p, line).events == []
    ensures ValidLine(line).Err? ==> ParseLine(p, line).diags == [InvalidLines(ValidLine(line).error)]
    ensures ValidLine(line).Ok? ==> ParseLine(p, line).diags == [InvalidLines(ValidLineMetadata(ValidLine(line).value.1).error)]
  {
  }

  /** The components the loop of `processLine` runs over, once the metadata is split into `cs`. */
  function LoopComponents(p: Platform, cs: seq<string>): seq<Component>
    requires |cs| >= 2
  {
    Classified(p, NonEmptyComponents(cs[2..]))
  }

  /** `map[]` merged with `m` is `m`. */
  lemma EmptyUnion(m: map<string, string>)
    ensures map[] + m == m
  {
  }

  /**
   * The event of a line: the sanitised name, the type token, the parsed
   * value (0 when it does not parse), the last sampling factor that parsed
   * (1 when none did) and the tag blocks merged in order, all sanitised.
   */
  lemma EventFields(p: Platform, line: string)
    requires ParseLine(p, line).events != []
    ensures ValidLine(line).Ok? && ValidLineMetadata(ValidLine(line).value.1).Ok?
    ensures var name := ValidLine(line).value.0;
      var cs := ValidLineMetadata(ValidLine(line).value.1).value;
      var ks := LoopComponents(p, cs);
      var ev := ParseLine(p, line).events[0];
      ev.name == Escape(name) && IsCanonical(ev.name) &&
      ev.metricType == cs[1] && ev.metricType in p.knownTypes &&
      ev.value == p.parseFloat(cs[0]).GetOr(0.0) &&
      ev.sampleRate == LastSampleFactor(ks).GetOr(1.0) &&
      ev.tags == TagUnion(TagMaps(ks)) && SanitizedTags(ev.tags)
  {
    var name := ValidLine(line).value.0;
    var cs := ValidLineMetadata(ValidLine(line).value.1).value;
    var optional := NonEmptyComponents(cs[2..]);
    var ks := Classified(p, optional);
    var start := Scanning(1.0, map[], []);
    SamplingIsLastFactor(p, cs[1], start, ks);
    TagsAreMergedBlocks(p, cs[1], start, ks);
    EmptyUnion(TagUnion(TagMaps(ks)));
    ClassifiedBlocksSanitized(p, optional);
    MergedTagsAreSanitized(ks);
    EscapeIsCanonical(name);
  }

  /**
   * A bad value, a bad or misplaced sampling factor and an unknown
   * component are only reported: a line yields its event exactly when it
   * passes both validations, every tag block decodes and the type is a
   * MetricType.
   */
  lemma RecoverableErrorsKeepEvent(p: Platform, line: string)
    ensures ParseLine(p, line).events != [] <==>
      ValidLine(line).Ok? && ValidLineMetadata(ValidLine(line).value.1).Ok? &&
      var cs := ValidLineMetadata(ValidLine(line).value.1).value;
      TagBlocksDecode(LoopComponents(p, cs)) && cs[1] != "" && cs[1] in p.knownTypes
  {
    if ValidLine(line).Ok? && ValidLineMetadata(ValidLine(line).value.1).Ok? {
      var cs := ValidLineMetadata(ValidLine(line).value.1).value;
      ScanCompletesIffTagsDecode(p, cs[1], Scanning(1.0, map[], []), LoopComponents(p, cs));
    }
  }

  /** The classified components decode exactly when every `#` component of the text does. */
  lemma TagBlocksDecodeOfText(p: Platform, cs: seq<string>)
    requires AllNonEmpty(cs)
    ensures TagBlocksDecode(Classified(p, cs)) <==>
      forall i :: 0 <= i < |cs| && cs[i][0] == '#' ==> ParseDogStatsDTags(cs[i]).Ok?
  {
  }

  /**
   * The self-metrics for a bad value and for each empty optional component
   * are sent first, in that order, and a line sends at most six self-metrics.
   */
  lemma LineDiagnosticsBounded(p: Platform, line: string)
    ensures |ParseLine(p, line).diags| <= 6
    ensures ValidLine(line).Ok? && ValidLineMetadata(ValidLine(line).value.1).Ok? ==>
      var cs := ValidLineMetadata(ValidLine(line).value.1).value;
      var pre := PreScanDiags(p, cs);
      |pre| <= |ParseLine(p, line).diags| && ParseLine(p, line).diags[..|pre|] == pre
  {
    var v := ValidLine(line);
    if v.Ok? {
      var m := ValidLineMetadata(v.value.1);
      if m.Ok? {
        assert ParseLine(p, line) == ParseComponents(p, Escape(v.value.0), m.value);
        ComponentsDiagnosticsBounded(p, Escape(v.value.0), m.value);
      }
    }
  }

  /** Once the metadata is split: at most six self-metrics, the pre-loop ones first. */
  lemma ComponentsDiagnosticsBounded(p: Platform, metric: string, cs: seq<string>)
    requires 2 <= |cs| <= 4
    ensures var d := ParseComponents(p, metric, cs).diags;
      var pre := PreScanDiags(p, cs);
      |d| <= 6 && |pre| <= |d| && d[..|pre|] == pre
  {
    var pre := PreScanDiags(p, cs);
    var ks := LoopComponents(p, cs);
    ScanDiagsAppendOnly(p, cs[1], Scanning(1.0, map[], []), ks);
    ComponentsDiags(p, metric, cs);
    var d := ParseComponents(p, metric, cs).diags;
    assert d[..|d| - 1][..|pre|] == pre;
  }

  /** Two components join to `a|b`. */
  lemma JoinTwo(a: string, b: string)
    ensures Join([a, b], '|') == a + ['|'] + b
  {
    assert [a, b][1..] == [b];
  }

  /** Four components join to `a|b|c|d`. */
  lemma JoinFour(a: string, b: string, c: string, d: string)
    ensures Join([a, b, c, d], '|') == a + ['|'] + b + ['|'] + c + ['|'] + d
  {
    assert [a, b, c, d][1..] == [b, c, d];
    assert [b, c, d][1..] == [c, d];
    JoinTwo(c, d);
  }

  /** A line built from a valid name and valid components is processed from those components. */
  lemma ParseLineOf(p: Platform, name: string, cs: seq<string>)
    requires name != "" && ':' !in name
    requires 2 <= |cs| <= 4 && cs[|cs| - 1] != ""
    requires forall k :: 0 <= k < |cs| ==> '|' !in cs[k]
    ensures ParseLine(p, name + [':'] + Join(cs, '|')) == ParseComponents(p, Escape(name), cs)
  {
    ValidLineMetadataOf(cs);
    ValidLineOf(name, Join(cs, '|'));
  }

  /** Just a value and a type: no loop runs. */
  lemma TwoComponents(p: Platform, metric: string, value: string, statType: string)
    requires metric != "" && statType != ""
    ensures var valueDiags := if p.parseFloat(value).None? then [MalformedValue] else [];
      ParseComponents(p, metric, [value, statType]) ==
        if statType in p.knownTypes
        then Mapped([Event(metric, statType, p.parseFloat(value).GetOr(0.0), 1.0, map[])], valueDiags + [ValidLines])
        else Mapped([], valueDiags + [IllegalEvent])
  {
    assert [value, statType][2..] == [];
  }

  /** `name:value|type`: the event with sampling factor 1 and no tags, when the type is known. */
  lemma SimpleLine(p: Platform, name: string, value: string, statType: string)
    requires name != "" && ':' !in name
    requires '|' !in value && '|' !in statType && statType != ""
    ensures var valueDiags := if p.parseFloat(value).None? then [MalformedValue] else [];
      ParseLine(p, name + [':'] + value + ['|'] + statType) ==
        if statType in p.knownTypes
        then Mapped([Event(Escape(name), statType, p.parseFloat(value).GetOr(0.0), 1.0, map[])], valueDiags + [ValidLines])
        else Mapped([], valueDiags + [IllegalEvent])
  {
    LineOfTwo(p, name, value, statType);
    TwoComponents(p, Escape(name), value, statType);
  }

  /** `name:value|type` is processed from its two components. */
  lemma LineOfTwo(p: Platform, name: string, value: string, statType: string)
    requires name != "" && ':' !in name
    requires '|' !in value && '|' !in statType && statType != ""
    ensures ParseLine(p, name + [':'] + value + ['|'] + statType) == ParseComponents(p, Escape(name), [value, statType])
  {
    ParseLineOf(p, name, [value, statType]);
    LineTextOfTwo(name, value, statType);
  }

  /** A two-component line is its name, `:` and the components joined by `|`. */
  lemma LineTextOfTwo(name: string, value: string, statType: string)
    ensures name + [':'] + value + ['|'] + statType == name + [':'] + Join([value, statType], '|')
  {
    JoinTwo(value, statType);
  }

  /** The two optional components of a sampled, tagged line, classified. */
  lemma TwoOptional(p: Platform, rate: string, block: string)
    requires block != "" && block[0] == '#'
    ensures NonEmptyComponents([['@'] + rate, block]) == [['@'] + rate, block]
    ensures EmptyCount([['@'] + rate, block]) == 0
    ensures Classified(p, [['@'] + rate, block]) == [SampleFactor(p.parseFloat(rate)), TagBlock(ParseDogStatsDTags(block))]
  {
    var cs := [['@'] + rate, block];
    assert cs[..1] == [['@'] + rate];
    assert cs[..1][..0] == [];
    assert (['@'] + rate)[1..] == rate;
  }

  /** The loop over a known-type sampling factor followed by a tag block that decodes. */
  lemma SampleThenTags(p: Platform, statType: string, factor: Option<real>, m: map<string, string>)
    requires statType in p.knownTypes
    ensures RunComponents(p, statType, Scanning(1.0, map[], []), [SampleFactor(factor), TagBlock(Ok(m))]) ==
      Scanning(factor.GetOr(1.0), m, if factor.None? then [InvalidSampleFactor] else [])
  {
    var ks := [SampleFactor(factor), TagBlock(Ok(m))];
    var st := Scanning(1.0, map[], []);
    var s1 := ComponentStep(p, statType, st, SampleFactor(factor));
    assert RunComponents(p, statType, st, ks[..1]) == s1 by {
      assert ks[..1][..0] == [];
    }
    assert RunComponents(p, statType, st, ks) == ComponentStep(p, statType, s1, TagBlock(Ok(m)));
    EmptyUnion(m);
  }

  /** Value, known type, sampling factor and a tag block that decodes. */
  lemma FourComponents(p: Platform, metric: string, value: string, statType: string, rate: string, block: string)
    requires metric != "" && statType != "" && statType in p.knownTypes
    requires block != "" && block[0] == '#' && ParseDogStatsDTags(block).Ok?
    ensures ParseComponents(p, metric, [value, statType, ['@'] + rate, block]) ==
      Mapped([Event(metric, statType, p.parseFloat(value).GetOr(0.0), p.parseFloat(rate).GetOr(1.0),
                    ParseDogStatsDTags(block).value)],
             (if p.parseFloat(value).None? then [MalformedValue] else []) +
             (if p.parseFloat(rate).None? then [InvalidSampleFactor] else []) + [ValidLines])
  {
    FourComponentsScan(p, value, statType, rate, block);
    var factor := p.parseFloat(rate);
    var m := ParseDogStatsDTags(block).value;
    assert BuildEvent(p, statType, metric, p.parseFloat(value).GetOr(0.0), factor.GetOr(1.0), m)
      == Ok(Event(metric, statType, p.parseFloat(value).GetOr(0.0), factor.GetOr(1.0), m));
  }

  /** The self-metrics before the loop and the loop's result for a sampling factor followed by a tag block that decodes. */
  lemma FourComponentsScan(p: Platform, value: string, statType: string, rate: string, block: string)
    requires statType in p.knownTypes
    requires block != "" && block[0] == '#' && ParseDogStatsDTags(block).Ok?
    ensures var cs := [value, statType, ['@'] + rate, block];
      var factor := p.parseFloat(rate);
      PreScanDiags(p, cs) == (if p.parseFloat(value).None? then [MalformedValue] else []) &&
      ScanOf(p, cs) == Scanning(factor.GetOr(1.0), ParseDogStatsDTags(block).value,
                                if factor.None? then [InvalidSampleFactor] else [])
  {
    var cs := [value, statType, ['@'] + rate, block];
    var optional := [['@'] + rate, block];
    assert cs[2..] == optional;
    TwoOptional(p, rate, block);
    FourComponentsPreScan(p, cs, optional);
    var ks := Classified(p, optional);
    assert ScanOf(p, cs) == RunComponents(p, statType, Scanning(1.0, map[], []), ks);
    SampleThenTags(p, statType, p.parseFloat(rate), ParseDogStatsDTags(block).value);
  }

  /** With no empty optional component, only a bad value is reported before the loop. */
  lemma FourComponentsPreScan(p: Platform, cs: seq<string>, optional: seq<string>)
    requires |cs| >= 2 && cs[2..] == optional && EmptyCount(optional) == 0
    ensures PreScanDiags(p, cs) == (if p.parseFloat(cs[0]).None? then [MalformedValue] else [])
  {
    assert Repeat(MalformedValue, 0) == [];
  }

  /**
   * `name:value|type|@rate|#tags` with a known type and a tag block that
   * decodes: one event carrying the parsed rate (1 when it does not parse)
   * and the decoded tags.
   */
  lemma SampledTaggedLine(p: Platform, name: string, value: string, statType: string, rate: string, block: string)
    requires name != "" && ':' !in name
    requires '|' !in value && '|' !in statType && '|' !in rate && '|' !in block
    requires statType != "" && statType in p.knownTypes
    requires block != "" && block[0] == '#' && ParseDogStatsDTags(block).Ok?
    ensures ParseLine(p, name + [':'] + value + ['|'] + statType + ['|', '@'] + rate + ['|'] + block) ==
      Mapped([Event(Escape(name), statType, p.parseFloat(value).GetOr(0.0), p.parseFloat(rate).GetOr(1.0),
                    ParseDogStatsDTags(block).value)],
             (if p.parseFloat(value).None? then [MalformedValue] else []) +
             (if p.parseFloat(rate).None? then [InvalidSampleFactor] else []) + [ValidLines])
  {
    LineOfFour(p, name, value, statType, rate, block);
    FourComponents(p, Escape(name), value, statType, rate, block);
  }

  /** `name:value|type|@rate|#tags` is processed from its four components. */
  lemma LineOfFour(p: Platform, name: string, value: string, statType: string, rate: string, block: string)
    requires name != "" && ':' !in name
    requires '|' !in value && '|' !in statType && '|' !in rate && '|' !in block && block != ""
    ensures ParseLine(p, name + [':'] + value + ['|'] + statType + ['|', '@'] + rate + ['|'] + block) ==
      ParseComponents(p, Escape(name), [value, statType, ['@'] + rate, block])
  {
    var sample := ['@'] + rate;
    assert '|' !in sample;
    ParseLineOf(p, name, [value, statType, sample, block]);
    LineTextOfFour(name, value, statType, rate, block);
  }

  /** A four-component line is its name, `:` and the components joined by `|`. */
  lemma LineTextOfFour(name: string, value: string, statType: string, rate: string, block: string)
    ensures name + [':'] + value + ['|'] + statType + ['|', '@'] + rate + ['|'] + block ==
      name + [':'] + Join([value, statType, ['@'] + rate, block], '|')
  {
    JoinFour(value, statType, ['@'] + rate, block);
  }

  /** The self-metrics the value check, the emptiness filter and the component loop can send. */
  predicate IsScanDiag(d: Diagnostic)
  {
    d == MalformedValue || d == IllegalMetricType || d == InvalidSampleFactor || d == UnknownMetadataComponentType
  }

  /** Every self-metric is one the loop can send. */
  predicate AllScanDiags(ds: seq<Diagnostic>)
  {
    forall i :: 0 <= i < |ds| ==> IsScanDiag(ds[i])
  }

  /** One pass of the loop sends only metadata_errors self-metrics. */
  lemma StepDiagKinds(p: Platform, statType: string, st: Scan, k: Component)
    requires AllScanDiags(st.diags)
    ensures AllScanDiags(ComponentStep(p, statType, st, k).diags)
  {
  }

  /** The loop sends only metadata_errors self-metrics. */
  lemma {:induction false} ScanDiagKinds(p: Platform, statType: string, st: Scan, ks: seq<Component>)
    requires AllScanDiags(st.diags)
    ensures AllScanDiags(RunComponents(p, statType, st, ks).diags)
  {
    if ks != [] {
      var init := ks[..|ks| - 1];
      ScanDiagKinds(p, statType, st, init);
      StepDiagKinds(p, statType, RunComponents(p, statType, st, init), ks[|ks| - 1]);
    }
  }

  /** How many components fall to the `default` branch. */
  function UnrecognisedCount(ks: seq<Component>): (n: nat)
    ensures n <= |ks|
    ensures n == 0 <==> forall i :: 0 <= i < |ks| ==> !ks[i].Unrecognised?
  {
    if ks == [] then 0
    else
      var init := ks[..|ks| - 1];
      assert forall i :: 0 <= i < |init| ==> init[i] == ks[i];
      UnrecognisedCount(init) + (if ks[|ks| - 1].Unrecognised? then 1 else 0)
  }

  /** How many components are `@` sampling factors, whether or not their number parses. */
  function SampleCount(ks: seq<Component>): (n: nat)
    ensures n <= |ks|
    ensures n == 0 <==> forall i :: 0 <= i < |ks| ==> !ks[i].SampleFactor?
  {
    if ks == [] then 0
    else
      var init := ks[..|ks| - 1];
      assert forall i :: 0 <= i < |init| ==> init[i] == ks[i];
      SampleCount(init) + (if ks[|ks| - 1].SampleFactor? then 1 else 0)
  }

  /** How many `@` components carry a number that does not parse. */
  function BadFactorCount(ks: seq<Component>): (n: nat)
    ensures n <= SampleCount(ks)
    ensures n == 0 <==> forall i :: 0 <= i < |ks| ==> !(ks[i].SampleFactor? && ks[i].factor.None?)
  {
    if ks == [] then 0
    else
      var init := ks[..|ks| - 1];
      assert forall i :: 0 <= i < |init| ==> init[i] == ks[i];
      BadFactorCount(init) + (if ks[|ks| - 1].SampleFactor? && ks[|ks| - 1].factor.None? then 1 else 0)
  }

  /**
   * A loop that runs to the end sends one unknown_metadata_component_type
   * per unrecognised component, one invalid_sample_factor per `@` whose
   * number does not parse, one illegal_metric_type per `@` when the metric
   * type is not a known one (and none when it is), and nothing else.
   */
  lemma {:induction false} ScanDiagCounts(p: Platform, statType: string, st: Scan, ks: seq<Component>)
    requires RunComponents(p, statType, st, ks).Scanning?
    ensures var before, after := multiset(st.diags), multiset(RunComponents(p, statType, st, ks).diags);
      after[UnknownMetadataComponentType] == before[UnknownMetadataComponentType] + UnrecognisedCount(ks) &&
      after[InvalidSampleFactor] == before[InvalidSampleFactor] + BadFactorCount(ks) &&
      after[IllegalMetricType] == before[IllegalMetricType] + (if statType in p.knownTypes then 0 else SampleCount(ks)) &&
      forall d :: d !in {UnknownMetadataComponentType, InvalidSampleFactor, IllegalMetricType} ==> after[d] == before[d]
  {
    if ks != [] {
      var init := ks[..|ks| - 1];
      ScanDiagCounts(p, statType, st, init);
      StepDiagCounts(p, statType, RunComponents(p, statType, st, init), ks[|ks| - 1]);
    }
  }

  /** What one pass of the loop adds to the self-metrics, kind by kind. */
  lemma StepDiagCounts(p: Platform, statType: string, st: Scan, k: Component)
    requires ComponentStep(p, statType, st, k).Scanning?
    ensures var before, after := multiset(st.diags), multiset(ComponentStep(p, statType, st, k).diags);
      after[UnknownMetadataComponentType] == before[UnknownMetadataComponentType] + (if k.Unrecognised? then 1 else 0) &&
      after[InvalidSampleFactor] == before[InvalidSampleFactor] + (if k.SampleFactor? && k.factor.None? then 1 else 0) &&
      after[IllegalMetricType] == before[IllegalMetricType] + (if k.SampleFactor? && statType !in p.knownTypes then 1 else 0) &&
      forall d :: d !in {UnknownMetadataComponentType, InvalidSampleFactor, IllegalMetricType} ==> after[d] == before[d]
  {
  }

  /** A tag block of the text can only fail with toMap's IllegalStateException. */
  lemma ClassifiedTagErrors(p: Platform, cs: seq<string>)
    requires AllNonEmpty(cs)
    ensures var ks := Classified(p, cs);
      forall i :: 0 <= i < |ks| && ks[i].TagBlock? && ks[i].decoded.Err? ==> ks[i].decoded.error == IllegalState
  {
  }

  /**
   * Once the metadata is split, the self-metrics are the pre-loop ones, the
   * loop's, and one verdict: invalid_lines with the tag block's exception,
   * valid_lines or illegal_event.
   */
  lemma ComponentsDiags(p: Platform, metric: string, cs: seq<string>)
    requires |cs| >= 2
    ensures var d := ParseComponents(p, metric, cs).diags;
      var scan := ScanOf(p, cs);
      |d| >= 1 && d[..|d| - 1] == PreScanDiags(p, cs) + scan.diags &&
      (scan.TagFailure? ==> d[|d| - 1] == InvalidLines(scan.error)) &&
      (scan.Scanning? ==> d[|d| - 1] == ValidLines || d[|d| - 1] == IllegalEvent)
  {
    var pre := PreScanDiags(p, cs);
    var scan := ScanOf(p, cs);
    var d := ParseComponents(p, metric, cs).diags;
    assert d == pre + scan.diags + [d[|d| - 1]];
    assert (pre + scan.diags + [d[|d| - 1]])[..|d| - 1] == pre + scan.diags;
  }

  /** The value check and the emptiness filter send only metadata_errors self-metrics. */
  lemma PreScanDiagKinds(p: Platform, cs: seq<string>)
    requires |cs| >= 2
    ensures AllScanDiags(PreScanDiags(p, cs))
  {
  }

  /** Two logs of metadata_errors self-metrics concatenate to one. */
  lemma AllScanDiagsAppend(a: seq<Diagnostic>, b: seq<Diagnostic>)
    requires AllScanDiags(a) && AllScanDiags(b)
    ensures AllScanDiags(a + b)
  {
  }

  /** Once the metadata is split, a line sends neither batch_error nor invalid_lines tagged InvalidStatsDLineException. */
  lemma ComponentsDiagKinds(p: Platform, metric: string, cs: seq<string>)
    requires |cs| >= 2
    ensures BatchError !in ParseComponents(p, metric, cs).diags
    ensures InvalidLines(InvalidStatsDLine) !in ParseComponents(p, metric, cs).diags
  {
    var scan := ScanOf(p, cs);
    var d := ParseComponents(p, metric, cs).diags;
    ComponentsDiags(p, metric, cs);
    PreScanDiagKinds(p, cs);
    ScanOfDiagKinds(p, cs);
    AllScanDiagsAppend(PreScanDiags(p, cs), scan.diags);
    if scan.TagFailure? {
      ScanFailsWithIllegalState(p, cs);
    }
    VerdictAfterScanDiags(d[..|d| - 1], d[|d| - 1]);
    assert d == d[..|d| - 1] + [d[|d| - 1]];
  }

  /** The loop of `processLine` sends only metadata_errors self-metrics. */
  lemma ScanOfDiagKinds(p: Platform, cs: seq<string>)
    requires |cs| >= 2
    ensures AllScanDiags(ScanOf(p, cs).diags)
  {
    ScanDiagKinds(p, cs[1], Scanning(1.0, map[], []), LoopComponents(p, cs));
  }

  /** The loop of `processLine` can only be ended by toMap's IllegalStateException. */
  lemma ScanFailsWithIllegalState(p: Platform, cs: seq<string>)
    requires |cs| >= 2 && ScanOf(p, cs).TagFailure?
    ensures ScanOf(p, cs).error == IllegalState
  {
    var ks := LoopComponents(p, cs);
    ScanCompletesIffTagsDecode(p, cs[1], Scanning(1.0, map[], []), ks);
    ClassifiedTagErrors(p, NonEmptyComponents(cs[2..]));
  }

  /** metadata_errors self-metrics and a verdict other than batch_error or invalid_lines(InvalidStatsDLineException). */
  lemma VerdictAfterScanDiags(ds: seq<Diagnostic>, verdict: Diagnostic)
    requires AllScanDiags(ds) && verdict != BatchError && verdict != InvalidLines(InvalidStatsDLine)
    ensures BatchError !in ds + [verdict] && InvalidLines(InvalidStatsDLine) !in ds + [verdict]
  {
    assert forall i :: 0 <= i < |ds + [verdict]| ==> (ds + [verdict])[i] == (if i < |ds| then ds[i] else verdict);
  }

  /**
   * A line never sends batch_error, and a line that passes `validLine` never
   * sends invalid_lines tagged InvalidStatsDLineException.
   */
  lemma LineDiagKinds(p: Platform, line: string)
    ensures BatchError !in ParseLine(p, line).diags
    ensures ValidLine(line).Ok? ==> InvalidLines(InvalidStatsDLine) !in ParseLine(p, line).diags
  {
    if ValidLine(line).Ok? && ValidLineMetadata(ValidLine(line).value.1).Ok? {
      var cs := ValidLineMetadata(ValidLine(line).value.1).value;
      ComponentsDiagKinds(p, Escape(ValidLine(line).value.0), cs);
    }
  }

  /** What the batch needs of one line: at most one event and six self-metrics, and only the self-metrics a line can send. */
  lemma LineSummary(p: Platform, line: string)
    ensures var r := ParseLine(p, line);
      |r.events| <= 1 && |r.diags| <= 6 && BatchError !in r.diags &&
      (ValidLine(line).Ok? ==> InvalidLines(InvalidStatsDLine) !in r.diags)
  {
    LineDiagnosticsBounded(p, line);
    LineDiagKinds(p, line);
  }
}
