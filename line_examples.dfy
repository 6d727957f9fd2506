/**
 * Worked examples of `processLine` on concrete lines. Each literal
 * computation sits in its own small lemma and the pieces are joined through
 * lemmas over variables.
 */
module LineExamples {
  import opened Wrappers
  import opened Sanitizer
  import opened Domain
  import opened Tags
  import opened TagsExamples
  import opened LineParser

  /** The head of the glork line, cut at its separators. */
  lemma GlorkHead(head: string, name: string, value: string, statType: string, rate: string)
    requires head == "glork:320|ms|@0.1|"
    requires name == "glork" && value == "320" && statType == "ms" && rate == "0.1"
    ensures head == name + [':'] + value + ['|'] + statType + ['|', '@'] + rate + ['|']
  {
  }

  /** The glork line is its head followed by its tag block. */
  lemma GlorkSplit(line: string, head: string, block: string)
    requires line == "glork:320|ms|@0.1|#tag:tag_value,another_tag:tag_value"
    requires head == "glork:320|ms|@0.1|" && block == "#tag:tag_value,another_tag:tag_value"
    ensures line == head + block
  {
  }

  /** The glork line, cut into name, value, type, rate and tag block. */
  lemma GlorkText(line: string, name: string, value: string, statType: string, rate: string, block: string)
    requires line == "glork:320|ms|@0.1|#tag:tag_value,another_tag:tag_value"
    requires name == "glork" && value == "320" && statType == "ms" && rate == "0.1"
    requires block == "#tag:tag_value,another_tag:tag_value"
    ensures line == name + [':'] + value + ['|'] + statType + ['|', '@'] + rate + ['|'] + block
  {
    var head := "glork:320|ms|@0.1|";
    GlorkHead(head, name, value, statType, rate);
    GlorkSplit(line, head, block);
  }

  /** The pieces of the glork line carry no separator of their own. */
  lemma GlorkChars(name: string, value: string, statType: string, rate: string, block: string)
    requires name == "glork" && value == "320" && statType == "ms" && rate == "0.1"
    requires block == "#tag:tag_value,another_tag:tag_value"
    ensures name != "" && ':' !in name
    ensures '|' !in value && '|' !in statType && '|' !in rate && '|' !in block
    ensures statType != "" && block != "" && block[0] == '#'
  {
  }

  /** `glork` is already a canonical name. */
  lemma GlorkName(name: string)
    requires name == "glork"
    ensures Escape(name) == name
  {
    EscapeFixedPoint(name);
  }

  /** The glork line, over its pieces: one sampled, tagged timer event. */
  lemma GlorkParts(p: Platform, line: string, name: string, value: string, statType: string, rate: string, block: string)
    requires line == "glork:320|ms|@0.1|#tag:tag_value,another_tag:tag_value"
    requires name == "glork" && value == "320" && statType == "ms" && rate == "0.1"
    requires block == "#tag:tag_value,another_tag:tag_value"
    requires p.parseFloat(value) == Some(320.0) && p.parseFloat(rate) == Some(0.1) && statType in p.knownTypes
    ensures ParseLine(p, line) ==
      Mapped([Event(name, statType, 320.0, 0.1, map["tag" := "tag_value", "another_tag" := "tag_value"])], [ValidLines])
  {
    GlorkText(line, name, value, statType, rate, block);
    GlorkChars(name, value, statType, rate, block);
    TwoTagsExample(block);
    GlorkName(name);
    SampledTaggedLine(p, name, value, statType, rate, block);
  }

  /**
   * `glork:320|ms|@0.1|#tag:tag_value,another_tag:tag_value`, with `ms` a
   * MetricType, yields one timer event sampled at 0.1 with two tags and
   * sends only valid_lines.
   */
  lemma GlorkExample(p: Platform, line: string)
    requires line == "glork:320|ms|@0.1|#tag:tag_value,another_tag:tag_value"
    requires p.parseFloat("320") == Some(320.0) && p.parseFloat("0.1") == Some(0.1) && "ms" in p.knownTypes
    ensures ParseLine(p, line) ==
      Mapped([Event("glork", "ms", 320.0, 0.1, map["tag" := "tag_value", "another_tag" := "tag_value"])], [ValidLines])
  {
    GlorkParts(p, line, "glork", "320", "ms", "0.1", "#tag:tag_value,another_tag:tag_value");
  }

  /** `3users.online:5|c`, cut at its separators. */
  lemma DigitLineShape(line: string, name: string, value: string, statType: string)
    requires line == "3users.online:5|c" && name == "3users.online" && value == "5" && statType == "c"
    ensures line == name + [':'] + value + ['|'] + statType
    ensures name != "" && ':' !in name && '|' !in value && '|' !in statType && statType != ""
  {
  }

  /** `3users.online` starts with a digit and has only legal characters. */
  lemma DigitNameChars(name: string)
    requires name == "3users.online"
    ensures StartsWithDigit(name) && forall i :: 0 <= i < |name| ==> IsLegal(name[i])
  {
  }

  /** `digit_` followed by `3users.online` is `digit_3users.online`. */
  lemma DigitNameText(name: string, escaped: string)
    requires name == "3users.online" && escaped == "digit_3users.online"
    ensures DigitPrefix + name == escaped
  {
  }

  /** `3users.online` sanitises to `digit_3users.online`. */
  lemma DigitName(name: string, escaped: string)
    requires name == "3users.online" && escaped == "digit_3users.online"
    ensures Escape(name) == escaped
  {
    DigitNameChars(name);
    DigitNameText(name, escaped);
    EscapeDigitLed(name);
  }

  /** The digit-led line, over its pieces: one counter under the prefixed name. */
  lemma DigitLineParts(p: Platform, line: string, name: string, escaped: string, value: string, statType: string)
    requires line == "3users.online:5|c" && name == "3users.online" && value == "5" && statType == "c"
    requires escaped == "digit_3users.online"
    requires p.parseFloat(value) == Some(5.0) && statType in p.knownTypes
    ensures ParseLine(p, line) == Mapped([Event(escaped, statType, 5.0, 1.0, map[])], [ValidLines])
  {
    DigitLineShape(line, name, value, statType);
    DigitName(name, escaped);
    SimpleLine(p, name, value, statType);
  }

  /** `3users.online:5|c`, with `c` a MetricType, yields a counter named `digit_3users.online`. */
  lemma DigitNameLineExample(p: Platform, line: string)
    requires line == "3users.online:5|c"
    requires p.parseFloat("5") == Some(5.0) && "c" in p.knownTypes
    ensures ParseLine(p, line) == Mapped([Event("digit_3users.online", "c", 5.0, 1.0, map[])], [ValidLines])
  {
    DigitLineParts(p, line, "3users.online", "digit_3users.online", "5", "c");
  }
}
