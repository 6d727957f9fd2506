/**
 * Worked examples of `parseDogStatsDTags` on concrete blocks. Each literal
 * computation sits in its own small lemma and the pieces are joined through
 * lemmas over variables.
 */
module TagsExamples {
  import opened Wrappers
  import opened Sanitizer
  import opened Domain
  import opened Tags

  /** The shape of the two items of the example block. */
  lemma TwoTagsShape(first: string, second: string, k1: string, v1: string, k2: string)
    requires first == "#tag:tag_value" && second == "another_tag:tag_value"
    requires k1 == "tag" && v1 == "tag_value" && k2 == "another_tag"
    ensures first == ['#'] + k1 + [':'] + v1 && second == k2 + [':'] + v1
    ensures '#' !in k1 + [':'] + v1 && '#' !in k2 + [':'] + v1
    ensures ',' !in first && ',' !in second
    ensures ':' !in k1 && ':' !in k2 && v1 != "" && k1 != k2
  {
  }

  /** The example block is its two items joined by `,`. */
  lemma TwoTagsBlock(component: string, first: string, second: string)
    requires first == "#tag:tag_value" && second == "another_tag:tag_value"
    requires component == "#tag:tag_value,another_tag:tag_value"
    ensures component == first + [','] + second
  {
  }

  /** The example block, over its pieces, decodes to its two tags. */
  lemma TwoTagsParts(component: string, first: string, second: string, k1: string, v1: string, k2: string)
    requires first == "#tag:tag_value" && second == "another_tag:tag_value"
    requires k1 == "tag" && v1 == "tag_value" && k2 == "another_tag"
    requires component == "#tag:tag_value,another_tag:tag_value"
    ensures ParseDogStatsDTags(component) == Ok(map[k1 := v1, k2 := v1])
  {
    FixedNames(k1, v1, k2);
    TwoTagsShape(first, second, k1, v1, k2);
    TwoFixedItems(first, second, k1, v1, k2, v1);
    TwoTagsBlock(component, first, second);
  }

  /** `#tag:tag_value,another_tag:tag_value` decodes to two tags. */
  lemma TwoTagsExample(component: string)
    requires component == "#tag:tag_value,another_tag:tag_value"
    ensures ParseDogStatsDTags(component) == Ok(map["tag" := "tag_value", "another_tag" := "tag_value"])
  {
    TwoTagsParts(component, "#tag:tag_value", "another_tag:tag_value", "tag", "tag_value", "another_tag");
  }

  /** The sanitiser turns the space of `a b` into `_`. */
  lemma SpacedKey(k: string)
    requires k == "a b"
    ensures Escape(k) == "a_b"
  {
    var r := ReplaceIllegal(k);
    assert !StartsWithDigit(k);
    assert forall i :: 0 <= i < 3 ==> r[i] == "a_b"[i];
  }

  /** The colliding block, cut into items, keys and values. */
  lemma CollisionShape(component: string, first: string, second: string, t1: string, t2: string,
                       k1: string, k2: string, v1: string, v2: string)
    requires component == "#a b:1,a_b:2" && first == "#a b:1" && second == "a_b:2"
    requires t1 == "a b:1" && t2 == "a_b:2" && k1 == "a b" && k2 == "a_b" && v1 == "1" && v2 == "2"
    ensures component == first + [','] + second && ',' !in first && ',' !in second
    ensures first == ['#'] + t1 && second == t2 && '#' !in t1 && '#' !in t2
    ensures t1 == k1 + [':'] + v1 && t2 == k2 + [':'] + v2
    ensures ':' !in k1 && ':' !in k2 && v1 != "" && v2 != ""
  {
  }

  /** `a b` and `a_b` sanitise to the same key. */
  lemma CollisionKeys(k1: string, k2: string)
    requires k1 == "a b" && k2 == "a_b"
    ensures Escape(k1) == Escape(k2)
  {
    SpacedKey(k1);
    EscapeFixedPoint(k2);
  }

  /** The colliding block, over its pieces, throws IllegalStateException. */
  lemma CollisionParts(component: string, first: string, second: string, t1: string, t2: string,
                       k1: string, k2: string, v1: string, v2: string)
    requires component == "#a b:1,a_b:2" && first == "#a b:1" && second == "a_b:2"
    requires t1 == "a b:1" && t2 == "a_b:2" && k1 == "a b" && k2 == "a_b" && v1 == "1" && v2 == "2"
    ensures ParseDogStatsDTags(component) == Err(IllegalState)
  {
    CollisionShape(component, first, second, t1, t2, k1, k2, v1, v2);
    DecodePlainItem(first, t1, k1, v1);
    DecodePlainItem(second, t2, k2, v2);
    CollisionKeys(k1, k2);
    CollidingItemsFail(component, first, second, (Escape(k1), Escape(v1)), (Escape(k2), Escape(v2)));
  }

  /** `#a b:1,a_b:2`: both keys sanitise to `a_b`, so the block throws IllegalStateException. */
  lemma CollidingKeysExample(component: string)
    requires component == "#a b:1,a_b:2"
    ensures ParseDogStatsDTags(component) == Err(IllegalState)
  {
    CollisionParts(component, "#a b:1", "a_b:2", "a b:1", "a_b:2", "a b", "a_b", "1", "2");
  }

  /** The block with a `:`-less item, cut into items, key and value. */
  lemma DroppedShape(component: string, first: string, second: string, t1: string, k: string, v: string)
    requires component == "#a,b:2" && first == "#a" && second == "b:2"
    requires t1 == "a" && k == "b" && v == "2"
    ensures component == first + [','] + second && ',' !in first && ',' !in second
    ensures first == ['#'] + t1 && '#' !in t1 && ':' !in t1
    ensures second == k + [':'] + v && '#' !in second && ':' !in k && v != ""
  {
  }

  /** `b` stays as it is and `2` becomes `digit_2`. */
  lemma DroppedNames(k: string, v: string)
    requires k == "b" && v == "2"
    ensures Escape(k) == "b" && Escape(v) == "digit_2"
  {
    EscapeFixedPoint(k);
    EscapeDigitLed(v);
  }

  /** The block with a `:`-less item, over its pieces: only `b` is kept. */
  lemma DroppedParts(component: string, first: string, second: string, t1: string, k: string, v: string)
    requires component == "#a,b:2" && first == "#a" && second == "b:2"
    requires t1 == "a" && k == "b" && v == "2"
    ensures ParseDogStatsDTags(component) == Ok(map["b" := "digit_2"])
  {
    DroppedShape(component, first, second, t1, k, v);
    DropPlainItem(first, t1);
    DecodePlainItem(second, second, k, v);
    DroppedNames(k, v);
    DroppedFirstItem(component, first, second, ("b", "digit_2"));
  }

  /** `#a,b:2`: the item without `:` is dropped and the digit-led value gains the prefix. */
  lemma DroppedItemExample(component: string)
    requires component == "#a,b:2"
    ensures ParseDogStatsDTags(component) == Ok(map["b" := "digit_2"])
  {
    DroppedParts(component, "#a", "b:2", "a", "b", "2");
  }
}
