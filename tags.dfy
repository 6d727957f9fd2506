/**
 * `parseDogStatsDTags`: a `#`-block is split on `,`; each item loses every
 * `#` and is cut at its first `:`; an item without `:` or with an empty value
 * is dropped; keys and values are sanitised and collected with
 * `Collectors.toMap`, which throws IllegalStateException on a repeated key.
 */
module Tags {
  import opened Wrappers
  import opened JavaStrings
  import opened Sanitizer
  import opened Domain

  /** One item of the block: its key and value, or None when it is dropped. */
  function TagItem(item: string): (kv: Option<(string, string)>)
    ensures var t := RemoveAll(item, '#');
      kv.None? <==> (':' !in t || IndexOf(t, ':') == |t| - 1)
    ensures kv.Some? ==>
      RemoveAll(item, '#') == kv.value.0 + [':'] + kv.value.1 && ':' !in kv.value.0 && kv.value.1 != ""
  {
    var t := RemoveAll(item, '#');
    var kv := SplitFirst(t, ':');
    if |kv| < 2 then None
    else
      IndexOfAfter(kv[0], ':', kv[1]);
      if kv[1] == "" then None else Some((kv[0], kv[1]))
  }

  /** An item whose `#`-free text is `k:v` with a `:`-free key and a non-empty value yields `(k, v)`. */
  lemma TagItemOf(item: string, k: string, v: string)
    requires RemoveAll(item, '#') == k + [':'] + v
    requires ':' !in k && v != ""
    ensures TagItem(item) == Some((k, v))
  {
    SplitFirstOf(k, ':', v);
  }

  /** Both halves of a kept item through the sanitiser. */
  function Sanitized(kv: (string, string)): (string, string)
  {
    (Escape(kv.0), Escape(kv.1))
  }

  /** One item as it enters `toMap`: its sanitised pair, or None when it is dropped. */
  function DecodeItem(item: string): (d: Option<(string, string)>)
    ensures d.Some? ==> IsCanonical(d.value.0) && IsCanonical(d.value.1) && d.value.1 != ""
  {
    match TagItem(item)
    case None => None
    case Some(kv) => Some(Sanitized(kv))
  }

  /** The present values, in order (the `filter(kv -> kv.length != 0)` step). */
  function Somes<T>(xs: seq<Option<T>>): (r: seq<T>)
    ensures |r| <= |xs|
  {
    if xs == [] then []
    else (if xs[0].Some? then [xs[0].value] else []) + Somes(xs[1..])
  }

  /** A value is kept exactly when some entry holds it. */
  lemma {:induction false} SomesMembers<T>(xs: seq<Option<T>>, p: T)
    ensures p in Somes(xs) <==> Some(p) in xs
  {
    if xs != [] {
      SomesMembers(xs[1..], p);
      assert xs == [xs[0]] + xs[1..];
    }
  }

  /** Every item of the block as it enters the filter. */
  function Decoded(items: seq<string>): (ds: seq<Option<(string, string)>>)
    ensures |ds| == |items|
    ensures forall i :: 0 <= i < |items| ==> ds[i] == DecodeItem(items[i])
  {
    seq(|items|, i requires 0 <= i < |items| => DecodeItem(items[i]))
  }

  /** The sanitised pairs of the kept items, in item order. */
  function KeptPairs(items: seq<string>): (pairs: seq<(string, string)>)
    ensures |pairs| <= |items|
  {
    Somes(Decoded(items))
  }

  /** A pair is kept exactly when some item decodes to it. */
  lemma KeptPairsMembers(items: seq<string>, p: (string, string))
    ensures p in KeptPairs(items) <==> Some(p) in Decoded(items)
  {
    SomesMembers(Decoded(items), p);
  }

  /** No key occurs twice. */
  predicate DistinctKeys(pairs: seq<(string, string)>)
  {
    forall i, j :: 0 <= i < j < |pairs| ==> pairs[i].0 != pairs[j].0
  }

  /** `Collectors.toMap`: a map of the pairs, or IllegalStateException on a repeated key. */
  function ToMap(pairs: seq<(string, string)>): (r: Result<map<string, string>, JavaException>)
    ensures r.Err? ==> r.error == IllegalState
  {
    if pairs == [] then Ok(map[])
    else
      match ToMap(pairs[1..])
      case Err(e) => Err(e)
      case Ok(m) =>
        if pairs[0].0 in m then Err(IllegalState)
        else Ok(m[pairs[0].0 := pairs[0].1])
  }

  /**
   * `toMap` succeeds exactly when the keys are distinct, and then the map
   * holds every pair and nothing else.
   */
  lemma {:induction false} ToMapContents(pairs: seq<(string, string)>)
    ensures ToMap(pairs).Ok? <==> DistinctKeys(pairs)
    ensures ToMap(pairs).Ok? ==> forall i :: 0 <= i < |pairs| ==>
      pairs[i].0 in ToMap(pairs).value && ToMap(pairs).value[pairs[i].0] == pairs[i].1
    ensures ToMap(pairs).Ok? ==> forall k :: k in ToMap(pairs).value ==>
      exists i :: 0 <= i < |pairs| && pairs[i] == (k, ToMap(pairs).value[k])
  {
    if pairs != [] {
      var rest := pairs[1..];
      ToMapContents(rest);
      assert forall i :: 1 <= i < |pairs| ==> pairs[i] == rest[i - 1];
      if ToMap(rest).Ok? {
        var m := ToMap(rest).value;
        if pairs[0].0 in m {
          var i :| 0 <= i < |rest| && rest[i] == (pairs[0].0, m[pairs[0].0]);
          assert pairs[i + 1].0 == pairs[0].0;
        } else {
          forall i, j | 0 <= i < j < |pairs|
            ensures pairs[i].0 != pairs[j].0
          {
            if i > 0 {
              assert rest[i - 1].0 != rest[j - 1].0;
            } else {
              assert rest[j - 1].0 in m;
            }
          }
          var r := ToMap(pairs).value;
          forall k | k in r
            ensures exists i :: 0 <= i < |pairs| && pairs[i] == (k, r[k])
          {
            if k != pairs[0].0 {
              var i :| 0 <= i < |rest| && rest[i] == (k, m[k]);
              assert pairs[i + 1] == (k, r[k]);
            }
          }
        }
      } else {
        var i, j :| 0 <= i < j < |rest| && rest[i].0 == rest[j].0;
        assert pairs[i + 1].0 == pairs[j + 1].0;
      }
    }
  }

  /** `parseDogStatsDTags`. */
  function ParseDogStatsDTags(component: string): (r: Result<map<string, string>, JavaException>)
    ensures r.Err? ==> r.error == IllegalState
  {
    ToMap(KeptPairs(Split(component, ',')))
  }

  /** A block decodes exactly when no two kept items share a sanitised key. */
  lemma TagsDecodeIffDistinctKeys(component: string)
    ensures ParseDogStatsDTags(component).Ok? <==> DistinctKeys(KeptPairs(Split(component, ',')))
  {
    ToMapContents(KeptPairs(Split(component, ',')));
  }

  /** Every key and value of a decoded block is canonical, and every value is non-empty. */
  lemma TagsAreSanitized(component: string)
    requires ParseDogStatsDTags(component).Ok?
    ensures var m := ParseDogStatsDTags(component).value;
      forall k :: k in m ==> IsCanonical(k) && IsCanonical(m[k]) && m[k] != ""
  {
    var items := Split(component, ',');
    var pairs := KeptPairs(items);
    var m := ParseDogStatsDTags(component).value;
    ToMapContents(pairs);
    forall k | k in m
      ensures IsCanonical(k) && IsCanonical(m[k]) && m[k] != ""
    {
      var j :| 0 <= j < |pairs| && pairs[j] == (k, m[k]);
      KeptPairsMembers(items, pairs[j]);
      var i :| 0 <= i < |items| && Decoded(items)[i] == Some(pairs[j]);
    }
  }

  /**
   * A decoded block holds exactly the surviving items: a key maps to a value
   * exactly when some item decodes to that sanitised pair.
   */
  lemma TagsComeFromItems(component: string, k: string, v: string)
    requires ParseDogStatsDTags(component).Ok?
    ensures var items := Split(component, ',');
      var m := ParseDogStatsDTags(component).value;
      (k in m && m[k] == v) <==> Some((k, v)) in Decoded(items)
  {
    var items := Split(component, ',');
    var pairs := KeptPairs(items);
    var m := ParseDogStatsDTags(component).value;
    ToMapContents(pairs);
    KeptPairsMembers(items, (k, v));
    if k in m && m[k] == v {
      var j :| 0 <= j < |pairs| && pairs[j] == (k, m[k]);
    }
    if (k, v) in pairs {
      var j :| 0 <= j < |pairs| && pairs[j] == (k, v);
    }
  }

  /** A block of two items is the two items. */
  lemma TwoItemBlock(first: string, second: string)
    requires ',' !in first && ',' !in second && second != ""
    ensures Split(first + [','] + second, ',') == [first, second]
  {
    assert Join([first, second], ',') == first + [','] + second;
    SplitOfJoin([first, second], ',');
  }

  /** The present values of two entries. */
  lemma SomesOfTwo<T>(x: Option<T>, y: Option<T>)
    ensures Somes([x, y]) == (if x.Some? then [x.value] else []) + (if y.Some? then [y.value] else [])
  {
    assert [x, y][1..] == [y];
  }

  /** An item whose `#`-free text is `k:v`, with a `:`-free key and a non-empty value, decodes to the sanitised pair. */
  lemma DecodeItemOf(item: string, k: string, v: string)
    requires RemoveAll(item, '#') == k + [':'] + v
    requires ':' !in k && v != ""
    ensures DecodeItem(item) == Some((Escape(k), Escape(v)))
  {
    TagItemOf(item, k, v);
  }

  /** A `#`-free item keeps its text; a leading `#` is removed. */
  lemma RemoveLeadingHash(item: string, t: string)
    requires '#' !in t
    requires item == t || item == ['#'] + t
    ensures RemoveAll(item, '#') == t
  {
    RemoveAbsent(t, '#');
    if item != t {
      assert item[1..] == t;
    }
  }

  /** The kept pairs of two items, from what each item decodes to. */
  lemma KeptOfTwo(items: seq<string>, d1: Option<(string, string)>, d2: Option<(string, string)>)
    requires |items| == 2 && DecodeItem(items[0]) == d1 && DecodeItem(items[1]) == d2
    ensures KeptPairs(items) == (if d1.Some? then [d1.value] else []) + (if d2.Some? then [d2.value] else [])
  {
    var ds := Decoded(items);
    assert ds == [d1, d2];
    SomesOfTwo(d1, d2);
  }

  /** A two-item block whose items are both kept decodes through `toMap` of the two pairs. */
  lemma BlockOfTwoPairs(component: string, first: string, second: string, p1: (string, string), p2: (string, string))
    requires ',' !in first && ',' !in second && second != ""
    requires component == first + [','] + second
    requires DecodeItem(first) == Some(p1) && DecodeItem(second) == Some(p2)
    ensures ParseDogStatsDTags(component) == ToMap([p1, p2])
  {
    var items := Split(component, ',');
    TwoItemBlock(first, second);
    KeptOfTwo(items, Some(p1), Some(p2));
    KeptPairsOfTwo(items, p1, p2);
  }

  /** Two kept pairs, in order. */
  lemma KeptPairsOfTwo(items: seq<string>, p1: (string, string), p2: (string, string))
    requires KeptPairs(items) == [p1] + [p2]
    ensures ToMap(KeptPairs(items)) == ToMap([p1, p2])
  {
    assert [p1] + [p2] == [p1, p2];
  }

  /** A two-item block whose first item is dropped decodes through `toMap` of the second pair. */
  lemma BlockOfSecondPair(component: string, first: string, second: string, p2: (string, string))
    requires ',' !in first && ',' !in second && second != ""
    requires component == first + [','] + second
    requires DecodeItem(first) == None && DecodeItem(second) == Some(p2)
    ensures ParseDogStatsDTags(component) == ToMap([p2])
  {
    TwoItemBlock(first, second);
    KeptOfTwo([first, second], None, Some(p2));
    assert [] + [p2] == [p2];
    assert KeptPairs(Split(component, ',')) == [p2];
  }

  /** An item `k:v` (optionally led by `#`) whose halves the sanitiser leaves alone decodes to `(k, v)`. */
  lemma DecodeFixedItem(item: string, k: string, v: string)
    requires item == k + [':'] + v || item == ['#'] + k + [':'] + v
    requires '#' !in k + [':'] + v && ':' !in k && v != ""
    requires Escape(k) == k && Escape(v) == v
    ensures DecodeItem(item) == Some((k, v))
  {
    RemoveLeadingHash(item, k + [':'] + v);
    DecodeItemOf(item, k, v);
  }

  /** The names of the example block are already canonical. */
  lemma FixedNames(a: string, b: string, c: string)
    requires a == "tag" && b == "tag_value" && c == "another_tag"
    ensures Escape(a) == a && Escape(b) == b && Escape(c) == c
  {
    EscapeFixedPoint(a);
    EscapeFixedPoint(b);
    EscapeFixedPoint(c);
  }

  /** Two pairs with different keys collect into a two-entry map. */
  lemma ToMapOfTwo(k1: string, v1: string, k2: string, v2: string)
    requires k1 != k2
    ensures ToMap([(k1, v1), (k2, v2)]) == Ok(map[k1 := v1, k2 := v2])
  {
    var ps := [(k1, v1), (k2, v2)];
    assert ps[1..] == [(k2, v2)];
    assert ps[1..][1..] == [];
    assert ToMap(ps[1..]) == Ok(map[k2 := v2]);
    assert ToMap(ps) == Ok(map[k2 := v2][k1 := v1]);
    assert map[k2 := v2][k1 := v1] == map[k1 := v1, k2 := v2];
  }

  /** A block of two well-formed items with different keys whose halves the sanitiser leaves alone. */
  lemma TwoFixedItems(first: string, second: string, k1: string, v1: string, k2: string, v2: string)
    requires first == ['#'] + k1 + [':'] + v1 && second == k2 + [':'] + v2
    requires '#' !in k1 + [':'] + v1 && '#' !in k2 + [':'] + v2
    requires ',' !in first && ',' !in second
    requires ':' !in k1 && ':' !in k2 && v1 != "" && v2 != "" && k1 != k2
    requires Escape(k1) == k1 && Escape(v1) == v1 && Escape(k2) == k2 && Escape(v2) == v2
    ensures ParseDogStatsDTags(first + [','] + second) == Ok(map[k1 := v1, k2 := v2])
  {
    DecodeFixedItem(first, k1, v1);
    DecodeFixedItem(second, k2, v2);
    BlockOfTwoPairs(first + [','] + second, first, second, (k1, v1), (k2, v2));
    ToMapOfTwo(k1, v1, k2, v2);
  }

  /** An item `k:v`, optionally led by `#`, decodes to its sanitised halves. */
  lemma DecodePlainItem(item: string, t: string, k: string, v: string)
    requires item == t || item == ['#'] + t
    requires '#' !in t && t == k + [':'] + v && ':' !in k && v != ""
    ensures DecodeItem(item) == Some((Escape(k), Escape(v)))
  {
    RemoveLeadingHash(item, t);
    DecodeItemOf(item, k, v);
  }

  /** An item without `:`, optionally led by `#`, is dropped. */
  lemma DropPlainItem(item: string, t: string)
    requires item == t || item == ['#'] + t
    requires '#' !in t && ':' !in t
    ensures DecodeItem(item) == None
  {
    RemoveLeadingHash(item, t);
  }

  /** An item `:v` is kept with the empty key: only a missing `:` or an empty value drops an item. */
  lemma EmptyKeyIsKept(item: string, v: string)
    requires item == [':'] + v && '#' !in v && v != ""
    ensures DecodeItem(item) == Some(("", Escape(v)))
  {
    DecodePlainItem(item, item, "", v);
  }

  /** Two kept items whose sanitised keys coincide make `toMap` throw. */
  lemma CollidingItemsFail(component: string, first: string, second: string, p1: (string, string), p2: (string, string))
    requires ',' !in first && ',' !in second && second != ""
    requires component == first + [','] + second
    requires DecodeItem(first) == Some(p1) && DecodeItem(second) == Some(p2)
    requires p1.0 == p2.0
    ensures ParseDogStatsDTags(component) == Err(IllegalState)
  {
    BlockOfTwoPairs(component, first, second, p1, p2);
    ToMapOfCollision(p1, p2);
  }

  /** Two pairs with the same key make `toMap` throw. */
  lemma ToMapOfCollision(p1: (string, string), p2: (string, string))
    requires p1.0 == p2.0
    ensures ToMap([p1, p2]) == Err(IllegalState)
  {
    var pairs := [p1, p2];
    assert pairs[1..] == [p2];
    assert pairs[1..][1..] == [];
    assert ToMap(pairs[1..]) == Ok(map[p2.0 := p2.1]);
  }

  /** A block whose first item is dropped holds only the second. */
  lemma DroppedFirstItem(component: string, first: string, second: string, p2: (string, string))
    requires ',' !in first && ',' !in second && second != ""
    requires component == first + [','] + second
    requires DecodeItem(first) == None && DecodeItem(second) == Some(p2)
    ensures ParseDogStatsDTags(component) == Ok(map[p2.0 := p2.1])
  {
    BlockOfSecondPair(component, first, second, p2);
    assert [p2][1..] == [];
  }
}
