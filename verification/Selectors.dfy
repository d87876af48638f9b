/**
 Label maps and the selectors printed from them.  Generated rules refer to each other only through
 such printed selectors, so the printer is paired with a parser and the two are shown inverse.
 */
module Selectors {
  import opened Text

  type Labels = map<string, string>

  /** A match of the regular expression `__.*?__`: two disjoint double underscores on one line. */
  predicate Reserved(key: string)
  {
    exists i, j | 0 <= i <= |key| - 4 && i + 2 <= j <= |key| - 2 ::
      && key[i] == '_' && key[i + 1] == '_'
      && key[j] == '_' && key[j + 1] == '_'
      && '\n' !in key[i + 2..j]
  }

  /** As a pattern: anything, two underscores, text without a line break, two underscores, and anything. */
  ghost predicate Framed(key: string, before: string, inner: string, after: string)
  {
    key == before + "__" + inner + "__" + after && '\n' !in inner
  }

  lemma FramedAt(key: string, i: nat, j: nat)
    requires i + 2 <= j <= |key| - 2 && '\n' !in key[i + 2..j]
    requires key[i] == '_' && key[i + 1] == '_' && key[j] == '_' && key[j + 1] == '_'
    ensures Framed(key, key[..i], key[i + 2..j], key[j + 2..])
  {
    assert key[i..i + 2] == "__" && key[j..j + 2] == "__";
    assert key == key[..i] + key[i..i + 2] + key[i + 2..j] + key[j..j + 2] + key[j + 2..];
  }

  lemma FramedReserved(key: string, before: string, inner: string, after: string)
    requires Framed(key, before, inner, after)
    ensures Reserved(key)
  {
    var i := |before|;
    var j := i + 2 + |inner|;
    assert key[i] == '_' && key[i + 1] == '_' && key[j] == '_' && key[j + 1] == '_';
    assert key[i + 2..j] == inner;
  }

  lemma ReservedFramed(key: string)
    requires Reserved(key)
    ensures exists before, inner, after :: Framed(key, before, inner, after)
  {
    hide Framed;
    var i, j :| 0 <= i <= |key| - 4 && i + 2 <= j <= |key| - 2
      && key[i] == '_' && key[i + 1] == '_' && key[j] == '_' && key[j + 1] == '_' && '\n' !in key[i + 2..j];
    FramedAt(key, i, j);
  }

  /** Reserved keys are those the pattern matches. */
  lemma ReservedIff(key: string)
    ensures Reserved(key) <==> exists before, inner, after :: Framed(key, before, inner, after)
  {
    hide Framed, Reserved;
    if Reserved(key) {
      ReservedFramed(key);
    }
    if before, inner, after :| Framed(key, before, inner, after) {
      FramedReserved(key, before, inner, after);
    }
  }

  /** What a selector can see of a label map. */
  function Visible(labels: Labels): Labels
  {
    map k | k in labels && !Reserved(k) :: labels[k]
  }

  function Pair(key: string, value: string): string
  {
    key + "=\"" + value + "\""
  }

  /** The printed pairs of `labels` for the keys of a list, reserved keys skipped. */
  function Pairs(labels: Labels, keys: seq<string>): seq<string>
    requires forall k | k in keys :: k in labels
  {
    if keys == [] then []
    else (if Reserved(keys[0]) then [] else [Pair(keys[0], labels[keys[0]])]) + Pairs(labels, keys[1..])
  }

  /** The text `mapToColonSeparatedString` gives for a label map. */
  function PrintSelector(labels: Labels): string
  {
    Join(Pairs(labels, Sorted(labels.Keys)), ", ")
  }

  lemma {:induction false} PairsSnoc(labels: Labels, keys: seq<string>, k: string)
    requires forall x | x in keys :: x in labels
    requires k in labels
    ensures Pairs(labels, keys + [k]) == Pairs(labels, keys) + (if Reserved(k) then [] else [Pair(k, labels[k])])
  {
    if keys == [] {
      assert Pairs(labels, [k][1..]) == [];
    } else {
      assert (keys + [k])[1..] == keys[1..] + [k];
      PairsSnoc(labels, keys[1..], k);
    }
  }

  /** Keys are taken from the map in any order; the printed text does not depend on it. */
  method MapToColonSeparatedString(labels: Labels) returns (text: string)
    ensures text == PrintSelector(labels)
  {
    var keys: seq<string> := [];
    assert Distinct(keys);
    hide Distinct, Join, Reserved, Pair, SortStrings, Sorted;
    var left := labels.Keys;
    while left != {}
      invariant left <= labels.Keys
      invariant Distinct(keys)
      invariant forall k :: k in keys <==> k in labels.Keys - left
      decreases |left|
    {
      var k :| k in left;
      DistinctSnoc(keys, k);
      keys := keys + [k];
      left := left - {k};
    }
    var sorted := SortStrings(keys);
    SortStringsSorts(keys);
    AscendingUnique(sorted, Sorted(labels.Keys));

    var pairs: seq<string> := [];
    for i := 0 to |sorted|
      invariant forall k | k in sorted[..i] :: k in labels
      invariant pairs == Pairs(labels, sorted[..i])
    {
      PrefixGrows(sorted, i);
      PairsSnoc(labels, sorted[..i], sorted[i]);
      if !Reserved(sorted[i]) {
        pairs := pairs + [Pair(sorted[i], labels[sorted[i]])];
      }
    }
    assert sorted[..|sorted|] == sorted;
    text := Join(pairs, ", ");
  }

  /** Labels later in the list win. */
  function Merged(ms: seq<Labels>): Labels
  {
    if ms == [] then map[] else Merged(ms[..|ms| - 1]) + ms[|ms| - 1]
  }

  /** A key is there if any of the maps has it, with the value of the last one that has it. */
  lemma {:induction false} LastMapWins(ms: seq<Labels>, key: string)
    ensures key in Merged(ms) <==> exists i :: 0 <= i < |ms| && key in ms[i]
    ensures forall i | 0 <= i < |ms| && key in ms[i] && (forall j | i < j < |ms| :: key !in ms[j]) ::
      Merged(ms)[key] == ms[i][key]
  {
    if ms != [] {
      var n := |ms| - 1;
      LastMapWins(ms[..n], key);
      assert ms[n] == ms[|ms| - 1];
      assert forall i | 0 <= i < n :: ms[..n][i] == ms[i];
    }
  }

  /** One source map copied into the result, entry by entry. */
  method CopyInto(labels: Labels, m: Labels) returns (result: Labels)
    ensures result == labels + m
  {
    result := labels;
    var left := m.Keys;
    while left != {}
      invariant left <= m.Keys
      invariant result.Keys == labels.Keys + (m.Keys - left)
      invariant forall k | k in result :: result[k] == if k in m && k !in left then m[k] else labels[k]
      decreases |left|
    {
      var k :| k in left;
      result := result[k := m[k]];
      left := left - {k};
    }
  }

  method MergeLabels(ms: seq<Labels>) returns (labels: Labels)
    ensures labels == Merged(ms)
  {
    labels := map[];
    for i := 0 to |ms|
      invariant labels == Merged(ms[..i])
    {
      assert ms[..i + 1][..i] == ms[..i];
      labels := CopyInto(labels, ms[i]);
    }
    assert ms[..|ms|] == ms;
  }

  // ----- Reading a selector back -----

  /**
   A non-empty list of `key="value"` items separated by a comma and a space.  A key ends at the
   first equals sign and a value at the first quote; a key given twice is refused.
   */
  function ParseItems(s: string): Option<Labels>
    decreases |s|, 2
  {
    match IndexOf(s, '=')
    case None => None
    case Some(e) => ParseValue(s[..e], s[e + 1..])
  }

  function ParseValue(key: string, rest: string): Option<Labels>
    decreases |rest|, 1
  {
    if rest == "" || rest[0] != '"' then None
    else
      match IndexOf(rest[1..], '"')
      case None => None
      case Some(q) => ParseTail(key, rest[1..][..q], rest[1..][q + 1..])
  }

  function ParseTail(key: string, value: string, tail: string): Option<Labels>
    decreases |tail|, 0
  {
    if tail == "" then Some(map[key := value])
    else if !HasPrefix(tail, ", ") then None
    else
      match ParseItems(tail[2..])
      case None => None
      case Some(m) => if key in m then None else Some(m[key := value])
  }

  function ParseSelector(s: string): Option<Labels>
  {
    if s == "" then Some(map[]) else ParseItems(s)
  }

  /** Text the selector syntax can carry without escapes. */
  predicate Printable(labels: Labels)
  {
    forall k | k in labels :: '=' !in k && '"' !in k && '"' !in labels[k]
  }

  lemma ParseValueQuoted(key: string, value: string, tail: string)
    requires '"' !in value
    ensures ParseValue(key, "\"" + value + "\"" + tail) == ParseTail(key, value, tail)
  {
    hide ParseTail;
    var rest := "\"" + value + "\"" + tail;
    assert rest[1..] == value + ['"'] + tail;
    IndexOfFirst(value, '"', tail);
    assert rest[1..][..|value|] == value && rest[1..][|value| + 1..] == tail;
  }

  lemma ParseItemsPair(key: string, value: string, tail: string)
    requires '=' !in key && '"' !in value
    ensures ParseItems(Pair(key, value) + tail) == ParseTail(key, value, tail)
  {
    hide ParseValue, ParseTail;
    var rest := "\"" + value + "\"" + tail;
    var s := Pair(key, value) + tail;
    assert s == key + ['='] + rest;
    IndexOfFirst(key, '=', rest);
    assert s[..|key|] == key && s[|key| + 1..] == rest;
    ParseValueQuoted(key, value, tail);
  }

  /** The part of a label map carried by a list of keys. */
  function Chosen(labels: Labels, keys: seq<string>): Labels
  {
    map k | k in labels && k in keys && !Reserved(k) :: labels[k]
  }

  lemma ParseStep(k: string, v: string, tail: seq<string>, rest: Labels)
    requires '=' !in k && '"' !in v && '"' !in k
    requires ParseSelector(Join(tail, ", ")) == Some(rest)
    requires k !in rest
    requires tail == [] <==> rest == map[]
    requires tail == [] <==> Join(tail, ", ") == ""
    ensures ParseSelector(Join([Pair(k, v)] + tail, ", ")) == Some(rest[k := v])
  {
    var parts := [Pair(k, v)] + tail;
    assert parts[1..] == tail;
    if tail == [] {
      ParseItemsPair(k, v, "");
      assert Pair(k, v) + "" == Pair(k, v);
    } else {
      var suffix := ", " + Join(tail, ", ");
      assert Join(parts, ", ") == Pair(k, v) + suffix;
      assert suffix[2..] == Join(tail, ", ");
      ParseItemsPair(k, v, suffix);
    }
  }

  lemma ChosenStep(labels: Labels, keys: seq<string>)
    requires keys != [] && Ascending(keys) && forall k | k in keys :: k in labels
    ensures keys[0] !in Chosen(labels, keys[1..])
    ensures Chosen(labels, keys) ==
      if Reserved(keys[0]) then Chosen(labels, keys[1..])
      else Chosen(labels, keys[1..])[keys[0] := labels[keys[0]]]
  {
    AscendingHeadOnce(keys, keys[0]);
    assert keys == [keys[0]] + keys[1..];
  }

  lemma {:induction false} ParsePairs(labels: Labels, keys: seq<string>)
    requires Printable(labels)
    requires Ascending(keys) && forall k | k in keys :: k in labels
    ensures Pairs(labels, keys) == [] <==> Chosen(labels, keys) == map[]
    ensures ParseSelector(Join(Pairs(labels, keys), ", ")) == Some(Chosen(labels, keys))
  {
    if keys == [] {
      assert Chosen(labels, keys) == map[];
    } else {
      var k, rest := keys[0], keys[1..];
      ParsePairs(labels, rest);
      ChosenStep(labels, keys);
      if Reserved(k) {
        assert Pairs(labels, keys) == Pairs(labels, rest);
      } else {
        assert k in Chosen(labels, keys);
        if Pairs(labels, rest) != [] { PairsNonEmpty(labels, rest); }
        ParseStep(k, labels[k], Pairs(labels, rest), Chosen(labels, rest));
      }
    }
  }

  lemma {:induction false} PairsNonEmpty(labels: Labels, keys: seq<string>)
    requires forall k | k in keys :: k in labels
    requires Pairs(labels, keys) != []
    ensures Join(Pairs(labels, keys), ", ") != ""
  {
    if Reserved(keys[0]) {
      PairsNonEmpty(labels, keys[1..]);
    }
  }

  /** A printed selector reads back as the labels it was printed from, reserved keys dropped. */
  lemma SelectorRoundTrip(labels: Labels)
    requires Printable(labels)
    ensures ParseSelector(PrintSelector(labels)) == Some(Visible(labels))
  {
    ParsePairs(labels, Sorted(labels.Keys));
    assert Chosen(labels, Sorted(labels.Keys)) == Visible(labels);
  }

  /** Two label maps print alike exactly when a selector can see no difference. */
  lemma SelectorInjective(a: Labels, b: Labels)
    requires Printable(a) && Printable(b)
    ensures PrintSelector(a) == PrintSelector(b) <==> Visible(a) == Visible(b)
  {
    SelectorRoundTrip(a);
    SelectorRoundTrip(b);
    if Visible(a) == Visible(b) {
      SelectorKeysAscend(a);
      SelectorKeysAscend(b);
      AscendingUnique(VisibleKeys(a, Sorted(a.Keys)), VisibleKeys(b, Sorted(b.Keys)));
      PairsOfVisible(a, b, VisibleKeys(a, Sorted(a.Keys)));
    }
  }

  /** The printed keys, in print order. */
  function VisibleKeys(labels: Labels, keys: seq<string>): seq<string>
  {
    if keys == [] then []
    else (if Reserved(keys[0]) then [] else [keys[0]]) + VisibleKeys(labels, keys[1..])
  }

  function PairsAt(labels: Labels, keys: seq<string>): seq<string>
    requires forall k | k in keys :: k in labels
  {
    seq(|keys|, i requires 0 <= i < |keys| => Pair(keys[i], labels[keys[i]]))
  }

  lemma PairsOfVisible(a: Labels, b: Labels, keys: seq<string>)
    requires Visible(a) == Visible(b)
    requires forall k | k in keys :: k in Visible(a)
    ensures forall k | k in keys :: k in a && k in b
    ensures PairsAt(a, keys) == PairsAt(b, keys)
  {
    forall k | k in keys ensures k in b && a[k] == b[k] {
      assert Visible(a)[k] == Visible(b)[k];
    }
  }

  lemma {:induction false} VisibleKeysOf(labels: Labels, keys: seq<string>)
    requires Ascending(keys) && forall k | k in keys :: k in labels
    ensures Ascending(VisibleKeys(labels, keys))
    ensures forall k :: k in VisibleKeys(labels, keys) <==> k in keys && !Reserved(k)
    ensures Pairs(labels, keys) == PairsAt(labels, VisibleKeys(labels, keys))
  {
    hide Reserved, Pair, Ascending;
    if keys != [] {
      var k, rest := keys[0], keys[1..];
      assert keys == [k] + rest;
      AscendingTail(k, rest);
      VisibleKeysOf(labels, rest);
      if Reserved(k) {
        assert VisibleKeys(labels, keys) == VisibleKeys(labels, rest);
      } else {
        AscendingCons(k, VisibleKeys(labels, rest));
      }
    }
  }

  lemma AscendingTail(k: string, rest: seq<string>)
    requires Ascending([k] + rest)
    ensures Ascending(rest) && forall x | x in rest :: Less(k, x)
  {
    hide Less;
    var keys := [k] + rest;
    forall i, j | 0 <= i < j < |rest|
      ensures Less(rest[i], rest[j])
    {
      assert rest[i] == keys[i + 1] && rest[j] == keys[j + 1];
    }
    forall x | x in rest
      ensures Less(k, x)
    {
      var i :| 0 <= i < |rest| && rest[i] == x;
      assert keys[0] == k && keys[i + 1] == x;
    }
  }

  /**
   The printed selector lists exactly the visible keys, each once and in strictly ascending order,
   with its own value.
   */
  lemma SelectorKeysAscend(labels: Labels)
    ensures Ascending(VisibleKeys(labels, Sorted(labels.Keys)))
    ensures Lists(VisibleKeys(labels, Sorted(labels.Keys)), Visible(labels).Keys)
    ensures PrintSelector(labels) == Join(PairsAt(labels, VisibleKeys(labels, Sorted(labels.Keys))), ", ")
  {
    VisibleKeysOf(labels, Sorted(labels.Keys));
  }

  // ----- De-duplication -----

  /** First occurrences, in order. */
  function Unique(input: seq<string>): seq<string>
  {
    if input == [] then []
    else
      var front := Unique(input[..|input| - 1]);
      var last := input[|input| - 1];
      if last in front then front else front + [last]
  }

  lemma {:induction false} UniqueLists(input: seq<string>)
    ensures Distinct(Unique(input))
    ensures forall x :: x in Unique(input) <==> x in input
  {
    if input != [] {
      var front, last := input[..|input| - 1], input[|input| - 1];
      UniqueLists(front);
      assert input == front + [last];
    }
  }

  /** Position of the first occurrence. */
  function First(input: seq<string>, x: string): (i: nat)
    requires x in input
    ensures i < |input| && input[i] == x && x !in input[..i]
  {
    if input[0] == x then 0
    else
      assert input == [input[0]] + input[1..];
      var i := First(input[1..], x);
      assert input[..i + 1] == [input[0]] + input[1..][..i];
      1 + i
  }

  lemma {:induction false} FirstAppend(front: seq<string>, last: string, x: string)
    requires x in front
    ensures First(front + [last], x) == First(front, x)
  {
    if front[0] != x {
      assert front == [front[0]] + front[1..];
      assert (front + [last])[1..] == front[1..] + [last];
      FirstAppend(front[1..], last, x);
    }
  }

  lemma {:induction false} FirstOfLast(front: seq<string>, last: string)
    requires last !in front
    ensures First(front + [last], last) == |front|
  {
    if front != [] {
      assert (front + [last])[1..] == front[1..] + [last];
      FirstOfLast(front[1..], last);
    }
  }

  /** Distinct values appear in the order of their first occurrence. */
  lemma {:induction false} UniqueInFirstOrder(input: seq<string>, i: nat, j: nat)
    requires i < j < |Unique(input)|
    ensures Unique(input)[i] in input && Unique(input)[j] in input
    ensures First(input, Unique(input)[i]) < First(input, Unique(input)[j])
  {
    UniqueLists(input);
    var front, last := input[..|input| - 1], input[|input| - 1];
    assert input == front + [last];
    UniqueLists(front);
    var u := Unique(input);
    if last in Unique(front) || j < |Unique(front)| {
      assert u[i] == Unique(front)[i] && u[j] == Unique(front)[j];
      UniqueInFirstOrder(front, i, j);
      FirstAppend(front, last, u[i]);
      FirstAppend(front, last, u[j]);
    } else {
      assert u[i] == Unique(front)[i] && u[j] == last;
      assert u[i] in Unique(front);
      FirstAppend(front, last, u[i]);
      FirstOfLast(front, last);
    }
  }

  method UniqueStrings(input: seq<string>) returns (result: seq<string>)
    ensures result == Unique(input)
  {
    var seen: map<string, bool> := map[];
    result := [];
    for i := 0 to |input|
      invariant result == Unique(input[..i])
      invariant forall x :: x in seen <==> x in result
    {
      assert input[..i + 1][..i] == input[..i];
      if input[i] !in seen {
        seen := seen[input[i] := true];
        result := result + [input[i]];
      }
    }
    assert input[..|input|] == input;
  }
}
