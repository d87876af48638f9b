/** Strings: byte order, sorting of key sets, joining and searching. */
module Text {

  datatype Option<+T> = None | Some(value: T)

  /** The strict order `sort.Strings` uses: lexicographic, by code point. */
  predicate Less(a: string, b: string)
  {
    b != "" && (a == "" || a[0] < b[0] || (a[0] == b[0] && Less(a[1..], b[1..])))
  }

  /** The first place where two texts differ decides, and a proper prefix comes first. */
  ghost predicate Precedes(a: string, b: string, i: nat)
  {
    && i <= |a| && i < |b| && a[..i] == b[..i]
    && (i == |a| || a[i] < b[i])
  }

  lemma SharedStart(a: string, b: string, i: nat)
    requires Precedes(a, b, i) && i > 0
    ensures a[0] == b[0]
  {
    assert a[..i][0] == a[0] && b[..i][0] == b[0];
  }

  lemma {:induction false} LessIff(a: string, b: string)
    ensures Less(a, b) <==> exists i: nat :: Precedes(a, b, i)
  {
    if a != "" && b != "" && a[0] == b[0] {
      LessIff(a[1..], b[1..]);
      if i: nat :| Precedes(a[1..], b[1..], i) {
        assert a[..i + 1] == [a[0]] + a[1..][..i] && b[..i + 1] == [b[0]] + b[1..][..i];
        assert Precedes(a, b, i + 1);
      }
      if i: nat :| Precedes(a, b, i) {
        if i > 0 {
          assert a[1..][..i - 1] == a[..i][1..] && b[1..][..i - 1] == b[..i][1..];
          assert Precedes(a[1..], b[1..], i - 1);
        }
      }
    } else {
      if i: nat :| Precedes(a, b, i) && i > 0 {
        SharedStart(a, b, i);
      }
      assert Less(a, b) ==> Precedes(a, b, 0);
    }
  }

  lemma {:induction false} LessAsymmetric(a: string, b: string)
    requires Less(a, b)
    ensures !Less(b, a)
  {
    if a != "" && a[0] == b[0] {
      LessAsymmetric(a[1..], b[1..]);
    }
  }

  lemma {:induction false} LessTransitive(a: string, b: string, c: string)
    requires Less(a, b) && Less(b, c)
    ensures Less(a, c)
  {
    if a != "" && a[0] == b[0] && b[0] == c[0] {
      LessTransitive(a[1..], b[1..], c[1..]);
    }
  }

  lemma {:induction false} LessTotal(a: string, b: string)
    ensures a == b || Less(a, b) || Less(b, a)
  {
    if a != "" && b != "" && a[0] == b[0] {
      LessTotal(a[1..], b[1..]);
      assert a == [a[0]] + a[1..] && b == [b[0]] + b[1..];
    }
  }

  ghost predicate Ascending(s: seq<string>)
  {
    forall i, j | 0 <= i < j < |s| :: Less(s[i], s[j])
  }

  ghost predicate Lists<T(!new)>(s: seq<T>, keys: set<T>)
  {
    forall k :: k in s <==> k in keys
  }

  predicate IsLeast(k: string, keys: set<string>)
  {
    k in keys && forall x | x in keys :: x == k || Less(k, x)
  }

  lemma LeastExists(keys: set<string>)
    requires keys != {}
    ensures exists k :: IsLeast(k, keys)
    decreases |keys|
  {
    var k :| k in keys;
    var rest := keys - {k};
    if rest == {} {
      assert keys == {k};
      assert IsLeast(k, keys);
    } else {
      LeastExists(rest);
      var m :| IsLeast(m, rest);
      LessTotal(k, m);
      var least := if Less(k, m) then k else m;
      forall x | x in keys
        ensures x == least || Less(least, x)
      {
        if x != k && x != m && least == k {
          LessTransitive(k, m, x);
        }
      }
      assert IsLeast(least, keys);
    }
  }

  lemma LeastUnique(a: string, b: string, keys: set<string>)
    requires IsLeast(a, keys) && IsLeast(b, keys)
    ensures a == b
  {
    if a != b {
      LessAsymmetric(a, b);
    }
  }

  lemma LeastUniqueAll(keys: set<string>)
    ensures forall a, b :: IsLeast(a, keys) && IsLeast(b, keys) ==> a == b
  {
    forall a, b | IsLeast(a, keys) && IsLeast(b, keys)
      ensures a == b
    {
      LeastUnique(a, b, keys);
    }
  }

  /** The keys of a set in ascending order. */
  function Sorted(keys: set<string>): (s: seq<string>)
    ensures Lists(s, keys)
    ensures Ascending(s)
    decreases |keys|
  {
    if keys == {} then []
    else
      LeastExists(keys);
      LeastUniqueAll(keys);
      var k :| IsLeast(k, keys);
      assert forall x :: x in Sorted(keys - {k}) ==> Less(k, x);
      [k] + Sorted(keys - {k})
  }

  function Insert(k: string, s: seq<string>): seq<string>
  {
    if s == [] then [k]
    else if Less(s[0], k) then [s[0]] + Insert(k, s[1..])
    else [k] + s
  }

  /** `sort.Strings`: an insertion sort, the order of equal strings being irrelevant. */
  function SortStrings(s: seq<string>): seq<string>
  {
    if s == [] then [] else Insert(s[0], SortStrings(s[1..]))
  }

  lemma {:induction false} InsertKeeps(k: string, s: seq<string>)
    requires Ascending(s) && k !in s
    ensures Ascending(Insert(k, s))
    ensures forall x :: x in Insert(k, s) <==> x == k || x in s
  {
    if s != [] {
      assert s == [s[0]] + s[1..];
      if Less(s[0], k) {
        InsertKeeps(k, s[1..]);
        var tail := Insert(k, s[1..]);
        assert forall x :: x in tail ==> Less(s[0], x);
      } else {
        LessTotal(s[0], k);
        forall x | x in s ensures Less(k, x) {
          if x != s[0] {
            LessTransitive(k, s[0], x);
          }
        }
      }
    }
  }

  ghost predicate Distinct<T>(s: seq<T>)
  {
    forall i, j | 0 <= i < j < |s| :: s[i] != s[j]
  }

  lemma DistinctSnoc<T>(s: seq<T>, x: T)
    requires Distinct(s) && x !in s
    ensures Distinct(s + [x])
  {
    forall i, j | 0 <= i < j < |s + [x]|
      ensures (s + [x])[i] != (s + [x])[j]
    {
      assert (s + [x])[i] == s[i];
    }
  }

  lemma {:induction false} SortStringsSorts(s: seq<string>)
    requires Distinct(s)
    ensures Ascending(SortStrings(s))
    ensures forall x :: x in SortStrings(s) <==> x in s
  {
    if s != [] {
      SortStringsSorts(s[1..]);
      assert s == [s[0]] + s[1..];
      assert s[0] !in s[1..];
      InsertKeeps(s[0], SortStrings(s[1..]));
    }
  }

  lemma AscendingCons(k: string, rest: seq<string>)
    requires Ascending(rest) && forall x | x in rest :: Less(k, x)
    ensures Ascending([k] + rest)
  {
    hide Less;
  }

  lemma PrefixGrows<T>(s: seq<T>, i: nat)
    requires i < |s|
    ensures s[..i + 1] == s[..i] + [s[i]]
    ensures s[..i + 1][..i] == s[..i]
  {
  }

  /** A set has one ascending listing, so the order it was enumerated in is forgotten. */
  lemma {:induction false} AscendingUnique(a: seq<string>, b: seq<string>)
    requires Ascending(a) && Ascending(b)
    requires forall x :: x in a <==> x in b
    ensures a == b
  {
    assert a != [] ==> a[0] in b;
    assert b != [] ==> b[0] in a;
    if a != [] {
      AscendingHeadLeast(a, b[0]);
      AscendingHeadLeast(b, a[0]);
      forall x ensures x in a[1..] <==> x in b[1..] {
        AscendingHeadOnce(a, x);
        AscendingHeadOnce(b, x);
      }
      AscendingUnique(a[1..], b[1..]);
      assert a == [a[0]] + a[1..] && b == [b[0]] + b[1..];
    }
  }

  lemma AscendingHeadLeast(s: seq<string>, x: string)
    requires Ascending(s) && x in s
    ensures x == s[0] || (Less(s[0], x) && !Less(x, s[0]))
  {
    if x != s[0] {
      var i :| 0 <= i < |s| && s[i] == x;
      assert Less(s[0], s[i]);
      LessAsymmetric(s[0], x);
    }
  }

  lemma AscendingHeadOnce(s: seq<string>, x: string)
    requires s != [] && Ascending(s)
    ensures x in s[1..] <==> x in s && x != s[0]
  {
    forall i | 0 < i < |s| ensures s[i] != s[0] {
      assert Less(s[0], s[i]);
      if s[i] == s[0] { LessAsymmetric(s[0], s[0]); }
    }
    assert s == [s[0]] + s[1..];
  }

  function Join(parts: seq<string>, separator: string): string
  {
    if parts == [] then ""
    else if |parts| == 1 then parts[0]
    else parts[0] + separator + Join(parts[1..], separator)
  }

  predicate HasPrefix(s: string, prefix: string)
  {
    prefix <= s
  }

  /** The position of the first `c` in `s`. */
  function IndexOf(s: string, c: char): (r: Option<nat>)
    ensures r.Some? ==> r.value < |s| && s[r.value] == c && c !in s[..r.value]
    ensures r.None? ==> c !in s
  {
    if s == "" then None
    else if s[0] == c then Some(0)
    else
      match IndexOf(s[1..], c)
      case None => None
      case Some(i) =>
        assert s[..i + 1] == [s[0]] + s[1..][..i];
        Some(i + 1)
  }

  lemma {:induction false} IndexOfFirst(a: string, c: char, b: string)
    requires c !in a
    ensures IndexOf(a + [c] + b, c) == Some(|a|)
  {
    var s := a + [c] + b;
    if a == "" {
      assert s[0] == c;
    } else {
      assert s[0] == a[0] && s[1..] == a[1..] + [c] + b;
      IndexOfFirst(a[1..], c, b);
    }
  }
}
