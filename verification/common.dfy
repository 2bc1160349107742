/** Shared value types: optional values, results, JSON-like payload values,
    and Python's string ordering together with the sort that `list.sort()`
    performs on a list of strings. */
module Common {

  datatype Option<+T> = None | Some(value: T)

  datatype Result<+R, +E> = Success(value: R) | Failure(error: E)

  /** An instant on the time line, in whole seconds, together with the text
      that Python's `datetime.isoformat()` produces for it. Two datetimes for
      the same instant in different zones have different texts. */
  datatype DateTime = DateTime(instant: int, iso: string)

  /** A JSON-like payload value as the Python code sees it after decoding:
      `JTime` is a `datetime` object placed into a payload by conversion. */
  datatype Json =
    | JNull
    | JBool(b: bool)
    | JNum(n: real)
    | JStr(s: string)
    | JTime(t: DateTime)
    | JList(items: seq<Json>)
    | JObj(fields: map<string, Json>)

  /** Python truthiness of a payload value (`if not x`). */
  predicate Truthy(v: Json)
  {
    match v
    case JNull => false
    case JBool(b) => b
    case JNum(n) => n != 0.0
    case JStr(s) => s != ""
    case JTime(_) => true
    case JList(items) => items != []
    case JObj(fields) => fields != map[]
  }

  // ---------------------------------------------------------------------
  // Python's ordering of `str`: lexicographic by code point.

  predicate StrLe(a: string, b: string)
  {
    if a == [] then true
    else if b == [] then false
    else if a[0] != b[0] then a[0] < b[0]
    else StrLe(a[1..], b[1..])
  }

  lemma {:induction false} StrLeTotal(a: string, b: string)
    ensures StrLe(a, b) || StrLe(b, a)
  {
    if a != [] && b != [] && a[0] == b[0] {
      StrLeTotal(a[1..], b[1..]);
    }
  }

  lemma {:induction false} StrLeTransitive(a: string, b: string, c: string)
    requires StrLe(a, b) && StrLe(b, c)
    ensures StrLe(a, c)
  {
    if a != [] && b != [] && c != [] && a[0] == b[0] && b[0] == c[0] {
      StrLeTransitive(a[1..], b[1..], c[1..]);
    }
  }

  lemma {:induction false} StrLeAntisymmetric(a: string, b: string)
    requires StrLe(a, b) && StrLe(b, a)
    ensures a == b
  {
    if a != [] && b != [] {
      StrLeAntisymmetric(a[1..], b[1..]);
      assert a == [a[0]] + a[1..] && b == [b[0]] + b[1..];
    }
  }

  predicate Sorted(s: seq<string>)
  {
    forall i, j :: 0 <= i < j < |s| ==> StrLe(s[i], s[j])
  }

  predicate NoDuplicates(s: seq<string>)
  {
    forall i, j :: 0 <= i < j < |s| ==> s[i] != s[j]
  }

  /** Places `x` into the sorted list `s` before the first element greater
      than it. */
  function Insert(s: seq<string>, x: string): seq<string>
  {
    if s == [] then [x]
    else if StrLe(x, s[0]) then [x] + s
    else [s[0]] + Insert(s[1..], x)
  }

  lemma {:induction false} InsertPermutes(s: seq<string>, x: string)
    ensures multiset(Insert(s, x)) == multiset(s) + multiset{x}
  {
    if s != [] && !StrLe(x, s[0]) {
      InsertPermutes(s[1..], x);
      assert s == [s[0]] + s[1..];
    }
  }

  /** A sorted list stays sorted with a lower bound put in front. */
  lemma ConsSorted(a: string, t: seq<string>)
    requires Sorted(t)
    requires forall y :: y in t ==> StrLe(a, y)
    ensures Sorted([a] + t)
  {
    var r := [a] + t;
    forall i, j | 0 <= i < j < |r| ensures StrLe(r[i], r[j]) {
      assert r[j] == t[j - 1];
      if i > 0 { assert r[i] == t[i - 1]; }
    }
  }

  lemma InsertMembers(s: seq<string>, x: string)
    ensures forall y :: y in Insert(s, x) <==> y == x || y in s
  {
    InsertPermutes(s, x);
    forall y ensures y in Insert(s, x) <==> y == x || y in s {
      assert y in Insert(s, x) <==> y in multiset(Insert(s, x));
      assert y in s <==> y in multiset(s);
    }
  }

  lemma {:induction false} InsertSorted(s: seq<string>, x: string)
    requires Sorted(s)
    ensures Sorted(Insert(s, x))
  {
    if s == [] {
    } else if StrLe(x, s[0]) {
      forall y | y in s ensures StrLe(x, y) {
        var k :| 0 <= k < |s| && s[k] == y;
        if k > 0 { StrLeTransitive(x, s[0], s[k]); }
      }
      ConsSorted(x, s);
    } else {
      var tail := s[1..];
      assert Sorted(tail);
      InsertSorted(tail, x);
      InsertMembers(tail, x);
      StrLeTotal(x, s[0]);
      forall y | y in Insert(tail, x) ensures StrLe(s[0], y) {
        if y != x {
          var k :| 0 <= k < |tail| && tail[k] == y;
          assert s[k + 1] == y;
        }
      }
      ConsSorted(s[0], Insert(tail, x));
    }
  }

  /** What `list.sort()` leaves in a list of strings: insertion sort. */
  function Sort(s: seq<string>): seq<string>
  {
    if s == [] then [] else Insert(Sort(s[..|s| - 1]), s[|s| - 1])
  }

  /** `Sort` returns its argument's elements in ascending order (strings
      that compare equal are equal, so that order is unique). */
  lemma {:induction false} SortSpec(s: seq<string>)
    ensures Sorted(Sort(s))
    ensures multiset(Sort(s)) == multiset(s)
  {
    if s != [] {
      var init := s[..|s| - 1];
      assert s == init + [s[|s| - 1]];
      SortSpec(init);
      InsertSorted(Sort(init), s[|s| - 1]);
      InsertPermutes(Sort(init), s[|s| - 1]);
    }
  }

  /** A list without repeats is one in which every element occurs once. */
  lemma {:induction false} NoDuplicatesByCount(s: seq<string>)
    ensures NoDuplicates(s) <==> forall x :: multiset(s)[x] <= 1
  {
    if s == [] {
    } else {
      var t := s[1..];
      assert s == [s[0]] + t;
      NoDuplicatesByCount(t);
      if NoDuplicates(s) {
        assert NoDuplicates(t) by {
          forall i, j | 0 <= i < j < |t| ensures t[i] != t[j] { assert t[i] == s[i + 1] && t[j] == s[j + 1]; }
        }
        assert s[0] !in t by {
          forall m | 0 <= m < |t| ensures t[m] != s[0] { assert t[m] == s[m + 1]; }
        }
      }
      if forall x :: multiset(s)[x] <= 1 {
        assert forall x :: multiset(t)[x] <= 1 by {
          forall x ensures multiset(t)[x] <= 1 { assert multiset(s)[x] == multiset{s[0]}[x] + multiset(t)[x]; }
        }
        assert multiset(s)[s[0]] == 1 + multiset(t)[s[0]];
        assert s[0] !in multiset(t);
        forall i, j | 0 <= i < j < |s| ensures s[i] != s[j] {
          if i == 0 {
            assert s[j] == t[j - 1];
            assert s[j] in multiset(t);
          } else {
            assert s[i] == t[i - 1] && s[j] == t[j - 1];
          }
        }
      }
    }
  }

  /** Sorting a list without repeats leaves it without repeats. */
  lemma SortKeepsNoDuplicates(s: seq<string>)
    requires NoDuplicates(s)
    ensures NoDuplicates(Sort(s))
  {
    SortSpec(s);
    NoDuplicatesByCount(s);
    NoDuplicatesByCount(Sort(s));
  }

  /** Sorting keeps exactly the elements that were there. */
  lemma SortKeepsMembers(s: seq<string>, x: string)
    ensures x in Sort(s) <==> x in s
  {
    SortSpec(s);
    assert x in Sort(s) <==> x in multiset(Sort(s));
    assert x in s <==> x in multiset(s);
  }


  /** Appending one string and sorting gives a list holding exactly that
      string and the old elements. */
  lemma SortAppendMembers(s: seq<string>, x: string)
    ensures forall k :: k in Sort(s + [x]) <==> k == x || k in s
  {
    forall k ensures k in Sort(s + [x]) <==> k == x || k in s {
      SortKeepsMembers(s + [x], k);
    }
  }
}
