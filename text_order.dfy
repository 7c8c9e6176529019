/**
 * Python's ordering of strings (character by character, a proper prefix first) and a
 * sort by a string key, as `sorted(d.items())` produces for a dictionary keyed by symbol.
 */
module TextOrder {

  /** `a <= b` on Python strings. */
  predicate StrLe(a: string, b: string)
    decreases |a|
  {
    |a| == 0 || (|b| > 0 && (a[0] < b[0] || (a[0] == b[0] && StrLe(a[1..], b[1..]))))
  }

  lemma {:induction false} StrLeTotal(a: string, b: string)
    ensures StrLe(a, b) || StrLe(b, a)
    decreases |a|
  {
    if |a| > 0 && |b| > 0 && a[0] == b[0] {
      StrLeTotal(a[1..], b[1..]);
    }
  }

  lemma {:induction false} StrLeTrans(a: string, b: string, c: string)
    requires StrLe(a, b) && StrLe(b, c)
    ensures StrLe(a, c)
    decreases |a|
  {
    if |a| > 0 && a[0] == b[0] && b[0] == c[0] {
      StrLeTrans(a[1..], b[1..], c[1..]);
    }
  }

  ghost predicate SortedBy<T>(s: seq<T>, name: T -> string) {
    forall i, j :: 0 <= i < j < |s| ==> StrLe(name(s[i]), name(s[j]))
  }

  /** Places `x` in front of the first item whose name is not smaller than its own. */
  function InsertBy<T>(x: T, s: seq<T>, name: T -> string): (r: seq<T>)
    ensures |r| == |s| + 1
  {
    if |s| == 0 then [x]
    else if StrLe(name(x), name(s[0])) then [x] + s
    else [s[0]] + InsertBy(x, s[1..], name)
  }

  /** Insertion sort by name, smallest first. */
  function SortBy<T>(s: seq<T>, name: T -> string): (r: seq<T>)
    ensures |r| == |s|
  {
    if |s| == 0 then [] else InsertBy(s[0], SortBy(s[1..], name), name)
  }

  lemma {:induction false} InsertByPermutes<T>(x: T, s: seq<T>, name: T -> string)
    ensures multiset(InsertBy(x, s, name)) == multiset(s) + multiset{x}
  {
    if |s| > 0 && !StrLe(name(x), name(s[0])) {
      InsertByPermutes(x, s[1..], name);
      assert s == [s[0]] + s[1..];
    }
  }

  lemma {:induction false} InsertBySorted<T>(x: T, s: seq<T>, name: T -> string)
    requires SortedBy(s, name)
    ensures SortedBy(InsertBy(x, s, name), name)
  {
    if |s| == 0 {
    } else if StrLe(name(x), name(s[0])) {
      var r := [x] + s;
      forall i, j | 0 <= i < j < |r| ensures StrLe(name(r[i]), name(r[j])) {
        if i == 0 && j > 1 {
          StrLeTrans(name(x), name(s[0]), name(s[j - 1]));
        }
      }
    } else {
      var rest := InsertBy(x, s[1..], name);
      InsertBySorted(x, s[1..], name);
      StrLeTotal(name(x), name(s[0]));
      assert forall k :: 0 <= k < |s[1..]| ==> s[1..][k] == s[k + 1];
      InsertByBound(x, s[1..], name, name(s[0]));
      var r := [s[0]] + rest;
      assert InsertBy(x, s, name) == r;
      forall i, j | 0 <= i < j < |r| ensures StrLe(name(r[i]), name(r[j])) {
        if i == 0 { assert r[j] == rest[j - 1]; }
      }
    }
  }

  /** A name below `x`'s and below every item's is below every item after the insertion. */
  lemma {:induction false} InsertByBound<T>(x: T, s: seq<T>, name: T -> string, low: string)
    requires StrLe(low, name(x)) && forall k :: 0 <= k < |s| ==> StrLe(low, name(s[k]))
    ensures forall k :: 0 <= k < |InsertBy(x, s, name)| ==> StrLe(low, name(InsertBy(x, s, name)[k]))
  {
    if |s| > 0 && !StrLe(name(x), name(s[0])) {
      assert forall k :: 0 <= k < |s[1..]| ==> s[1..][k] == s[k + 1];
      InsertByBound(x, s[1..], name, low);
      var r := [s[0]] + InsertBy(x, s[1..], name);
      assert InsertBy(x, s, name) == r;
      forall k | 0 <= k < |r| ensures StrLe(low, name(r[k])) {
        if k > 0 { assert r[k] == InsertBy(x, s[1..], name)[k - 1]; }
      }
    }
  }

  lemma {:induction false} SortBySorted<T>(s: seq<T>, name: T -> string)
    ensures SortedBy(SortBy(s, name), name)
  {
    if |s| > 0 {
      SortBySorted(s[1..], name);
      InsertBySorted(s[0], SortBy(s[1..], name), name);
    }
  }

  lemma {:induction false} SortByPermutes<T>(s: seq<T>, name: T -> string)
    ensures multiset(SortBy(s, name)) == multiset(s)
  {
    if |s| > 0 {
      SortByPermutes(s[1..], name);
      InsertByPermutes(s[0], SortBy(s[1..], name), name);
      assert s == [s[0]] + s[1..];
    }
  }

  /** The sort orders items by name and holds exactly the input items. */
  lemma SortByCorrect<T>(s: seq<T>, name: T -> string)
    ensures SortedBy(SortBy(s, name), name)
    ensures multiset(SortBy(s, name)) == multiset(s)
  {
    SortBySorted(s, name);
    SortByPermutes(s, name);
  }
}
