/** The orders the system sorts by: `localeCompare` on names and currency
    codes (taken here as code-point lexicographic order, which is how it orders
    the plain ASCII identifiers the system stores) and ascending or descending
    timestamps. Sorting is insertion of each element into an already sorted
    sequence, as a stable library sort would leave it up to ties. */
module Ordering {

  /** `s` sorts at or before `t`: lexicographic order on code points. */
  predicate LexLe(s: string, t: string)
  {
    if |s| == 0 then true
    else if |t| == 0 then false
    else if s[0] < t[0] then true
    else if t[0] < s[0] then false
    else LexLe(s[1..], t[1..])
  }

  lemma {:induction false} LexTotal(s: string, t: string)
    ensures LexLe(s, t) || LexLe(t, s)
  {
    if |s| > 0 && |t| > 0 && s[0] == t[0] {
      LexTotal(s[1..], t[1..]);
    }
  }

  lemma {:induction false} LexAntisymmetric(s: string, t: string)
    requires LexLe(s, t) && LexLe(t, s)
    ensures s == t
  {
    if |s| > 0 && |t| > 0 {
      LexAntisymmetric(s[1..], t[1..]);
      assert s == [s[0]] + s[1..] && t == [t[0]] + t[1..];
    }
  }

  lemma {:induction false} LexTransitive(s: string, t: string, u: string)
    requires LexLe(s, t) && LexLe(t, u)
    ensures LexLe(s, u)
  {
    if |s| > 0 && |t| > 0 && |u| > 0 && s[0] == t[0] && t[0] == u[0] {
      LexTransitive(s[1..], t[1..], u[1..]);
    }
  }

  /** Every adjacent pair is in order of `key`. */
  predicate SortedBy<T>(s: seq<T>, key: T -> string)
  {
    forall i :: 0 < i < |s| ==> LexLe(key(s[i - 1]), key(s[i]))
  }

  /** `x` placed before the first element it does not sort after. */
  function InsertBy<T>(x: T, s: seq<T>, key: T -> string): (r: seq<T>)
    requires SortedBy(s, key)
    ensures SortedBy(r, key)
    ensures multiset(r) == multiset(s) + multiset{x}
    ensures |r| == |s| + 1 && (r[0] == x || (|s| > 0 && r[0] == s[0]))
  {
    if |s| == 0 then [x]
    else if LexLe(key(x), key(s[0])) then [x] + s
    else
      LexTotal(key(x), key(s[0]));
      var rest := InsertBy(x, s[1..], key);
      assert s == [s[0]] + s[1..];
      [s[0]] + rest
  }

  /** `s` sorted by `key`, with exactly the same elements. */
  function SortBy<T>(s: seq<T>, key: T -> string): (r: seq<T>)
    ensures SortedBy(r, key)
    ensures multiset(r) == multiset(s)
  {
    if |s| == 0 then []
    else
      assert s == s[..|s| - 1] + [s[|s| - 1]];
      InsertBy(s[|s| - 1], SortBy(s[..|s| - 1], key), key)
  }

  /** Every adjacent pair is in ascending order of the integer `key`. */
  predicate AscendingBy<T>(s: seq<T>, key: T -> int)
  {
    forall i :: 0 < i < |s| ==> key(s[i - 1]) <= key(s[i])
  }

  lemma {:induction false} AscendingAll<T>(s: seq<T>, key: T -> int, i: int, j: int)
    requires AscendingBy(s, key) && 0 <= i <= j < |s|
    ensures key(s[i]) <= key(s[j])
    decreases j - i
  {
    if i < j {
      AscendingAll(s, key, i, j - 1);
    }
  }

  function InsertByInt<T>(x: T, s: seq<T>, key: T -> int): (r: seq<T>)
    requires AscendingBy(s, key)
    ensures AscendingBy(r, key)
    ensures multiset(r) == multiset(s) + multiset{x}
    ensures |r| == |s| + 1 && (r[0] == x || (|s| > 0 && r[0] == s[0]))
  {
    if |s| == 0 then [x]
    else if key(x) <= key(s[0]) then [x] + s
    else
      var rest := InsertByInt(x, s[1..], key);
      assert s == [s[0]] + s[1..];
      [s[0]] + rest
  }

  /** `s` in ascending order of the integer `key`, with exactly the same elements. */
  function SortByInt<T>(s: seq<T>, key: T -> int): (r: seq<T>)
    ensures AscendingBy(r, key)
    ensures multiset(r) == multiset(s)
  {
    if |s| == 0 then []
    else
      assert s == s[..|s| - 1] + [s[|s| - 1]];
      InsertByInt(s[|s| - 1], SortByInt(s[..|s| - 1], key), key)
  }

  /** `LexLe` is antisymmetric on every pair, stated once for the solver. */
  lemma LexAntisymmetricAll()
    ensures forall s: string, t: string {:trigger LexLe(s, t), LexLe(t, s)} :: LexLe(s, t) && LexLe(t, s) ==> s == t
  {
    forall s: string, t: string | LexLe(s, t) && LexLe(t, s)
      ensures s == t
    {
      LexAntisymmetric(s, t);
    }
  }

  predicate IsLeast(m: string, s: set<string>)
  {
    m in s && forall x :: x in s ==> LexLe(m, x)
  }

  lemma {:induction false} LeastExists(s: set<string>)
    requires s != {}
    ensures exists m :: IsLeast(m, s)
    decreases |s|
  {
    var y :| y in s;
    if s - {y} == {} {
      assert s == {y};
      assert LexLe(y, y) by { LexTotal(y, y); }
      assert IsLeast(y, s);
    } else {
      LeastExists(s - {y});
      var m :| IsLeast(m, s - {y});
      LexTotal(m, y);
      if LexLe(m, y) {
        assert IsLeast(m, s);
      } else {
        forall x | x in s
          ensures LexLe(y, x)
        {
          if x != y {
            LexTransitive(y, m, x);
          } else {
            LexTotal(y, y);
          }
        }
        assert IsLeast(y, s);
      }
    }
  }

  /** The least element of a non-empty set of strings. */
  function Least(s: set<string>): (m: string)
    requires s != {}
    ensures IsLeast(m, s)
  {
    LeastExists(s);
    LexAntisymmetricAll();
    var m :| IsLeast(m, s);
    m
  }

  /** Strictly increasing: sorted with no two equal elements. */
  predicate StrictlySorted(s: seq<string>)
  {
    forall i :: 0 < i < |s| ==> LexLe(s[i - 1], s[i]) && s[i - 1] != s[i]
  }

  /** The elements of a set in ascending order: `Array.from(set).sort()`. */
  function SortedList(s: set<string>): (r: seq<string>)
    ensures StrictlySorted(r)
    ensures forall x :: x in r <==> x in s
    ensures |r| == |s|
    ensures forall i, j :: 0 <= i < j < |r| ==> r[i] != r[j]
    ensures |r| > 0 ==> IsLeast(r[0], s)
    decreases |s|
  {
    if s == {} then []
    else
      var m := Least(s);
      var rest := SortedList(s - {m});
      assert |rest| > 0 ==> LexLe(m, rest[0]) && m != rest[0];
      [m] + rest
  }
}
