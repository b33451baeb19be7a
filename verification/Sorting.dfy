/** A stable sort by an integer key, standing for the library's `sort.Slice` calls. */
module Sorting {
  ghost predicate SortedBy<T>(key: T -> int, s: seq<T>) {
    forall i, j :: 0 <= i < j < |s| ==> key(s[i]) <= key(s[j])
  }

  ghost predicate Distinct<T, K>(name: T -> K, s: seq<T>) {
    forall i, j :: 0 <= i < j < |s| ==> name(s[i]) != name(s[j])
  }

  function Insert<T>(key: T -> int, x: T, s: seq<T>): (r: seq<T>)
    ensures |r| == |s| + 1
  {
    if s == [] || key(x) <= key(s[0]) then [x] + s else [s[0]] + Insert(key, x, s[1..])
  }

  function SortBy<T>(key: T -> int, s: seq<T>): (r: seq<T>)
    ensures |r| == |s|
  {
    if s == [] then [] else Insert(key, s[0], SortBy(key, s[1..]))
  }

  lemma {:induction false} InsertMember<T>(key: T -> int, x: T, s: seq<T>, t: T)
    ensures t in Insert(key, x, s) <==> t == x || t in s
  {
    if s != [] && key(x) > key(s[0]) {
      InsertMember(key, x, s[1..], t);
      assert s == [s[0]] + s[1..];
    }
  }

  lemma {:induction false} SortMember<T>(key: T -> int, s: seq<T>, t: T)
    ensures t in SortBy(key, s) <==> t in s
  {
    if s != [] {
      SortMember(key, s[1..], t);
      InsertMember(key, s[0], SortBy(key, s[1..]), t);
      assert s == [s[0]] + s[1..];
    }
  }

  lemma MemberIndex<T>(s: seq<T>, t: T) returns (i: nat)
    requires t in s
    ensures i < |s| && s[i] == t
  {
    i :| 0 <= i < |s| && s[i] == t;
  }

  lemma {:induction false} InsertSorts<T>(key: T -> int, x: T, s: seq<T>)
    requires SortedBy(key, s)
    ensures SortedBy(key, Insert(key, x, s))
  {
    if s != [] && key(x) > key(s[0]) {
      var r := Insert(key, x, s[1..]);
      InsertSorts(key, x, s[1..]);
      forall i | 0 <= i < |r| ensures key(s[0]) <= key(r[i]) {
        InsertMember(key, x, s[1..], r[i]);
        if r[i] != x {
          var j := MemberIndex(s[1..], r[i]);
        }
      }
    }
  }

  lemma {:induction false} InsertKeepsDistinct<T, K>(key: T -> int, name: T -> K, x: T, s: seq<T>)
    requires Distinct(name, s) && (forall i :: 0 <= i < |s| ==> name(s[i]) != name(x))
    ensures Distinct(name, Insert(key, x, s))
  {
    if s != [] && key(x) > key(s[0]) {
      var r := Insert(key, x, s[1..]);
      InsertKeepsDistinct(key, name, x, s[1..]);
      forall i | 0 <= i < |r| ensures name(r[i]) != name(s[0]) {
        InsertMember(key, x, s[1..], r[i]);
        if r[i] != x {
          var j := MemberIndex(s[1..], r[i]);
        }
      }
    }
  }

  /** In order, and no name twice where none was before. */
  lemma {:induction false} SortHolds<T, K>(key: T -> int, name: T -> K, s: seq<T>)
    ensures SortedBy(key, SortBy(key, s))
    ensures Distinct(name, s) ==> Distinct(name, SortBy(key, s))
  {
    if s != [] {
      var rest := SortBy(key, s[1..]);
      SortHolds(key, name, s[1..]);
      InsertSorts(key, s[0], rest);
      if Distinct(name, s) {
        forall i | 0 <= i < |rest| ensures name(rest[i]) != name(s[0]) {
          SortMember(key, s[1..], rest[i]);
          var j := MemberIndex(s[1..], rest[i]);
        }
        InsertKeepsDistinct(key, name, s[0], rest);
      }
    }
  }
}
