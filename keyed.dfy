/**
 * Ordered sequences of records identified by a string id, and the three
 * id-directed edits both slices make on them: find the first position with
 * an id (`findIndex`), remove the record there (`splice(index, 1)`), and
 * replace the record there by an edited copy (indexed assignment).
 *
 * `key` projects a record on its id. RemoveFirst and ReplaceFirst are
 * reference definitions by recursion on the sequence; the lemmas tie them to
 * the index-and-splice form the reducers use.
 */
module Keyed {

  /** `findIndex` by id: the first position whose record has id `id`, or -1. */
  function FirstIndexOf<T>(s: seq<T>, key: T -> string, id: string): (r: int)
    ensures -1 <= r < |s|
  {
    if s == [] then -1
    else if key(s[0]) == id then 0
    else
      var r := FirstIndexOf(s[1..], key, id);
      if r == -1 then -1 else r + 1
  }

  /** FirstIndexOf is -1 exactly when no record has the id, and otherwise
      points at a record with the id that no earlier record shares. */
  lemma {:induction false} FirstIndexOfFinds<T>(s: seq<T>, key: T -> string, id: string)
    ensures var r := FirstIndexOf(s, key, id);
            && (r == -1 <==> forall k :: 0 <= k < |s| ==> key(s[k]) != id)
            && (0 <= r ==> key(s[r]) == id)
            && (0 <= r ==> forall k :: 0 <= k < r ==> key(s[k]) != id)
  {
    if s != [] && key(s[0]) != id {
      FirstIndexOfFinds(s[1..], key, id);
      assert forall k :: 1 <= k < |s| ==> s[k] == s[1..][k - 1];
    }
  }

  /** True when no two records of `s` share an id. */
  predicate UniqueKeys<T>(s: seq<T>, key: T -> string) {
    forall i, j :: 0 <= i < j < |s| ==> key(s[i]) != key(s[j])
  }

  /** The set of ids occurring in `s`. */
  function Keys<T>(s: seq<T>, key: T -> string): set<string> {
    set k | 0 <= k < |s| :: key(s[k])
  }

  /** The ids of a concatenation are the ids of its two parts. */
  lemma {:induction false} KeysAppend<T>(s: seq<T>, t: seq<T>, key: T -> string)
    ensures Keys(s + t, key) == Keys(s, key) + Keys(t, key)
  {
    var st := s + t;
    forall x | x in Keys(st, key) ensures x in Keys(s, key) + Keys(t, key) {
      var k :| 0 <= k < |st| && key(st[k]) == x;
      if k >= |s| {
        assert key(t[k - |s|]) == x;
      }
    }
    forall x | x in Keys(s, key) ensures x in Keys(st, key) {
      var k :| 0 <= k < |s| && key(s[k]) == x;
      assert key(st[k]) == x;
    }
    forall x | x in Keys(t, key) ensures x in Keys(st, key) {
      var k :| 0 <= k < |t| && key(t[k]) == x;
      assert key(st[|s| + k]) == x;
    }
  }

  /** `s` without its first record whose id is `id`; `s` itself when none has it. */
  function RemoveFirst<T>(s: seq<T>, key: T -> string, id: string): (r: seq<T>)
    ensures |r| == if FirstIndexOf(s, key, id) == -1 then |s| else |s| - 1
  {
    if s == [] then []
    else if key(s[0]) == id then s[1..]
    else [s[0]] + RemoveFirst(s[1..], key, id)
  }

  /** The `findIndex` of the reducers returned -1: nothing is removed. */
  lemma {:induction false} RemoveFirstAbsent<T>(s: seq<T>, key: T -> string, id: string)
    requires FirstIndexOf(s, key, id) == -1
    ensures RemoveFirst(s, key, id) == s
  {
    if s != [] {
      RemoveFirstAbsent(s[1..], key, id);
      assert [s[0]] + s[1..] == s;
    }
  }

  /** RemoveFirst is the `findIndex` then `splice(index, 1)` of the reducers:
      exactly the record at the first matching position goes and the others
      keep their order. */
  lemma {:induction false} RemoveFirstAt<T>(s: seq<T>, key: T -> string, id: string)
    requires 0 <= FirstIndexOf(s, key, id)
    ensures var i := FirstIndexOf(s, key, id);
            RemoveFirst(s, key, id) == s[..i] + s[i + 1..]
  {
    if key(s[0]) == id {
      assert s[..0] + s[1..] == s[1..];
    } else {
      var t := s[1..];
      RemoveFirstAt(t, key, id);
      var j := FirstIndexOf(t, key, id);
      var a, b := t[..j], t[j + 1..];
      assert RemoveFirst(s, key, id) == [s[0]] + (a + b);
      assert [s[0]] + (a + b) == ([s[0]] + a) + b;
      assert [s[0]] + a == s[..j + 1];
      assert b == s[j + 2..];
    }
  }

  /** Removing the first record with an id that is present shortens the
      sequence by one and takes exactly that record out of its multiset. */
  lemma {:induction false} RemoveFirstCount<T>(s: seq<T>, key: T -> string, id: string)
    requires 0 <= FirstIndexOf(s, key, id)
    ensures |RemoveFirst(s, key, id)| == |s| - 1
    ensures multiset(RemoveFirst(s, key, id)) + multiset{s[FirstIndexOf(s, key, id)]} == multiset(s)
  {
    RemoveFirstAt(s, key, id);
    var i := FirstIndexOf(s, key, id);
    assert s == s[..i] + [s[i]] + s[i + 1..];
  }

  /** With unique ids the removed id is gone, every other id stays, and the
      result still has unique ids. */
  lemma {:induction false} RemoveFirstKeys<T>(s: seq<T>, key: T -> string, id: string)
    requires UniqueKeys(s, key)
    ensures Keys(RemoveFirst(s, key, id), key) == Keys(s, key) - {id}
    ensures UniqueKeys(RemoveFirst(s, key, id), key)
  {
    FirstIndexOfFinds(s, key, id);
    var i := FirstIndexOf(s, key, id);
    if i == -1 {
      RemoveFirstAbsent(s, key, id);
      assert id !in Keys(s, key);
    } else {
      RemoveFirstAt(s, key, id);
      RemoveAtKeys(s, key, i);
    }
  }

  /** Dropping position `i` of a sequence with unique ids drops exactly the
      id at `i` and keeps the ids unique. */
  lemma {:induction false} RemoveAtKeys<T>(s: seq<T>, key: T -> string, i: nat)
    requires i < |s| && UniqueKeys(s, key)
    ensures Keys(s[..i] + s[i + 1..], key) == Keys(s, key) - {key(s[i])}
    ensures UniqueKeys(s[..i] + s[i + 1..], key)
  {
    var r := s[..i] + s[i + 1..];
    assert forall k :: 0 <= k < |r| ==> r[k] == s[if k < i then k else k + 1];
    forall x | x in Keys(s, key) - {key(s[i])} ensures x in Keys(r, key) {
      var j :| 0 <= j < |s| && key(s[j]) == x;
      assert key(r[if j < i then j else j - 1]) == x;
    }
  }

  /** `s` with its first record whose id is `id` replaced by `f(record, a)`;
      `s` itself when none has it. */
  function ReplaceFirst<T, A>(s: seq<T>, key: T -> string, id: string, f: (T, A) -> T, a: A): (r: seq<T>)
    ensures |r| == |s|
  {
    if s == [] then []
    else if key(s[0]) == id then [f(s[0], a)] + s[1..]
    else [s[0]] + ReplaceFirst(s[1..], key, id, f, a)
  }

  /** The `findIndex` of the reducers returned -1: nothing is replaced. */
  lemma {:induction false} ReplaceFirstAbsent<T, A>(s: seq<T>, key: T -> string, id: string, f: (T, A) -> T, a: A)
    requires FirstIndexOf(s, key, id) == -1
    ensures ReplaceFirst(s, key, id, f, a) == s
  {
    if s != [] {
      ReplaceFirstAbsent(s[1..], key, id, f, a);
      assert [s[0]] + s[1..] == s;
    }
  }

  /** ReplaceFirst is the `findIndex` then `state[index] = …` of the reducers:
      only the first matching position is rewritten and every other position
      keeps its record. */
  lemma {:induction false} ReplaceFirstAt<T, A>(s: seq<T>, key: T -> string, id: string, f: (T, A) -> T, a: A)
    requires 0 <= FirstIndexOf(s, key, id)
    ensures var i := FirstIndexOf(s, key, id);
            ReplaceFirst(s, key, id, f, a) == s[i := f(s[i], a)]
  {
    if key(s[0]) != id {
      var t := s[1..];
      ReplaceFirstAt(t, key, id, f, a);
      var j := FirstIndexOf(t, key, id);
      assert [s[0]] + t[j := f(t[j], a)] == s[j + 1 := f(s[j + 1], a)];
    }
  }

  /** An edit that keeps the id of every record keeps the id at every position. */
  lemma {:induction false} ReplaceFirstKeepsKeys<T, A>(s: seq<T>, key: T -> string, id: string, f: (T, A) -> T, a: A)
    requires forall x :: key(f(x, a)) == key(x)
    ensures forall k :: 0 <= k < |s| ==> key(ReplaceFirst(s, key, id, f, a)[k]) == key(s[k])
    ensures Keys(ReplaceFirst(s, key, id, f, a), key) == Keys(s, key)
  {
    var r := ReplaceFirst(s, key, id, f, a);
    if FirstIndexOf(s, key, id) == -1 {
      ReplaceFirstAbsent(s, key, id, f, a);
    } else {
      ReplaceFirstAt(s, key, id, f, a);
    }
    assert forall k :: 0 <= k < |s| ==> key(r[k]) == key(s[k]);
    forall x | x in Keys(s, key) ensures x in Keys(r, key) {
      var j :| 0 <= j < |s| && key(s[j]) == x;
      assert key(r[j]) == x;
    }
  }
}
