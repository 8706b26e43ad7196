/** The in-memory list updates the components apply after a remote call succeeds:
    `prev.filter(x => key(x) !== k)` and `prev.map(x => id(x) === id(u) ? u : x)`. */
module Lists {

  /** `s.filter(x => keyOf(x) !== key)`. */
  function RemoveByKey<T>(s: seq<T>, key: string, keyOf: T -> string): (r: seq<T>)
    ensures |r| <= |s|
    ensures forall i :: 0 <= i < |r| ==> r[i] in s && keyOf(r[i]) != key
    ensures forall i :: 0 <= i < |s| && keyOf(s[i]) != key ==> s[i] in r
  {
    if s == [] then []
    else
      var last := s[|s| - 1];
      var init := s[..|s| - 1];
      RemoveByKey(init, key, keyOf) + (if keyOf(last) != key then [last] else [])
  }

  /** Removing works element by element: the kept elements stay in their order. */
  lemma {:induction false} RemoveByKeyConcat<T>(a: seq<T>, b: seq<T>, key: string, keyOf: T -> string)
    ensures RemoveByKey(a + b, key, keyOf) == RemoveByKey(a, key, keyOf) + RemoveByKey(b, key, keyOf)
  {
    if b == [] {
      assert a + b == a;
    } else {
      assert (a + b)[..|a + b| - 1] == a + b[..|b| - 1];
      RemoveByKeyConcat(a, b[..|b| - 1], key, keyOf);
    }
  }

  /** When no element carries the key, nothing changes. */
  lemma {:induction false} RemoveByKeyAbsent<T>(s: seq<T>, key: string, keyOf: T -> string)
    requires forall i :: 0 <= i < |s| ==> keyOf(s[i]) != key
    ensures RemoveByKey(s, key, keyOf) == s
  {
    if s != [] {
      RemoveByKeyAbsent(s[..|s| - 1], key, keyOf);
    }
  }

  /** Removing twice is removing once. */
  lemma RemoveByKeyIdempotent<T>(s: seq<T>, key: string, keyOf: T -> string)
    ensures RemoveByKey(RemoveByKey(s, key, keyOf), key, keyOf) == RemoveByKey(s, key, keyOf)
  {
    var r := RemoveByKey(s, key, keyOf);
    assert forall i :: 0 <= i < |r| ==> keyOf(r[i]) != key by {
      forall i | 0 <= i < |r| ensures keyOf(r[i]) != key {
        assert r[i] in r;
      }
    }
    RemoveByKeyAbsent(r, key, keyOf);
  }

  /** Exactly the elements carrying the key go: the length drops by their number. */
  function CountKey<T>(s: seq<T>, key: string, keyOf: T -> string): nat {
    if s == [] then 0 else CountKey(s[..|s| - 1], key, keyOf) + (if keyOf(s[|s| - 1]) == key then 1 else 0)
  }

  lemma {:induction false} RemoveByKeyLength<T>(s: seq<T>, key: string, keyOf: T -> string)
    ensures |RemoveByKey(s, key, keyOf)| == |s| - CountKey(s, key, keyOf)
  {
    if s != [] {
      RemoveByKeyLength(s[..|s| - 1], key, keyOf);
    }
  }

  /** `s.map(x => idOf(x) === idOf(u) ? u : x)`. */
  function ReplaceById<T>(s: seq<T>, u: T, idOf: T -> string): (r: seq<T>)
    ensures |r| == |s|
    ensures forall i :: 0 <= i < |s| && idOf(s[i]) == idOf(u) ==> r[i] == u
    ensures forall i :: 0 <= i < |s| && idOf(s[i]) != idOf(u) ==> r[i] == s[i]
  {
    if s == [] then []
    else
      var last := s[|s| - 1];
      ReplaceById(s[..|s| - 1], u, idOf) + [if idOf(last) == idOf(u) then u else last]
  }

  /** A replacement keeps the sequence of ids exactly as it was. */
  lemma ReplaceKeepsIds<T>(s: seq<T>, u: T, idOf: T -> string)
    ensures forall i :: 0 <= i < |s| ==> idOf(ReplaceById(s, u, idOf)[i]) == idOf(s[i])
  {
  }

  /** Replacing an id that is not present changes nothing. */
  lemma ReplaceAbsent<T>(s: seq<T>, u: T, idOf: T -> string)
    requires forall i :: 0 <= i < |s| ==> idOf(s[i]) != idOf(u)
    ensures ReplaceById(s, u, idOf) == s
  {
  }

  /** A replacement only touches elements with that id: removing the id afterwards gives
      the same list as removing it from the original. */
  lemma {:induction false} RemoveAfterReplace<T>(s: seq<T>, u: T, idOf: T -> string)
    ensures RemoveByKey(ReplaceById(s, u, idOf), idOf(u), idOf) == RemoveByKey(s, idOf(u), idOf)
  {
    if s != [] {
      var r := ReplaceById(s, u, idOf);
      assert r[..|r| - 1] == ReplaceById(s[..|s| - 1], u, idOf);
      RemoveAfterReplace(s[..|s| - 1], u, idOf);
    }
  }

  /** Replacing with the same value twice is replacing once. */
  lemma ReplaceIdempotent<T>(s: seq<T>, u: T, idOf: T -> string)
    ensures ReplaceById(ReplaceById(s, u, idOf), u, idOf) == ReplaceById(s, u, idOf)
  {
  }
}
