/** The array operations the components build their new state from: `filter` by index, `filter`
    by value, and the "remove if present, else append" toggle used for defects and chips. */
module Lists {

  /** `s.filter((_, i) => i !== index)`. */
  function DropIndex<T>(s: seq<T>, index: int): seq<T>
  {
    if s == [] then [] else (if index == 0 then [] else [s[0]]) + DropIndex(s[1..], index - 1)
  }

  /** Filtering out one index drops exactly that element and keeps the others in order; an index
      outside the list drops nothing. */
  lemma {:induction false} DropIndexSlices<T>(s: seq<T>, index: int)
    ensures 0 <= index < |s| ==> DropIndex(s, index) == s[..index] + s[index + 1..]
    ensures !(0 <= index < |s|) ==> DropIndex(s, index) == s
  {
    if s != [] {
      DropIndexSlices(s[1..], index - 1);
      if index == 0 {
        assert s[1..] == s[..0] + s[1..];
      } else if 0 < index < |s| {
        assert s[..index] == [s[0]] + s[1..][..index - 1];
        assert s[index + 1..] == s[1..][index..];
      } else {
        assert s == [s[0]] + s[1..];
      }
    }
  }

  /** `s.filter(v => v !== x)`. */
  function RemoveAll<T(==)>(s: seq<T>, x: T): seq<T>
  {
    if s == [] then [] else (if s[0] == x then [] else [s[0]]) + RemoveAll(s[1..], x)
  }

  /** Filtering removes every occurrence of `x`, keeps every other element, and is the identity
      on a list without `x`. */
  lemma {:induction false} RemoveAllSpec<T>(s: seq<T>, x: T)
    ensures x !in RemoveAll(s, x)
    ensures forall y :: y != x ==> (y in RemoveAll(s, x) <==> y in s)
    ensures |RemoveAll(s, x)| <= |s|
    ensures x !in s ==> RemoveAll(s, x) == s
  {
    if s != [] {
      RemoveAllSpec(s[1..], x);
      assert s == [s[0]] + s[1..];
    }
  }

  lemma {:induction false} RemoveAllAppend<T>(s: seq<T>, t: seq<T>, x: T)
    ensures RemoveAll(s + t, x) == RemoveAll(s, x) + RemoveAll(t, x)
  {
    if s != [] {
      assert (s + t)[1..] == s[1..] + t;
      RemoveAllAppend(s[1..], t, x);
    } else {
      assert s + t == t;
    }
  }

  /** Remove every occurrence of `x` if present, otherwise append it at the end. */
  function Toggle<T(==)>(s: seq<T>, x: T): seq<T>
  {
    if x in s then RemoveAll(s, x) else s + [x]
  }

  /** A toggled value is present afterwards exactly when it was absent before; no other value's
      membership changes. */
  lemma ToggleMembership<T>(s: seq<T>, x: T)
    ensures x in Toggle(s, x) <==> x !in s
    ensures forall y :: y != x ==> (y in Toggle(s, x) <==> y in s)
  {
    RemoveAllSpec(s, x);
  }

  /** Toggling a value that is absent twice gives back the original list. */
  lemma ToggleTwice<T>(s: seq<T>, x: T)
    requires x !in s
    ensures Toggle(Toggle(s, x), x) == s
  {
    assert x in s + [x];
    RemoveAllAppend(s, [x], x);
    RemoveAllSpec(s, x);
    assert RemoveAll([x], x) == [] + RemoveAll([x][1..], x);
  }
}
