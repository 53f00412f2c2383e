/**
 `removeFromArray`: the list operation behind every unsubscription. A
 handler list loses the first element equal to the item (`indexOf`, then
 `splice(index, 1)`), and stays as it was when the item is absent.
 */
module Registry {

  /** The list `removeFromArray(a, x)` leaves: `a` without its first `x`. */
  function RemoveFirst<T(==)>(a: seq<T>, x: T): seq<T>
  {
    if a == [] then []
    else if a[0] == x then a[1..]
    else [a[0]] + RemoveFirst(a[1..], x)
  }

  /** Removing an item that is not in the list changes nothing. */
  lemma {:induction false} RemoveAbsent<T>(a: seq<T>, x: T)
    requires x !in a
    ensures RemoveFirst(a, x) == a
  {
    if a != [] {
      assert a[0] != x && x !in a[1..];
      RemoveAbsent(a[1..], x);
      assert a == [a[0]] + a[1..];
    }
  }

  /** Removing the item at its first position `i` keeps every other element,
      in order: what comes before `i`, then what comes after. */
  lemma {:induction false} RemoveAt<T>(a: seq<T>, x: T, i: nat)
    requires i < |a| && a[i] == x && x !in a[..i]
    ensures RemoveFirst(a, x) == a[..i] + a[i + 1..]
  {
    if i > 0 {
      assert a[0] in a[..i];
      assert a[1..][i - 1] == x && a[1..][..i - 1] == a[..i][1..];
      RemoveAt(a[1..], x, i - 1);
      assert a[..i] == [a[0]] + a[1..][..i - 1];
      assert a[i + 1..] == a[1..][i..];
    }
  }

  /** The list shrinks by one exactly when the item was in it, and what it
      loses is one copy of that item. */
  lemma {:induction false} RemoveCounts<T>(a: seq<T>, x: T)
    ensures |RemoveFirst(a, x)| == if x in a then |a| - 1 else |a|
    ensures multiset(RemoveFirst(a, x)) == multiset(a) - multiset{x}
  {
    if a != [] {
      RemoveCounts(a[1..], x);
      assert a == [a[0]] + a[1..];
      if a[0] != x {
        assert x in a <==> x in a[1..];
      }
    }
  }

  /** Appending an item and removing it again restores a list that did not
      hold it; with an earlier copy present it is that copy that goes. */
  lemma {:induction false} RemoveAfterAppend<T>(a: seq<T>, x: T)
    ensures x !in a ==> RemoveFirst(a + [x], x) == a
    ensures x in a ==> RemoveFirst(a + [x], x) == RemoveFirst(a, x) + [x]
  {
    if a != [] {
      assert (a + [x])[1..] == a[1..] + [x];
      RemoveAfterAppend(a[1..], x);
    }
  }

  /** `array.indexOf(item)`: the first position holding `x`, or -1. */
  method IndexOf<T(==)>(a: seq<T>, x: T) returns (index: int)
    ensures -1 <= index < |a|
    ensures index == -1 <==> x !in a
    ensures index != -1 ==> a[index] == x && x !in a[..index]
  {
    index := 0;
    while index < |a|
      invariant 0 <= index <= |a|
      invariant x !in a[..index]
    {
      if a[index] == x {
        return;
      }
      assert a[..index + 1] == a[..index] + [a[index]];
      index := index + 1;
    }
    assert a[..index] == a;
    index := -1;
  }

  /** `removeFromArray(array, item)`: returns the list the array holds
      afterwards. */
  method RemoveFromArray<T(==)>(a: seq<T>, x: T) returns (r: seq<T>)
    ensures r == RemoveFirst(a, x)
  {
    var index := IndexOf(a, x);
    if index == -1 {
      RemoveAbsent(a, x);
      return a;
    }
    RemoveAt(a, x, index);
    r := a[..index] + a[index + 1..];   // splice(index, 1)
  }
}
