/** Lists of descriptors, newest first, duplicates allowed: what the client lists mean. */
module Sockets {

  function Index<T(==)>(s: seq<T>, x: T): (i: nat)
    ensures i <= |s|
    ensures i < |s| ==> s[i] == x
    ensures i < |s| <==> x in s
    ensures forall j :: 0 <= j < i ==> s[j] != x
  {
    if s == [] || s[0] == x then 0 else 1 + Index(s[1..], x)
  }

  function RemoveAt<T>(s: seq<T>, i: nat): (r: seq<T>)
    requires i < |s|
    ensures |r| == |s| - 1
  {
    s[..i] + s[i + 1..]
  }

  function RemoveFirst<T(==)>(s: seq<T>, x: T): seq<T> {
    var i := Index(s, x);
    if i < |s| then RemoveAt(s, i) else s
  }

  function Count<T(==)>(s: seq<T>, x: T): nat {
    multiset(s)[x]
  }

  predicate Distinct<T(==)>(s: seq<T>) {
    forall i, j :: 0 <= i < j < |s| ==> s[i] != s[j]
  }

  lemma IndexUnique<T>(s: seq<T>, x: T, i: nat)
    requires i < |s| && s[i] == x && forall j :: 0 <= j < i ==> s[j] != x
    ensures Index(s, x) == i
  {
  }

  lemma RemoveAtElements<T>(s: seq<T>, i: nat)
    requires i < |s|
    ensures forall j {:trigger RemoveAt(s, i)[j]} :: 0 <= j < |s| - 1 ==>
              RemoveAt(s, i)[j] == if j < i then s[j] else s[j + 1]
  {
  }

  lemma RemoveAtDistinct<T>(s: seq<T>, i: nat)
    requires i < |s| && Distinct(s)
    ensures Distinct(RemoveAt(s, i))
    ensures forall x :: x in RemoveAt(s, i) <==> x in s && x != s[i]
  {
    RemoveAtElements(s, i);
    forall x | x in s && x != s[i] ensures x in RemoveAt(s, i) {
      var k := Index(s, x);
      assert RemoveAt(s, i)[if k < i then k else k - 1] == x;
    }
  }

  lemma RemoveAtMultiset<T>(s: seq<T>, i: nat)
    requires i < |s|
    ensures multiset(RemoveAt(s, i)) == multiset(s) - multiset{s[i]}
  {
    assert s == s[..i] + [s[i]] + s[i + 1..];
  }

  /** Removal takes one occurrence away, if there is one, and touches no other descriptor. */
  lemma RemoveFirstMultiset<T>(s: seq<T>, x: T)
    ensures multiset(RemoveFirst(s, x)) == multiset(s) - multiset{x}
    ensures Count(RemoveFirst(s, x), x) == if x in s then Count(s, x) - 1 else 0
    ensures forall y :: y != x ==> Count(RemoveFirst(s, x), y) == Count(s, y)
  {
    if x in s {
      RemoveAtMultiset(s, Index(s, x));
    }
  }

  lemma RemoveFirstHead<T>(s: seq<T>, x: T)
    ensures RemoveFirst([x] + s, x) == s
  {
    IndexUnique([x] + s, x, 0);
  }

  lemma RemoveFirstPrefix<T>(a: seq<T>, b: seq<T>, x: T)
    requires x in a
    ensures Index(a + b, x) == Index(a, x)
    ensures RemoveFirst(a + b, x) == RemoveFirst(a, x) + b
  {
    var i := Index(a, x);
    IndexUnique(a + b, x, i);
    assert (a + b)[..i] == a[..i] && (a + b)[i + 1..] == a[i + 1..] + b;
    assert a[..i] + (a[i + 1..] + b) == a[..i] + a[i + 1..] + b;
  }

  lemma RemoveFirstDistinct<T>(s: seq<T>, x: T)
    requires Distinct(s)
    ensures Distinct(RemoveFirst(s, x)) && x !in RemoveFirst(s, x)
    ensures forall y :: y in RemoveFirst(s, x) <==> y in s && y != x
  {
    var i := Index(s, x);
    if i < |s| {
      RemoveAtDistinct(s, i);
    }
  }

  /** The list a sendmsg leaves, given which of its writes succeed; `kept` is behind the walk. */
  function AfterSend(kept: seq<int>, todo: seq<int>, ok: seq<bool>): seq<int>
    requires |ok| == |todo|
    decreases |todo|
  {
    if todo == [] then kept
    else
      var kept' := if ok[0] then kept + [todo[0]] else RemoveFirst(kept + [todo[0]], todo[0]);
      AfterSend(kept', todo[1..], ok[1..])
  }
}
