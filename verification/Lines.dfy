/** The reference meaning of a newline-delimited stream, with no buffers and no blocks. */
module Lines {
  import opened Bytes

  /** The complete lines of a stream, without their newlines. */
  function Split(s: seq<byte>): seq<seq<byte>> {
    var p := IndexOf(s, NL);
    if p == |s| then [] else [s[..p]] + Split(s[p + 1..])
  }

  /** What follows the last newline. */
  function Tail(s: seq<byte>): (t: seq<byte>)
    ensures |t| <= |s|
  {
    var p := IndexOf(s, NL);
    if p == |s| then s else Tail(s[p + 1..])
  }

  /** The stream that carries the given lines. */
  function Join(ls: seq<seq<byte>>): seq<byte> {
    if ls == [] then [] else ls[0] + [NL] + Join(ls[1..])
  }

  /** Dropping the one carriage return that may stand before the newline. */
  function Strip(l: seq<byte>): seq<byte> {
    if |l| > 0 && l[|l| - 1] == CR then l[..|l| - 1] else l
  }

  /** One carriage return goes, and nothing else. */
  lemma StripMeaning(l: seq<byte>)
    ensures Strip(l + [CR]) == l
    ensures (l == [] || l[|l| - 1] != CR) ==> Strip(l) == l
  {
  }

  function StripAll(ls: seq<seq<byte>>): (r: seq<seq<byte>>)
    ensures |r| == |ls|
  {
    if ls == [] then [] else [Strip(ls[0])] + StripAll(ls[1..])
  }

  function NonEmpty(ls: seq<seq<byte>>): seq<seq<byte>> {
    if ls == [] then []
    else if ls[0] == [] then NonEmpty(ls[1..])
    else [ls[0]] + NonEmpty(ls[1..])
  }

  /** The requests a stream holds: its non-empty lines, less their carriage returns. */
  function Requests(s: seq<byte>): seq<seq<byte>> {
    NonEmpty(StripAll(Split(s)))
  }

  /** The first line of a stream that starts with a newline-free piece and its newline. */
  lemma FirstLine(l: seq<byte>, rest: seq<byte>)
    requires NL !in l
    ensures IndexOf(l + [NL] + rest, NL) == |l|
    ensures Split(l + [NL] + rest) == [l] + Split(rest)
    ensures Tail(l + [NL] + rest) == Tail(rest)
  {
    var s := l + [NL] + rest;
    assert s[..|l|] == l;
    IndexOfUnique(s, NL, |l|);
    assert s[|l| + 1..] == rest;
  }

  lemma FirstLineConcat(a: seq<byte>, b: seq<byte>, l: seq<byte>, rest: seq<byte>)
    requires var p := IndexOf(a, NL); p < |a| && l == a[..p] && rest == a[p + 1..]
    ensures IndexOf(a + b, NL) == |l| && (a + b)[..|l|] == l && (a + b)[|l| + 1..] == rest + b
    ensures Split(a) == [l] + Split(rest) && Split(a + b) == [l] + Split(rest + b)
    ensures Tail(a) == Tail(rest) && Tail(a + b) == Tail(rest + b)
  {
    assert (a + b)[..|l|] == l && (a + b)[|l| + 1..] == rest + b;
    IndexOfUnique(a + b, NL, |l|);
  }

  lemma NoLine(s: seq<byte>)
    requires NL !in s
    ensures Split(s) == [] && Tail(s) == s && IndexOf(s, NL) == |s|
  {
    IndexOfNone(s, NL);
  }

  lemma JoinCons(l: seq<byte>, ls: seq<seq<byte>>)
    ensures Join([l] + ls) == l + [NL] + Join(ls)
  {
    assert ([l] + ls)[1..] == ls;
  }

  lemma Assoc<T>(a: seq<T>, b: seq<T>, c: seq<T>)
    ensures a + b + c == a + (b + c)
  {
  }

  lemma {:induction false} SplitHasNoNewline(s: seq<byte>)
    ensures forall l :: l in Split(s) ==> NL !in l
    ensures NL !in Tail(s)
  {
    var p := IndexOf(s, NL);
    if p < |s| {
      SplitHasNoNewline(s[p + 1..]);
    } else {
      IndexOfNone(s, NL);
    }
  }

  /** Splitting loses nothing. */
  lemma {:induction false} JoinSplit(s: seq<byte>)
    ensures Join(Split(s)) + Tail(s) == s
  {
    var p := IndexOf(s, NL);
    if p < |s| {
      var rest := s[p + 1..];
      JoinSplit(rest);
      JoinCons(s[..p], Split(rest));
      Assoc(s[..p] + [NL], Join(Split(rest)), Tail(rest));
    }
  }

  /** Splitting is the only way to read a stream as lines and a tail. */
  lemma {:induction false} SplitJoin(ls: seq<seq<byte>>, t: seq<byte>)
    requires forall l :: l in ls ==> NL !in l
    requires NL !in t
    ensures Split(Join(ls) + t) == ls && Tail(Join(ls) + t) == t
  {
    if ls == [] {
      assert Join(ls) + t == t;
      NoLine(t);
    } else {
      SplitJoin(ls[1..], t);
      Assoc(ls[0] + [NL], Join(ls[1..]), t);
      FirstLine(ls[0], Join(ls[1..]) + t);
    }
  }

  lemma {:induction false} TailConcat(a: seq<byte>, b: seq<byte>)
    ensures Tail(a + b) == Tail(Tail(a) + b)
  {
    var p := IndexOf(a, NL);
    if p < |a| {
      FirstLineConcat(a, b, a[..p], a[p + 1..]);
      TailConcat(a[p + 1..], b);
    }
  }

  /** Bytes that arrive later only extend the tail of what was there before. */
  lemma {:induction false} SplitConcat(a: seq<byte>, b: seq<byte>, u: seq<byte>)
    requires u == Tail(a) + b
    ensures Split(a + b) == Split(a) + Split(u)
  {
    var p := IndexOf(a, NL);
    if p < |a| {
      var l, rest := a[..p], a[p + 1..];
      FirstLineConcat(a, b, l, rest);
      SplitConcat(rest, b, u);
      Assoc([l], Split(rest), Split(u));
    } else {
      assert Split(a) == [];
    }
  }

  lemma {:induction false} NonEmptyConcat(a: seq<seq<byte>>, b: seq<seq<byte>>)
    ensures NonEmpty(StripAll(a + b)) == NonEmpty(StripAll(a)) + NonEmpty(StripAll(b))
  {
    if a == [] {
      assert a + b == b;
    } else {
      var h := if Strip(a[0]) == [] then [] else [Strip(a[0])];
      NonEmptyConcat(a[1..], b);
      assert NonEmpty(StripAll(a + b)) == h + NonEmpty(StripAll(a[1..] + b)) by {
        assert (a + b)[0] == a[0] && (a + b)[1..] == a[1..] + b;
        StripAllCons(a + b);
      }
      assert NonEmpty(StripAll(a)) == h + NonEmpty(StripAll(a[1..])) by {
        StripAllCons(a);
      }
      Assoc(h, NonEmpty(StripAll(a[1..])), NonEmpty(StripAll(b)));
    }
  }

  lemma StripAllCons(ls: seq<seq<byte>>)
    requires ls != []
    ensures NonEmpty(StripAll(ls)) ==
            (if Strip(ls[0]) == [] then [] else [Strip(ls[0])]) + NonEmpty(StripAll(ls[1..]))
  {
    assert StripAll(ls)[1..] == StripAll(ls[1..]);
  }

  /** More bytes never change the requests already in the stream. */
  lemma RequestsConcat(a: seq<byte>, b: seq<byte>)
    ensures Requests(a + b) == Requests(a) + Requests(Tail(a) + b)
    ensures Requests(a) <= Requests(a + b)
  {
    SplitConcat(a, b, Tail(a) + b);
    NonEmptyConcat(Split(a), Split(Tail(a) + b));
  }

  lemma RequestsOfLine(l: seq<byte>)
    requires NL !in l
    ensures Requests(l + [NL]) == if Strip(l) == [] then [] else [Strip(l)]
    ensures Tail(l + [NL]) == []
  {
    FirstLine(l, []);
    NoLine([]);
    assert l + [NL] + [] == l + [NL];
    assert Split(l + [NL]) == [l];
    StripAllCons([l]);
  }
}
