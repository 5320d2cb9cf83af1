/** Bytes and the two C string routines whose treatment of NUL shows in creadline_r. */
module Bytes {

  newtype byte = b: int | 0 <= b < 256

  const NUL: byte := 0
  const NL: byte := 10
  const CR: byte := 13

  predicate NulFree(s: seq<byte>) {
    NUL !in s
  }

  /** A C string's contents. */
  type Text = s: seq<byte> | NulFree(s) witness []

  /** Index of the first `c` in `s`, or |s| when there is none: plain search. */
  function IndexOf(s: seq<byte>, c: byte): (i: nat)
    ensures i <= |s|
    ensures i < |s| ==> s[i] == c
    ensures c !in s[..i]
  {
    if s == [] || s[0] == c then 0 else
      var i := IndexOf(s[1..], c);
      assert s[..i + 1] == [s[0]] + s[1..][..i];
      i + 1
  }

  lemma IndexOfUnique(s: seq<byte>, c: byte, i: nat)
    requires i < |s| && s[i] == c && c !in s[..i]
    ensures IndexOf(s, c) == i
  {
    if i > 0 {
      assert s[..i] == [s[0]] + s[1..][..i - 1];
      IndexOfUnique(s[1..], c, i - 1);
    }
  }

  lemma IndexOfNone(s: seq<byte>, c: byte)
    ensures IndexOf(s, c) == |s| <==> c !in s
  {
    assert s[..|s|] == s;
  }

  /** What strnpos computes: the search gives up at the first NUL. */
  function StrNPos(s: seq<byte>, c: byte): (r: int)
    ensures -1 <= r < |s|
  {
    if s == [] then -1
    else if s[0] == c then 0
    else if s[0] == NUL then -1
    else
      var r := StrNPos(s[1..], c);
      if r < 0 then -1 else r + 1
  }

  /** strnpos finds the first `c`, unless a NUL comes before it. */
  lemma {:induction false} StrNPosMeaning(s: seq<byte>, c: byte)
    requires c != NUL
    ensures StrNPos(s, c) ==
            if IndexOf(s, c) < |s| && NulFree(s[..IndexOf(s, c)]) then IndexOf(s, c) else -1
  {
    if s != [] && s[0] != c {
      var i := IndexOf(s[1..], c);
      assert s[..i + 1] == [s[0]] + s[1..][..i];
      if s[0] != NUL {
        StrNPosMeaning(s[1..], c);
      }
    }
  }

  /** On NUL-free data strnpos is plain search. */
  lemma StrNPosIsSearch(s: seq<byte>, c: byte)
    requires NulFree(s) && c != NUL
    ensures StrNPos(s, c) == if c in s then IndexOf(s, c) else -1
  {
    StrNPosMeaning(s, c);
    IndexOfNone(s, c);
  }

  /** What strncpy(dst, s, |s|) leaves in dst: bytes after a NUL become NUL. */
  function StrNCpy(s: seq<byte>): (r: seq<byte>)
    ensures |r| == |s|
  {
    if s == [] then []
    else if s[0] == NUL then seq(|s|, _ => NUL)
    else [s[0]] + StrNCpy(s[1..])
  }

  /** strncpy is a faithful copy exactly when nothing but NUL follows a NUL. */
  lemma {:induction false} StrNCpyIsCopy(s: seq<byte>)
    ensures StrNCpy(s) == s <==> forall i, j :: 0 <= i < j < |s| && s[i] == NUL ==> s[j] == NUL
    ensures NulFree(s) ==> StrNCpy(s) == s
  {
    if s == [] {
    } else if s[0] == NUL {
    } else {
      StrNCpyIsCopy(s[1..]);
      var t := s[1..];
      assert s == [s[0]] + t;
      if StrNCpy(s) == s {
        assert StrNCpy(s)[1..] == StrNCpy(t);
        forall i, j | 0 <= i < j < |s| && s[i] == NUL ensures s[j] == NUL {
          assert t[i - 1] == NUL && t[j - 1] == s[j];
        }
      }
      if forall i, j :: 0 <= i < j < |s| && s[i] == NUL ==> s[j] == NUL {
        forall i, j | 0 <= i < j < |t| && t[i] == NUL ensures t[j] == NUL {
          assert s[i + 1] == NUL && s[j + 1] == t[j];
        }
      }
    }
  }

  /** How many bytes strnpos looks at. */
  function Looked(s: seq<byte>, c: byte): (n: nat)
    ensures n <= |s|
  {
    if s == [] then 0 else if s[0] == c || s[0] == NUL then 1 else 1 + Looked(s[1..], c)
  }

  /** It looks at what comes before the byte found and at that, else at everything up to a NUL. */
  lemma {:induction false} LookedMeaning(s: seq<byte>, c: byte)
    ensures StrNPos(s, c) >= 0 ==> Looked(s, c) == StrNPos(s, c) + 1
    ensures StrNPos(s, c) < 0 && NulFree(s) ==> Looked(s, c) == |s|
  {
    if s != [] {
      LookedMeaning(s[1..], c);
    }
  }

  /** The index loop of strnpos over `n` bytes of `a` from `off`; `looked` counts the bytes it looks at. */
  method StrNPosLoop(a: array<byte>, off: nat, c: byte, n: nat) returns (r: int, ghost looked: nat)
    requires off + n <= a.Length
    ensures r == StrNPos(a[off..off + n], c) && looked == Looked(a[off..off + n], c)
  {
    looked := 0;
    ghost var s := a[off..off + n];
    var pos := 0;
    while pos < n
      invariant 0 <= pos <= n
      invariant StrNPos(s, c) == var k := StrNPos(s[pos..], c); if k < 0 then -1 else pos + k
      invariant Looked(s, c) == looked + Looked(s[pos..], c)
    {
      assert s[pos..][0] == a[off + pos] && s[pos..][1..] == s[pos + 1..];
      looked := looked + 1;
      if a[off + pos] == c {
        return pos, looked;
      }
      if a[off + pos] == NUL {
        return -1, looked;
      }
      pos := pos + 1;
    }
    assert s[n..] == [];
    r := -1;
  }

  /** strncpy(dst + dstOff, src + srcOff, n). */
  method StrNCpyLoop(dst: array<byte>, src: array<byte>, srcOff: nat, n: nat)
    requires n <= dst.Length && srcOff + n <= src.Length && dst != src
    modifies dst
    ensures dst[..n] == StrNCpy(src[srcOff..srcOff + n])
    ensures dst[n..] == old(dst[n..])
  {
    ghost var s := src[srcOff..srcOff + n];
    var i := 0;
    while i < n && src[srcOff + i] != NUL
      invariant 0 <= i <= n
      invariant dst[n..] == old(dst[n..])
      invariant forall j :: 0 <= j < i ==> dst[j] == s[j] && s[j] != NUL
    {
      dst[i] := src[srcOff + i];
      i := i + 1;
    }
    ghost var k := i;
    while i < n
      invariant k <= i <= n
      invariant dst[n..] == old(dst[n..])
      invariant forall j :: 0 <= j < k ==> dst[j] == s[j]
      invariant forall j :: k <= j < i ==> dst[j] == NUL
    {
      dst[i] := NUL;
      i := i + 1;
    }
    StrNCpyStopsAt(s, k);
    assert dst[..n] == s[..k] + seq(n - k, _ => NUL);
  }

  /** Everything before the first NUL is copied, and NUL from there on. */
  lemma {:induction false} StrNCpyStopsAt(s: seq<byte>, k: nat)
    requires k <= |s| && (k < |s| ==> s[k] == NUL)
    requires forall j :: 0 <= j < k ==> s[j] != NUL
    ensures StrNCpy(s) == s[..k] + seq(|s| - k, _ => NUL)
  {
    if 0 < k {
      StrNCpyStopsAt(s[1..], k - 1);
      assert s[..k] == [s[0]] + s[1..][..k - 1];
    }
  }
}
