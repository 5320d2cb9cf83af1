/** The frame builder, and the round trip from payloads through both loops back to payloads. */
module Framing {
  import opened Bytes
  import opened System
  import opened RwN
  import CReadLine
  import Chunking
  import Lines

  /** What goes on the wire for one JSON text. */
  function Frame(text: Text): (f: Text)
    ensures f != [] && |f| == |text| + 1
  {
    text + [NL]
  }

  /** strlen */
  method StrLen(s: array<byte>) returns (n: nat)
    requires NUL in s[..]
    ensures n == IndexOf(s[..], NUL) < s.Length
  {
    n := 0;
    while n < s.Length && s[n] != NUL
      invariant 0 <= n <= s.Length && NUL !in s[..n]
    {
      assert s[..n + 1] == s[..n] + [s[n]];
      n := n + 1;
    }
    assert s[..s.Length] == s[..];
    assert s[..][..n] == s[..n];
    IndexOfUnique(s[..], NUL, n);
  }

  /** japi_get_jobj_as_ndstr, given the text json_object_to_json_string returns. */
  method AsNdStr(text: Text) returns (response: array<byte>)
    ensures fresh(response)
    ensures response[..] == Frame(text) + [NUL]
    ensures IndexOf(response[..], NUL) == |Frame(text)|
  {
    response := new byte[|text| + 2];
    var i := 0;
    while i < |text|
      invariant 0 <= i <= |text| && forall j :: 0 <= j < i ==> response[j] == text[j]
    {
      response[i] := text[i];
      i := i + 1;
    }
    response[|text|] := NL;
    response[|text| + 1] := NUL;
    assert response[..] == Frame(text) + [NUL];
    assert response[..][..|text| + 1] == Frame(text);
    IndexOfUnique(response[..], NUL, |text| + 1);
  }

  /** Frames of consecutive payloads written to a connection, up to the first write_n that fails. */
  function SendAll(c: Conn, ps: seq<Text>): (r: (Conn, bool))
    decreases |ps|
  {
    if ps == [] then (c, true)
    else
      var c' := AfterWrite(c, Frame(ps[0]));
      if WriteAll(c.output, |Frame(ps[0])|).Ok() then SendAll(c', ps[1..]) else (c', false)
  }

  /** Everything went out, or whole frames and then a proper prefix of the next. */
  lemma {:induction false} SendAllMeaning(c: Conn, ps: seq<Text>)
    ensures var (c', ok) := SendAll(c, ps);
            if ok then c'.sent == c.sent + Lines.Join(ps)
            else exists k: nat, part: nat :: k < |ps| && part < |Frame(ps[k])|
                   && c'.sent == c.sent + Lines.Join(ps[..k]) + Frame(ps[k])[..part]
    decreases |ps|
  {
    if ps == [] {
      assert c.sent + [] == c.sent;
    } else {
      var f := Frame(ps[0]);
      var w := WriteAll(c.output, |f|);
      WriteAllMeaning(c.output, |f|);
      if w.Ok() {
        var c1 := AfterWrite(c, f);
        assert c1.sent == c.sent + f;
        SendAllMeaning(c1, ps[1..]);
        if SendAll(c1, ps[1..]).1 {
          Lines.Assoc(c.sent, f, Lines.Join(ps[1..]));
        } else {
          var k: nat, part: nat :| k < |ps[1..]| && part < |Frame(ps[1..][k])|
            && SendAll(c1, ps[1..]).0.sent == c1.sent + Lines.Join(ps[1..][..k]) + Frame(ps[1..][k])[..part];
          assert ps[1..][..k] == ps[..k + 1][1..];
          Lines.Assoc(c.sent, f, Lines.Join(ps[1..][..k]));
          assert k + 1 < |ps| && part < |Frame(ps[k + 1])|;
        }
      } else {
        assert ps[..0] == [] && c.sent + [] == c.sent;
        assert 0 < |ps| && w.n < |Frame(ps[0])|;
      }
    }
  }

  /** Everything goes out, if write() never refuses or takes enough before it does. */
  lemma {:induction false} SendAllSucceeds(c: Conn, ps: seq<Text>)
    requires !Refuses(c.output)
    ensures SendAll(c, ps).1
    decreases |ps|
  {
    if ps != [] {
      WriteAllExactly(c.output, |Frame(ps[0])|);
      SendAllSucceeds(AfterWrite(c, Frame(ps[0])), ps[1..]);
    }
  }

  // ---- The round trip

  function Newlines(s: seq<byte>): nat {
    if s == [] then 0 else (if s[0] == NL then 1 else 0) + Newlines(s[1..])
  }

  lemma {:induction false} NewlinesConcat(a: seq<byte>, b: seq<byte>)
    ensures Newlines(a + b) == Newlines(a) + Newlines(b)
  {
    if a == [] {
      assert a + b == b;
    } else {
      NewlinesConcat(a[1..], b);
      assert (a + b)[1..] == a[1..] + b;
    }
  }

  lemma {:induction false} NoNewlines(s: seq<byte>)
    ensures Newlines(s) == 0 <==> NL !in s
  {
    if s != [] {
      NoNewlines(s[1..]);
    }
  }

  lemma {:induction false} CountAfterFirst(s: seq<byte>)
    requires IndexOf(s, NL) < |s|
    ensures Newlines(s) == 1 + Newlines(s[IndexOf(s, NL) + 1..])
  {
    if s[0] != NL {
      CountAfterFirst(s[1..]);
    }
  }

  lemma {:induction false} SplitCount(s: seq<byte>)
    ensures |Lines.Split(s)| == Newlines(s)
  {
    if IndexOf(s, NL) < |s| {
      SplitCount(s[IndexOf(s, NL) + 1..]);
      CountAfterFirst(s);
    } else {
      IndexOfNone(s, NL);
      NoNewlines(s);
    }
  }

  lemma {:induction false} JoinCount(ps: seq<seq<byte>>)
    ensures Newlines(Lines.Join(ps)) >= |ps|
    ensures Newlines(Lines.Join(ps)) == |ps| <==> forall p :: p in ps ==> NL !in p
  {
    if ps != [] {
      JoinCount(ps[1..]);
      NewlinesConcat(ps[0] + [NL], Lines.Join(ps[1..]));
      NewlinesConcat(ps[0], [NL]);
      NoNewlines(ps[0]);
    }
  }

  /** Cutting payloads at newlines inside them cannot make lines longer. */
  lemma {:induction false} SplitBounded(s: seq<byte>, bound: nat)
    requires |s| <= bound
    ensures forall l :: l in Lines.Split(s) ==> |l| <= bound
  {
    var p := IndexOf(s, NL);
    if p < |s| {
      SplitBounded(s[p + 1..], bound);
    }
  }

  lemma {:induction false} JoinBounded(ps: seq<seq<byte>>, bound: nat)
    requires forall p :: p in ps ==> |p| <= bound
    ensures forall l :: l in Lines.Split(Lines.Join(ps)) ==> |l| <= bound
  {
    if ps != [] {
      var f := ps[0] + [NL];
      JoinBounded(ps[1..], bound);
      FrameLines(ps[0], bound);
      Lines.SplitConcat(f, Lines.Join(ps[1..]), Lines.Join(ps[1..]));
    }
  }

  lemma {:induction false} FrameLines(p: seq<byte>, bound: nat)
    requires |p| <= bound
    ensures Lines.Tail(p + [NL]) == []
    ensures forall l :: l in Lines.Split(p + [NL]) ==> |l| <= bound
  {
    var k := IndexOf(p, NL);
    if k < |p| {
      Lines.FirstLineConcat(p, [NL], p[..k], p[k + 1..]);
      FrameLines(p[k + 1..], bound);
    } else {
      IndexOfNone(p, NL);
      OneFrame(p);
    }
  }

  lemma OneFrame(p: seq<byte>)
    requires NL !in p
    ensures Lines.Split(p + [NL]) == [p] && Lines.Tail(p + [NL]) == []
  {
    assert p + [NL] + [] == p + [NL];
    Lines.FirstLine(p, []);
    Lines.NoLine([]);
  }

  lemma {:induction false} JoinTail(ps: seq<seq<byte>>)
    ensures Lines.Tail(Lines.Join(ps)) == []
  {
    if ps != [] {
      FrameLines(ps[0], |ps[0]|);
      JoinTail(ps[1..]);
      Lines.TailConcat(ps[0] + [NL], Lines.Join(ps[1..]));
      assert [] + Lines.Join(ps[1..]) == Lines.Join(ps[1..]);
    }
  }

  lemma {:induction false} JoinNulFree(ps: seq<Text>)
    ensures NulFree(Lines.Join(ps))
  {
    if ps != [] {
      JoinNulFree(ps[1..]);
    }
  }

  lemma {:induction false} StripAllSame(ls: seq<seq<byte>>)
    ensures Lines.StripAll(ls) == ls <==> forall l :: l in ls ==> l == [] || l[|l| - 1] != CR
  {
    if ls != [] {
      StripAllSame(ls[1..]);
      assert ls == [ls[0]] + ls[1..];
    }
  }

  /** The stream of a client that ends each of its lines in CR LF. */
  function CrLf(ps: seq<seq<byte>>): seq<byte> {
    if ps == [] then [] else ps[0] + [CR, NL] + CrLf(ps[1..])
  }

  function WithCr(ps: seq<seq<byte>>): seq<seq<byte>> {
    if ps == [] then [] else [ps[0] + [CR]] + WithCr(ps[1..])
  }

  lemma {:induction false} WithCrElements(ps: seq<seq<byte>>)
    ensures |WithCr(ps)| == |ps| && forall i :: 0 <= i < |ps| ==> WithCr(ps)[i] == ps[i] + [CR]
  {
    if ps != [] {
      WithCrElements(ps[1..]);
    }
  }

  lemma {:induction false} StripWithCr(ps: seq<seq<byte>>)
    ensures Lines.StripAll(WithCr(ps)) == ps
  {
    if ps != [] {
      StripWithCr(ps[1..]);
      Lines.StripMeaning(ps[0]);
      assert WithCr(ps)[1..] == WithCr(ps[1..]);
      assert ps == [ps[0]] + ps[1..];
    }
  }

  lemma {:induction false} CrLfIsJoin(ps: seq<seq<byte>>)
    ensures CrLf(ps) == Lines.Join(WithCr(ps))
  {
    if ps != [] {
      CrLfIsJoin(ps[1..]);
      Lines.JoinCons(ps[0] + [CR], WithCr(ps[1..]));
      assert ps[0] + [CR, NL] == ps[0] + [CR] + [NL];
    }
  }

  lemma CrLfLines(ps: seq<seq<byte>>)
    requires forall p :: p in ps ==> NL !in p && |p| < CReadLine.MAX_LINE - BLOCK
    ensures var wire := Lines.Join(WithCr(ps));
            Lines.Split(wire) == WithCr(ps) && Lines.Tail(wire) == [] && Chunking.LinesFit(wire)
  {
    var wire := Lines.Join(WithCr(ps));
    WithCrElements(ps);
    Lines.SplitJoin(WithCr(ps), []);
    assert wire + [] == wire;
  }

  /** Lines that end in CR LF come back whole, whatever is in them, a carriage return at their end included. */
  lemma CrLfRoundTrip(receiver: Conn, ps: seq<seq<byte>>)
    requires Arriving(receiver.input) == CrLf(ps) && !Breaks(receiver.input)
    requires NulFree(CrLf(ps)) && forall p :: p in ps ==> NL !in p && |p| < CReadLine.MAX_LINE - BLOCK
    ensures Chunking.ReadAll([], receiver) == (ps, CReadLine.EndOfStream)
  {
    var wire := Lines.Join(WithCr(ps));
    CrLfIsJoin(ps);
    WithCrElements(ps);
    StripWithCr(ps);
    assert [] + Arriving(receiver.input) == wire;
    CrLfLines(ps);
    Chunking.CallsReturnTheLines([], receiver);
  }

  /** A payload that survives framing: no newline inside, no carriage return at the end. */
  predicate Framable(p: seq<byte>) {
    NL !in p && (p == [] || p[|p| - 1] != CR)
  }

  /**
   * Payloads framed, sent by write_n under any short writes and read by creadline_r under any short
   * reads come back as they were, and then end of file, if and only if each of them is framable.
   */
  lemma RoundTrip(sender: Conn, receiver: Conn, ps: seq<Text>)
    requires sender.sent == [] && SendAll(sender, ps).1
    requires Arriving(receiver.input) == SendAll(sender, ps).0.sent && !Breaks(receiver.input)
    requires forall p :: p in ps ==> |p| <= CReadLine.MAX_LINE - BLOCK
    ensures Chunking.ReadAll([], receiver) == (ps, CReadLine.EndOfStream)
       <==> forall p :: p in ps ==> Framable(p)
  {
    var wire := Lines.Join(ps);
    SendAllMeaning(sender, ps);
    assert [] + wire == wire && [] + Arriving(receiver.input) == wire;
    JoinNulFree(ps);
    JoinBounded(ps, CReadLine.MAX_LINE - BLOCK);
    JoinTail(ps);
    Chunking.CallsReturnTheLines([], receiver);
    var got := Lines.StripAll(Lines.Split(wire));
    assert Chunking.ReadAll([], receiver) == (got, CReadLine.EndOfStream);
    SplitCount(wire);
    JoinCount(ps);
    if |got| == |ps| {
      Lines.SplitJoin(ps, []);
      assert wire + [] == wire;
      StripAllSame(ps);
    } else {
      assert got != ps;
    }
  }
}
