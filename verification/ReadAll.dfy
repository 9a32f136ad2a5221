/**
 * `readAll`: the loop that reads a given number of bytes from a transport whose every read may
 * return any positive part of what is asked for, and nothing once its stream has ended.
 */
module ReadAll {
  import opened Base

  /** A stream still to be read, and how its coming reads will be cut. */
  datatype Source = Source(rest: seq<byte>, cuts: seq<nat>)

  /** The size of the next piece: positive and no more than asked for or left, otherwise the cuts' choice. */
  function Piece(s: Source, want: nat): (k: nat)
    ensures k <= want && k <= |s.rest| && (k == 0 <==> want == 0 || s.rest == [])
  {
    var most := Min(want, |s.rest|);
    if s.cuts == [] then Min(1, most) else Min(1 + s.cuts[0], most)
  }

  /** Each size a read may return is the choice of some cut. */
  lemma EveryPiecePossible(rest: seq<byte>, cuts: seq<nat>, want: nat, k: nat)
    requires 0 < k <= want && k <= |rest|
    ensures Piece(Source(rest, [k - 1] + cuts), want) == k
  {
  }

  function AfterPiece(s: Source, want: nat): Source
  {
    Source(s.rest[Piece(s, want)..], if s.cuts == [] then [] else s.cuts[1..])
  }

  /** Whether all bytes came, the bytes stored, and the source left behind. */
  datatype Outcome = Outcome(ok: bool, bytes: seq<byte>, source: Source)

  function Read(s: Source, len: nat): Outcome
    decreases len
  {
    if len == 0 then Outcome(true, [], s)
    else
      var k := Piece(s, len);
      if k == 0 then Outcome(false, [], AfterPiece(s, len))
      else
        var o := Read(AfterPiece(s, len), len - k);
        Outcome(o.ok, s.rest[..k] + o.bytes, o.source)
  }

  /** The outcome takes the next len bytes of rest, or all of them if there are fewer. */
  ghost predicate Takes(rest: seq<byte>, len: nat, o: Outcome)
  {
    var n := Min(len, |rest|);
    (o.ok <==> len <= |rest|) && o.bytes == rest[..n] && o.source.rest == rest[n..]
  }

  lemma TakesOn(rest: seq<byte>, len: nat, k: nat, o: Outcome)
    requires k <= len && k <= |rest| && Takes(rest[k..], len - k, o)
    ensures Takes(rest, len, Outcome(o.ok, rest[..k] + o.bytes, o.source))
  {
    var n := Min(len, |rest|);
    assert rest[..k] + rest[k..][..n - k] == rest[..n];
    assert rest[k..][n - k..] == rest[n..];
  }

  /**
   * However the stream is cut: all bytes asked for come, in order, unless the stream ends first, and then all
   * it had.
   */
  lemma {:induction false} ReadsNextBytes(s: Source, len: nat)
    ensures Takes(s.rest, len, Read(s, len))
    decreases len
  {
    if len > 0 && Piece(s, len) > 0 {
      var k, after := Piece(s, len), AfterPiece(s, len);
      ReadsNextBytes(after, len - k);
      TakesOn(s.rest, len, k, Read(after, len - k));
    }
  }

  /** Reading m and then n bytes is reading m + n at once, whichever way the two streams are cut. */
  lemma TwoReadsAreOne(rest: seq<byte>, cuts: seq<nat>, cuts': seq<nat>, m: nat, n: nat)
    ensures var one := Read(Source(rest, cuts'), m + n);
            var first := Read(Source(rest, cuts), m); var second := Read(first.source, n);
            if first.ok
            then one.ok == second.ok && one.bytes == first.bytes + second.bytes && one.source.rest == second.source.rest
            else !one.ok && one.bytes == first.bytes && one.source.rest == first.source.rest
  {
    var first := Read(Source(rest, cuts), m);
    ReadsNextBytes(Source(rest, cuts'), m + n);
    ReadsNextBytes(Source(rest, cuts), m);
    ReadsNextBytes(first.source, n);
    TwoTakesAreOne(rest, m, n, first, Read(first.source, n), Read(Source(rest, cuts'), m + n));
  }

  lemma TwoTakesAreOne(rest: seq<byte>, m: nat, n: nat, first: Outcome, second: Outcome, one: Outcome)
    requires Takes(rest, m, first) && Takes(first.source.rest, n, second) && Takes(rest, m + n, one)
    ensures if first.ok
            then one.ok == second.ok && one.bytes == first.bytes + second.bytes && one.source.rest == second.source.rest
            else !one.ok && one.bytes == first.bytes && one.source.rest == first.source.rest
  {
    if first.ok {
      TwoPrefixes(rest, m, Min(n, |rest| - m));
    }
  }

  lemma TwoPrefixes(s: seq<byte>, m: nat, k: nat)
    requires m + k <= |s|
    ensures s[..m] + s[m..][..k] == s[..m + k] && s[m..][k..] == s[m + k..]
  {
  }

  /** The result of readAll: the count it returns, or the end-of-file exception. */
  datatype Result = Have(n: u32) | EndOfFile

  class Transport {
    var rest: seq<byte>
    var cuts: seq<nat>

    constructor (rest: seq<byte>, cuts: seq<nat>)
      ensures this.rest == rest && this.cuts == cuts
    {
      this.rest, this.cuts := rest, cuts;
    }

    /**
     * One read into buf at position off: some positive part of what is asked for, nothing only at the end of
     * the stream.
     */
    method ReadSome(buf: array<byte>, off: nat, len: u32) returns (got: u32)
      requires off + len <= buf.Length
      modifies this, buf
      ensures got <= len && got <= |old(rest)| && (got == 0 <==> len == 0 || old(rest) == [])
      ensures rest == old(rest)[got..]
      ensures forall i | 0 <= i < buf.Length ::
                buf[i] == if off <= i < off + got then old(rest)[i - off] else old(buf[i])
    {
      got := Piece(Source(rest, cuts), len);
      forall k | 0 <= k < got {
        buf[off + k] := rest[k];
      }
      rest, cuts := rest[got..], if cuts == [] then [] else cuts[1..];
    }
  }

  /** The helper template `readAll`, in uint32 arithmetic. */
  method ReadAllBytes(trans: Transport, buf: array<byte>, off: nat, len: u32) returns (r: Result)
    requires off + len <= buf.Length
    modifies trans, buf
    ensures var n := Min(len, |old(trans.rest)|);
            && r == (if len <= |old(trans.rest)| then Have(len) else EndOfFile)
            && trans.rest == old(trans.rest)[n..]
            && forall i | 0 <= i < buf.Length ::
                 buf[i] == if off <= i < off + n then old(trans.rest)[i - off] else old(buf[i])
  {
    ghost var stream := trans.rest;
    var have: u32, get: u32 := 0, 0;
    while have < len
      invariant have <= len && have <= |stream| && trans.rest == stream[have..]
      invariant forall i | 0 <= i < buf.Length ::
                  buf[i] == if off <= i < off + have then stream[i - off] else old(buf[i])
      decreases len - have
    {
      get := trans.ReadSome(buf, off + have, len - have);
      if get <= 0 {
        return EndOfFile;
      }
      have := (have + get) % TWO_32;
    }
    r := Have(have);
  }
}
