/** From a file to datagrams and back: chunking, zero padding, and the text the server prints. */
module TransferFile {
  import opened TransferServer

  const CHUNK: nat := 568  // MAXBUF minus the header

  function Zeros(n: nat): seq<Byte> { seq(n, _ => 0) }

  function Pad(c: seq<Byte>): seq<Byte>
    requires |c| <= CHUNK
  {
    c + Zeros(CHUNK - |c|)
  }

  /** The datagrams for a file, numbered from n: full chunks, then one short chunk flagged last. */
  function PlanFrom(file: seq<Byte>, n: int): (r: seq<Datagram>)
    ensures |r| > 0
  {
    if |file| < CHUNK then [Datagram(n, true, Pad(file))]
    else [Datagram(n, false, Pad(file[..CHUNK]))] + PlanFrom(file[CHUNK..], n + 1)
  }

  function Plan(file: seq<Byte>): seq<Datagram> { PlanFrom(file, 1) }

  function Min(a: int, b: int): int { if a < b then a else b }

  /** A file of L bytes makes L/568 + 1 datagrams, numbered in order, exactly the final one flagged last. */
  lemma {:induction false} PlanShape(file: seq<Byte>, n: int)
    ensures var p := PlanFrom(file, n);
      && |p| == |file| / CHUNK + 1
      && (forall i :: 0 <= i < |p| ==> p[i].number == n + i && (p[i].last <==> i == |p| - 1) && |p[i].payload| == CHUNK)
  {
    if |file| >= CHUNK {
      PlanShape(file[CHUNK..], n + 1);
    }
  }

  /** Datagram i carries exactly the i-th 568-byte stretch of the file. */
  lemma {:induction false} PlanPayload(file: seq<Byte>, n: int, i: nat)
    requires i < |PlanFrom(file, n)|
    ensures i * CHUNK <= |file|
    ensures PlanFrom(file, n)[i].payload == Pad(file[i * CHUNK..Min((i + 1) * CHUNK, |file|)])
    decreases i
  {
    if i == 0 {
      if |file| < CHUNK {
        assert file[0..|file|] == file;
      } else {
        assert file[0..CHUNK] == file[..CHUNK];
      }
    } else {
      assert |file| >= CHUNK;
      var rest := file[CHUNK..];
      PlanPayload(rest, n + 1, i - 1);
      var lo, hi := (i - 1) * CHUNK, Min(i * CHUNK, |rest|);
      assert rest[lo..hi] == file[lo + CHUNK..hi + CHUNK];
    }
  }

  // ---- printf("%s") stops at the first NUL ----

  function Text(p: seq<Byte>): seq<Byte>
  {
    if p == [] || p[0] == 0 then [] else [p[0]] + Text(p[1..])
  }

  /** Everything the server prints for a list of datagrams. */
  function Texts(ds: seq<Datagram>): seq<Byte>
  {
    if ds == [] then [] else Text(ds[0].payload) + Texts(ds[1..])
  }

  lemma {:induction false} TextOfPadded(c: seq<Byte>, z: nat)
    ensures |Text(c + Zeros(z))| <= |c|
    ensures Text(c + Zeros(z)) == c <==> 0 !in c
  {
    var p := c + Zeros(z);
    if c == [] {
      assert p == Zeros(z);
    } else {
      assert p[0] == c[0] && p[1..] == c[1..] + Zeros(z);
      TextOfPadded(c[1..], z);
      assert c == [c[0]] + c[1..];
      if c[0] != 0 && Text(p) == c {
        assert Text(p)[1..] == c[1..];
      }
    }
  }

  lemma PaddedText(c: seq<Byte>)
    requires |c| <= CHUNK
    ensures |Text(Pad(c))| <= |c|
    ensures Text(Pad(c)) == c <==> 0 !in c
  {
    TextOfPadded(c, CHUNK - |c|);
  }

  /** What the server prints for a file, and that it is never longer than the file. */
  lemma {:induction false} PrintedIsFile(file: seq<Byte>, n: int)
    ensures |Texts(PlanFrom(file, n))| <= |file|
    ensures Texts(PlanFrom(file, n)) == file <==> 0 !in file
  {
    if |file| < CHUNK {
      PaddedText(file);
      assert Texts([Datagram(n, true, Pad(file))][1..]) == [];
    } else {
      var head, rest := file[..CHUNK], file[CHUNK..];
      assert file == head + rest;
      var d := Datagram(n, false, Pad(head));
      PaddedText(head);
      PrintedIsFile(rest, n + 1);
      assert ([d] + PlanFrom(rest, n + 1))[1..] == PlanFrom(rest, n + 1);
      assert Texts(PlanFrom(file, n)) == Text(d.payload) + Texts(PlanFrom(rest, n + 1));
      if Texts(PlanFrom(file, n)) == file {
        SplitEqual(Text(d.payload), Texts(PlanFrom(rest, n + 1)), head, rest);
      }
    }
  }

  /** Two concatenations agree piecewise when no left piece is longer than its counterpart. */
  lemma SplitEqual<T>(a: seq<T>, b: seq<T>, c: seq<T>, d: seq<T>)
    requires a + b == c + d && |a| <= |c| && |b| <= |d|
    ensures a == c && b == d
  {
    assert |a| == |c|;
    assert a == (a + b)[..|a|] && c == (c + d)[..|c|];
    assert b == (a + b)[|a|..] && d == (c + d)[|c|..];
  }

  /** Chunk round trip: the printed text is the file exactly when the file holds no NUL byte. */
  lemma ChunkRoundTrip(file: seq<Byte>)
    ensures Texts(Plan(file)) == file <==> 0 !in file
  {
    PrintedIsFile(file, 1);
  }

  // ---- bulk_read ----

  /** buf with bytes written over it from position at. */
  function Spliced(buf: seq<Byte>, at: nat, bytes: seq<Byte>): (r: seq<Byte>)
    requires at + |bytes| <= |buf|
    ensures |r| == |buf|
  {
    buf[..at] + bytes + buf[at + |bytes|..]
  }

  /** Two adjoining writes are one. */
  lemma SpliceTwice(buf: seq<Byte>, at: nat, a: seq<Byte>, b: seq<Byte>)
    requires at + |a| + |b| <= |buf|
    ensures Spliced(Spliced(buf, at, a), at + |a|, b) == Spliced(buf, at, a + b)
  {
  }

  /** An open file and its offset. */
  class Reader {
    const data: seq<Byte>
    var pos: nat

    ghost predicate Valid() reads this { pos <= |data| }

    constructor (data: seq<Byte>)
      ensures Valid() && this.data == data && pos == 0
    {
      this.data, pos := data, 0;
    }

    /** read(2): between 1 and count bytes, fewer than asked at the system's whim, 0 only at the end. */
    method Read(buf: array<Byte>, at: nat, count: nat) returns (c: nat)
      requires Valid() && at + count <= buf.Length && count > 0
      modifies this`pos, buf
      ensures Valid() && c <= count && pos == old(pos) + c
      ensures c == 0 <==> old(pos) == |data|
      ensures buf[..] == Spliced(old(buf[..]), at, data[old(pos)..pos])
    {
      if pos == |data| {
        c := 0;
        return;
      }
      c :| 1 <= c <= count && pos + c <= |data|;
      forall i | 0 <= i < c {
        buf[at + i] := data[pos + i];
      }
      pos := pos + c;
    }

    /** bulk_read: however short the reads, count bytes or all that is left. */
    method BulkRead(buf: array<Byte>, at: nat, count: nat) returns (len: nat)
      requires Valid() && at + count <= buf.Length && count > 0
      modifies this`pos, buf
      ensures Valid() && pos == old(pos) + len && len == Min(count, |data| - old(pos))
      ensures buf[..] == Spliced(old(buf[..]), at, data[old(pos)..pos])
    {
      len := 0;
      var left := count;
      ghost var was := buf[..];
      while true
        invariant Valid() && left > 0 && len + left == count && pos == old(pos) + len
        invariant buf[..] == Spliced(was, at, data[old(pos)..pos])
        decreases left
      {
        ghost var before := pos;
        var c := Read(buf, at + len, left);
        SpliceTwice(was, at, data[old(pos)..before], data[before..pos]);
        assert data[old(pos)..before] + data[before..pos] == data[old(pos)..pos];
        if c == 0 {
          return;
        }
        len := len + c;
        left := left - c;
        if left == 0 {
          break;
        }
      }
    }
  }
}
