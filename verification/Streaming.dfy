/**
 The response streaming loop, copyAndFlush (internal/gateway/http_helpers.go).

 The upstream body is a finite script of read results, each a chunk of bytes delivered together
 with an error indication; the client connection is an arbitrary function saying what each write
 call reports.
 */
module Streaming {
  newtype byte = x: int | 0 <= x < 0x100

  const BUFFER_SIZE: nat := 32 * 1024

  /** Errors as the callers can tell them apart: `WrappedEof` satisfies errors.Is(err, io.EOF)
      without being io.EOF itself. */
  datatype IoError = NoError | Eof | WrappedEof | OtherError

  predicate IsEof(e: IoError) { e == Eof || e == WrappedEof }

  datatype Chunk = Chunk(data: seq<byte>, error: IoError)

  datatype WriteReport = WriteReport(wrote: nat, failed: bool)

  /** What the `index`-th write call reports when handed `length` bytes. */
  type Client = (nat, nat) -> WriteReport

  datatype CopyError = Nil | WriteError | ShortWrite | ReadError(error: IoError)

  datatype Copied = Copied(output: seq<byte>, error: CopyError, consumed: nat)

  /** Reader and writer contracts: reads fit the buffer, and a write never claims more than it got. */
  ghost predicate ReaderContract(script: seq<Chunk>) {
    forall i :: 0 <= i < |script| ==> |script[i].data| <= BUFFER_SIZE
  }

  ghost predicate WriterContract(client: Client) {
    forall index: nat, length: nat :: client(index, length).wrote <= length
  }

  /** From position `pos` on, the script does end. */
  predicate Ends(script: seq<Chunk>, pos: nat)
    decreases |script| - pos
  {
    pos < |script| && (script[pos].error != NoError || Ends(script, pos + 1))
  }

  function Report(script: seq<Chunk>, client: Client, pos: nat, call: nat): (r: WriteReport)
    requires pos < |script| && WriterContract(client)
    ensures r.wrote <= |script[pos].data|
  {
    if script[pos].data == [] then WriteReport(0, false) else client(call, |script[pos].data|)
  }

  /** The write call after the one (if any) that carries chunk `pos`. */
  function NextCall(script: seq<Chunk>, pos: nat, call: nat): nat
    requires pos < |script|
  {
    if script[pos].data == [] then call else call + 1
  }

  /** What the loop does from read `pos` of the script on, the next write being call number `call`. */
  function Copy(script: seq<Chunk>, client: Client, pos: nat, call: nat): Copied
    requires Ends(script, pos) && WriterContract(client)
    decreases |script| - pos
  {
    var chunk := script[pos];
    var report := Report(script, client, pos, call);
    var sent := chunk.data[..report.wrote];
    if report.failed then Copied(sent, WriteError, 1)
    else if report.wrote != |chunk.data| then Copied(sent, ShortWrite, 1)
    else if IsEof(chunk.error) then Copied(sent, Nil, 1)
    else if chunk.error != NoError then Copied(sent, ReadError(chunk.error), 1)
    else
      var rest := Copy(script, client, pos + 1, NextCall(script, pos, call));
      Copied(sent + rest.output, rest.error, 1 + rest.consumed)
  }

  // ------------------------------------------------ an account of the result without the loop

  /** The position of the first read that reports an error. */
  ghost function LastRead(script: seq<Chunk>, pos: nat): (k: nat)
    requires Ends(script, pos)
    ensures pos <= k < |script| && script[k].error != NoError
    ensures forall i :: pos <= i < k ==> script[i].error == NoError
    decreases |script| - pos
  {
    if script[pos].error != NoError then pos else LastRead(script, pos + 1)
  }

  /** The bytes of chunks lo..hi, concatenated. */
  ghost function Bytes(script: seq<Chunk>, lo: nat, hi: nat): seq<byte>
    requires lo <= hi <= |script|
    decreases hi - lo
  {
    if lo == hi then [] else script[lo].data + Bytes(script, lo + 1, hi)
  }

  /** The number of write calls before chunk `i`: one per non-empty chunk from `pos` on. */
  ghost function CallsBefore(script: seq<Chunk>, pos: nat, i: nat): nat
    requires pos <= i <= |script|
    decreases i - pos
  {
    if pos == i then 0 else (if script[pos].data == [] then 0 else 1) + CallsBefore(script, pos + 1, i)
  }

  /** Chunk `i` would be taken in full and without complaint. */
  ghost predicate Delivered(script: seq<Chunk>, client: Client, pos: nat, call: nat, i: nat)
    requires pos <= i < |script| && WriterContract(client)
  {
    Report(script, client, i, call + CallsBefore(script, pos, i)) == WriteReport(|script[i].data|, false)
  }

  lemma DeliveredShift(script: seq<Chunk>, client: Client, pos: nat, call: nat, i: nat)
    requires pos < i < |script| && WriterContract(client)
    ensures Delivered(script, client, pos, call, i)
            <==> Delivered(script, client, pos + 1, NextCall(script, pos, call), i)
  {
  }

  /** Chunks that get through only move the loop along. */
  lemma {:induction false} CopySkips(script: seq<Chunk>, client: Client, pos: nat, call: nat, j: nat)
    requires Ends(script, pos) && WriterContract(client)
    requires pos <= j <= LastRead(script, pos)
    requires forall i :: pos <= i < j ==> Delivered(script, client, pos, call, i)
    ensures Ends(script, j)
    ensures var rest := Copy(script, client, j, call + CallsBefore(script, pos, j));
            var r := Copy(script, client, pos, call);
            && r.output == Bytes(script, pos, j) + rest.output
            && r.error == rest.error
            && r.consumed == j - pos + rest.consumed
    decreases j - pos
  {
    if pos < j {
      var after, next := pos + 1, NextCall(script, pos, call);
      forall i | after <= i < j ensures Delivered(script, client, after, next, i) {
        DeliveredShift(script, client, pos, call, i);
      }
      CopySkips(script, client, after, next, j);
      CallsAfter(script, pos, call, j);
      assert Delivered(script, client, pos, call, pos);
      CopyStep(script, client, pos, call);
      var rest := Copy(script, client, j, next + CallsBefore(script, after, j));
      Associate(script[pos].data, Bytes(script, after, j), rest.output);
    } else {
      assert [] + Copy(script, client, pos, call).output == Copy(script, client, pos, call).output;
    }
  }

  lemma CallsAfter(script: seq<Chunk>, pos: nat, call: nat, j: nat)
    requires pos < j <= |script|
    ensures call + CallsBefore(script, pos, j) == NextCall(script, pos, call) + CallsBefore(script, pos + 1, j)
    ensures Bytes(script, pos, j) == script[pos].data + Bytes(script, pos + 1, j)
  {
  }

  lemma CopyStep(script: seq<Chunk>, client: Client, pos: nat, call: nat)
    requires Ends(script, pos) && WriterContract(client)
    requires script[pos].error == NoError && Delivered(script, client, pos, call, pos)
    ensures var rest := Copy(script, client, pos + 1, NextCall(script, pos, call));
            Copy(script, client, pos, call) == Copied(script[pos].data + rest.output, rest.error, 1 + rest.consumed)
  {
  }

  lemma Associate(a: seq<byte>, b: seq<byte>, c: seq<byte>)
    ensures a + (b + c) == a + b + c
  {
  }

  /**
   Byte exactness.  If every chunk up to the first read error gets through, the client has exactly
   the bytes that were read, including those delivered together with the error; the copy reports no
   error if the stream ended with an end of file, and otherwise the error it ended with.
   */
  lemma CopyDeliversAll(script: seq<Chunk>, client: Client, pos: nat, call: nat)
    requires Ends(script, pos) && WriterContract(client)
    requires forall i :: pos <= i <= LastRead(script, pos) ==> Delivered(script, client, pos, call, i)
    ensures var k := LastRead(script, pos);
            Copy(script, client, pos, call)
            == Copied(Bytes(script, pos, k + 1),
                      if IsEof(script[k].error) then Nil else ReadError(script[k].error),
                      k + 1 - pos)
  {
    var k := LastRead(script, pos);
    CopySkips(script, client, pos, call, k);
    assert Delivered(script, client, pos, call, k);
    BytesSnoc(script, pos, k);
  }

  lemma {:induction false} BytesSnoc(script: seq<Chunk>, lo: nat, hi: nat)
    requires lo <= hi < |script|
    ensures Bytes(script, lo, hi + 1) == Bytes(script, lo, hi) + script[hi].data
    decreases hi - lo
  {
    if lo < hi {
      BytesSnoc(script, lo + 1, hi);
      Associate(script[lo].data, Bytes(script, lo + 1, hi), script[hi].data);
    } else {
      OneChunk(script[hi].data);
    }
  }

  lemma OneChunk(data: seq<byte>)
    ensures data + [] == [] + data
  {
  }

  /**
   When chunk `j` is the first not to get through, the loop stops right there: the client has
   everything before it plus what that write took, and nothing after it was even read.
   */
  lemma CopyStopsAtFirstFailure(script: seq<Chunk>, client: Client, pos: nat, call: nat, j: nat)
    requires Ends(script, pos) && WriterContract(client)
    requires pos <= j <= LastRead(script, pos) && !Delivered(script, client, pos, call, j)
    requires forall i :: pos <= i < j ==> Delivered(script, client, pos, call, i)
    ensures var report := Report(script, client, j, call + CallsBefore(script, pos, j));
            Copy(script, client, pos, call)
            == Copied(Bytes(script, pos, j) + script[j].data[..report.wrote],
                      if report.failed then WriteError else ShortWrite,
                      j + 1 - pos)
  {
    CopySkips(script, client, pos, call, j);
  }

  ghost predicate AllDelivered(script: seq<Chunk>, client: Client, pos: nat, call: nat)
    requires Ends(script, pos) && WriterContract(client)
  {
    forall i :: pos <= i <= LastRead(script, pos) ==> Delivered(script, client, pos, call, i)
  }

  /** No error is reported exactly when everything read was delivered and the stream reached its end;
      whatever happens, the client sees a prefix of what the provider sent. */
  lemma CopyNilIff(script: seq<Chunk>, client: Client, pos: nat, call: nat)
    requires Ends(script, pos) && WriterContract(client)
    ensures var k := LastRead(script, pos);
            var r := Copy(script, client, pos, call);
            && (r.error == Nil <==> IsEof(script[k].error) && AllDelivered(script, client, pos, call))
            && r.output <= Bytes(script, pos, k + 1)
  {
    if AllDelivered(script, client, pos, call) {
      CopyDeliversAll(script, client, pos, call);
    } else {
      var j :| pos <= j <= LastRead(script, pos) && !Delivered(script, client, pos, call, j);
      CopyFails(script, client, pos, call, j);
    }
  }

  lemma CopyFails(script: seq<Chunk>, client: Client, pos: nat, call: nat, j: nat)
    requires Ends(script, pos) && WriterContract(client)
    requires pos <= j <= LastRead(script, pos) && !Delivered(script, client, pos, call, j)
    ensures Copy(script, client, pos, call).error != Nil
    ensures Copy(script, client, pos, call).output <= Bytes(script, pos, LastRead(script, pos) + 1)
  {
    var first := FirstUndelivered(script, client, pos, call, pos, j);
    CopyFailsAt(script, client, pos, call, first, LastRead(script, pos) + 1);
  }

  lemma CopyFailsAt(script: seq<Chunk>, client: Client, pos: nat, call: nat, first: nat, hi: nat)
    requires Ends(script, pos) && WriterContract(client)
    requires pos <= first < hi && hi == LastRead(script, pos) + 1 && !Delivered(script, client, pos, call, first)
    requires forall i :: pos <= i < first ==> Delivered(script, client, pos, call, i)
    ensures Copy(script, client, pos, call).error != Nil
    ensures Copy(script, client, pos, call).output <= Bytes(script, pos, hi)
  {
    var wrote := Report(script, client, first, call + CallsBefore(script, pos, first)).wrote;
    PartPrefix(script, pos, first, wrote, hi);
    CopyStopsAtFirstFailure(script, client, pos, call, first);
  }

  lemma PartPrefix(script: seq<Chunk>, lo: nat, mid: nat, wrote: nat, hi: nat)
    requires lo <= mid < hi <= |script| && wrote <= |script[mid].data|
    ensures Bytes(script, lo, mid) + script[mid].data[..wrote] <= Bytes(script, lo, hi)
  {
    BytesSnoc(script, lo, mid);
    BytesPrefix(script, lo, mid + 1, hi);
  }

  ghost function FirstUndelivered(
      script: seq<Chunk>, client: Client, pos: nat, call: nat, from: nat, j: nat): (first: nat)
    requires pos <= from <= j < |script| && WriterContract(client)
    requires !Delivered(script, client, pos, call, j)
    requires forall i :: pos <= i < from ==> Delivered(script, client, pos, call, i)
    ensures pos <= first <= j && !Delivered(script, client, pos, call, first)
    ensures forall i :: pos <= i < first ==> Delivered(script, client, pos, call, i)
    decreases j - from
  {
    if !Delivered(script, client, pos, call, from) then from
    else FirstUndelivered(script, client, pos, call, from + 1, j)
  }

  lemma {:induction false} BytesPrefix(script: seq<Chunk>, lo: nat, mid: nat, hi: nat)
    requires lo <= mid <= hi <= |script|
    ensures Bytes(script, lo, mid) <= Bytes(script, lo, hi)
    decreases hi - mid
  {
    if mid < hi {
      BytesPrefix(script, lo, mid, hi - 1);
      BytesSnoc(script, lo, hi - 1);
      PrefixGrows(Bytes(script, lo, mid), Bytes(script, lo, hi - 1), script[hi - 1].data);
    }
  }

  lemma PrefixGrows(a: seq<byte>, b: seq<byte>, c: seq<byte>)
    requires a <= b
    ensures a <= b + c
  {
  }

  // ------------------------------------------------ the loop itself

  class Reader {
    const script: seq<Chunk>
    var pos: nat

    constructor (script: seq<Chunk>)
      ensures this.script == script && pos == 0
    {
      this.script := script;
      pos := 0;
    }

    method Read(buf: array<byte>) returns (n: nat, error: IoError)
      requires pos < |script| && ReaderContract(script) && buf.Length == BUFFER_SIZE
      modifies this, buf
      ensures pos == old(pos) + 1
      ensures n <= buf.Length && buf[..n] == script[old(pos)].data && error == script[old(pos)].error
    {
      var chunk := script[pos];
      n := |chunk.data|;
      forall i | 0 <= i < n {
        buf[i] := chunk.data[i];
      }
      error := chunk.error;
      pos := pos + 1;
    }
  }

  class Writer {
    const client: Client
    var calls: nat
    var output: seq<byte>

    constructor (client: Client)
      ensures this.client == client && calls == 0 && output == []
    {
      this.client := client;
      calls := 0;
      output := [];
    }

    method Write(data: seq<byte>) returns (wrote: nat, failed: bool)
      requires WriterContract(client)
      modifies this
      ensures calls == old(calls) + 1
      ensures WriteReport(wrote, failed) == client(old(calls), |data|)
      ensures wrote <= |data| && output == old(output) + data[..wrote]
    {
      var report := client(calls, |data|);
      calls := calls + 1;
      output := output + data[..report.wrote];
      return report.wrote, report.failed;
    }
  }

  method CopyAndFlush(w: Writer, r: Reader) returns (written: int, error: CopyError)
    requires Ends(r.script, r.pos) && ReaderContract(r.script) && WriterContract(w.client)
    modifies w, r
    ensures var result := Copy(r.script, w.client, old(r.pos), old(w.calls));
            && w.output == old(w.output) + result.output
            && written == |result.output|
            && error == result.error
            && r.pos == old(r.pos) + result.consumed
  {
    var buf := new byte[BUFFER_SIZE];
    written := 0;
    ghost var whole := Copy(r.script, w.client, r.pos, w.calls);
    ghost var (start, before) := (r.pos, w.output);
    while true
      invariant Ends(r.script, r.pos)
      invariant |w.output| == |before| + written
      invariant var rest := Copy(r.script, w.client, r.pos, w.calls);
                && before + whole.output == w.output + rest.output
                && whole.error == rest.error
                && start + whole.consumed == r.pos + rest.consumed
      decreases |r.script| - r.pos
    {
      ghost var (rest, sent) := (Copy(r.script, w.client, r.pos, w.calls), w.output);
      var wrote, done, outcome := CopyOnce(w, r, buf);
      written := written + wrote;
      if done {
        return written, outcome;
      }
      ghost var next := Copy(r.script, w.client, r.pos, w.calls);
      Associate(sent, rest.output[..wrote], next.output);
    }
  }

  /** One turn of the loop: one read, at most one write, and whether that was the end. */
  method CopyOnce(w: Writer, r: Reader, buf: array<byte>) returns (wrote: nat, done: bool, error: CopyError)
    requires Ends(r.script, r.pos) && ReaderContract(r.script) && WriterContract(w.client) && buf.Length == BUFFER_SIZE
    modifies w, r, buf
    ensures r.pos == old(r.pos) + 1
    ensures var all := Copy(r.script, w.client, old(r.pos), old(w.calls));
            && wrote <= |all.output|
            && w.output == old(w.output) + all.output[..wrote]
            && (done ==> wrote == |all.output| && error == all.error && all.consumed == 1)
            && (!done ==>
                  && Ends(r.script, r.pos)
                  && var rest := Copy(r.script, w.client, r.pos, w.calls);
                     all == Copied(all.output[..wrote] + rest.output, rest.error, 1 + rest.consumed))
  {
    ghost var (pos, call) := (r.pos, w.calls);
    var n, readError := r.Read(buf);
    wrote := 0;
    if n > 0 {
      var failed;
      wrote, failed := w.Write(buf[..n]);
      if failed {
        return wrote, true, WriteError;
      }
      if wrote != n {
        return wrote, true, ShortWrite;
      }
    }
    if readError != NoError {
      if IsEof(readError) {
        return wrote, true, Nil;
      }
      return wrote, true, ReadError(readError);
    }
    CopyStep(r.script, w.client, pos, call);
    return wrote, false, Nil;
  }
}
