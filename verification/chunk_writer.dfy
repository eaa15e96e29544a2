/**
 * The flow-controlled chunk writer shared by `writeDataToPeripheral`
 * (BLE_Object) and `writeDataToPeriheral` (BluetoothLE).
 *
 * One call runs a loop that, while the transfer is ongoing, the link can take
 * a write without response and fewer than `window` chunks were written since
 * the last acknowledgement, slices the first `min(chunkSize, remaining)` bytes
 * off the buffer and writes them. The iteration that finds the buffer empty
 * writes nothing and ends the transfer. `chunkSize` is the peripheral's
 * maximum write-without-response length minus the 3 header bytes of an ATT
 * Write Command (section 3.4.5.3 of Bluetooth Core Specification Vol 3 Part F).
 */
module ChunkWriter {
  import opened Wrappers
  import opened Gatt

  function Min(a: int, b: int): int { if a < b then a else b }

  /** The bytes of `chunks` written one after the other. */
  function Concat(chunks: seq<seq<Byte>>): seq<Byte>
  {
    if chunks == [] then [] else chunks[0] + Concat(chunks[1..])
  }

  lemma {:induction false} ConcatAppend(a: seq<seq<Byte>>, b: seq<seq<Byte>>)
    ensures Concat(a + b) == Concat(a) + Concat(b)
  {
    if a == [] {
      assert a + b == b;
    } else {
      assert (a + b)[1..] == a[1..] + b;
      ConcatAppend(a[1..], b);
    }
  }

  /**
   * The chunks a whole transfer of `data` is cut into: the first
   * `min(chunkSize, remaining)` bytes, again and again, until nothing is left.
   */
  function ChunksOf(data: seq<Byte>, chunkSize: int): seq<seq<Byte>>
    requires chunkSize >= 1
    decreases |data|
  {
    if data == [] then []
    else
      var n := Min(chunkSize, |data|);
      [data[..n]] + ChunksOf(data[n..], chunkSize)
  }

  /** Round trip: the chunks of a transfer, concatenated, are the file. */
  lemma {:induction false} ChunksOfConcat(data: seq<Byte>, chunkSize: int)
    requires chunkSize >= 1
    ensures Concat(ChunksOf(data, chunkSize)) == data
    decreases |data|
  {
    if data != [] {
      var n := Min(chunkSize, |data|);
      var cs := ChunksOf(data, chunkSize);
      assert cs[0] == data[..n] && cs[1..] == ChunksOf(data[n..], chunkSize);
      ChunksOfConcat(data[n..], chunkSize);
      assert data == data[..n] + data[n..];
    }
  }

  /** Every chunk of a transfer holds between 1 and `chunkSize` bytes; all but the last hold exactly `chunkSize`. */
  lemma {:induction false} ChunksOfFull(data: seq<Byte>, chunkSize: int)
    requires chunkSize >= 1
    ensures var cs := ChunksOf(data, chunkSize);
            (data == [] <==> cs == []) &&
            (forall i :: 0 <= i < |cs| ==> 1 <= |cs[i]| <= chunkSize) &&
            (forall i :: 0 <= i < |cs| - 1 ==> |cs[i]| == chunkSize)
    decreases |data|
  {
    if data != [] {
      var cs := ChunksOf(data, chunkSize);
      var n := Min(chunkSize, |data|);
      var tail := ChunksOf(data[n..], chunkSize);
      assert cs == [data[..n]] + tail;
      ChunksOfFull(data[n..], chunkSize);
      forall i | 0 <= i < |cs|
        ensures 1 <= |cs[i]| <= chunkSize && (i < |cs| - 1 ==> |cs[i]| == chunkSize)
      {
        if i > 0 { assert cs[i] == tail[i - 1]; }
        else if i < |cs| - 1 { assert tail != []; }
      }
    }
  }

  /**
   * How many chunks a transfer has: ceil(|data| / chunkSize), stated without
   * division, and the size of the last one.
   */
  lemma {:induction false} ChunksOfCount(data: seq<Byte>, chunkSize: int)
    requires chunkSize >= 1
    ensures var m := |ChunksOf(data, chunkSize)|;
            (m - 1) * chunkSize < |data| <= m * chunkSize
    ensures var cs := ChunksOf(data, chunkSize);
            cs != [] ==> |cs[|cs| - 1]| == |data| - (|cs| - 1) * chunkSize
    decreases |data|
  {
    var cs := ChunksOf(data, chunkSize);
    if data != [] {
      var n := Min(chunkSize, |data|);
      var tail := ChunksOf(data[n..], chunkSize);
      assert cs == [data[..n]] + tail;
      ChunksOfCount(data[n..], chunkSize);
      var m := |tail|;
      if m == 0 {
        assert data[n..] == [] by { ChunksOfFull(data[n..], chunkSize); }
      } else {
        assert n == chunkSize;
        assert (m - 1) * chunkSize < |data| - chunkSize <= m * chunkSize;
        assert (m + 1) * chunkSize == m * chunkSize + chunkSize;
        assert m * chunkSize == (m - 1) * chunkSize + chunkSize;
        assert cs[|cs| - 1] == tail[m - 1];
      }
    }
  }

  /**
   * The outcome of one run of the loop: the chunks written, in order; what is
   * left of the buffer; the new package counter; whether the iteration that
   * found the buffer empty ran (it ends the transfer); and how many iterations
   * ran in all.
   */
  datatype LoopResult = LoopResult(chunks: seq<seq<Byte>>, rest: seq<Byte>, counter: int,
                                   emptied: bool, iterations: nat)

  /**
   * The loop, from the buffer, the chunk size, the package counter, the
   * window, the ongoing flag and the link's answers to
   * `canSendWriteWithoutResponse` from the k-th check onwards: `ready` holds
   * the checks at which the link takes a write without response.
   */
  function WriteLoop(buffer: seq<Byte>, chunkSize: int, counter: int, window: int,
                     ongoing: bool, ready: iset<nat>, k: nat): (r: LoopResult)
    requires ongoing ==> chunkSize >= 1
    // every write counts, and the counter stops at the window
    ensures r.counter == counter + |r.chunks|
    ensures counter <= window ==> r.counter <= window
    ensures counter >= window ==> r.chunks == []
    ensures r.emptied ==> r.rest == [] && ongoing
    ensures r.iterations == |r.chunks| + (if r.emptied then 1 else 0)
    ensures !ongoing ==> r.iterations == 0 && r.rest == buffer
    // why the loop stopped
    ensures ongoing ==> r.emptied || (k + |r.chunks|) !in ready || r.counter >= window
    decreases (if ongoing then 1 else 0), window - counter
  {
    if !(ongoing && k in ready && counter < window) then
      LoopResult([], buffer, counter, false, 0)
    else if buffer == [] then
      LoopResult([], [], counter, true, 1)
    else
      var n := Min(chunkSize, |buffer|);
      var next := WriteLoop(buffer[n..], chunkSize, counter + 1, window, true, ready, k + 1);
      LoopResult([buffer[..n]] + next.chunks, next.rest, next.counter, next.emptied, next.iterations + 1)
  }

  /**
   * A run `whole` of the loop, seen after `k` iterations that wrote `done`
   * (and emptied the buffer if `emptied`), is those iterations followed by
   * the run `rest` from there.
   */
  ghost predicate Resumes(whole: LoopResult, done: seq<seq<Byte>>, emptied: bool, k: nat, rest: LoopResult)
  {
    whole.chunks == done + rest.chunks && whole.rest == rest.rest && whole.counter == rest.counter &&
    whole.emptied == (emptied || rest.emptied) && whole.iterations == k + rest.iterations
  }

  lemma ResumesStart(whole: LoopResult)
    ensures Resumes(whole, [], false, 0, whole)
  {
    assert [] + whole.chunks == whole.chunks;
  }

  /** An iteration that writes the next chunk. */
  lemma ResumesWrite(whole: LoopResult, done: seq<seq<Byte>>, emptied: bool, k: nat,
                     buffer: seq<Byte>, chunkSize: int, counter: int, window: int, ready: iset<nat>)
    requires chunkSize >= 1 && k in ready && counter < window && buffer != []
    requires Resumes(whole, done, emptied, k, WriteLoop(buffer, chunkSize, counter, window, true, ready, k))
    ensures var n := Min(chunkSize, |buffer|);
            Resumes(whole, done + [buffer[..n]], emptied, k + 1,
                    WriteLoop(buffer[n..], chunkSize, counter + 1, window, true, ready, k + 1))
  {
    var n := Min(chunkSize, |buffer|);
    var next := WriteLoop(buffer[n..], chunkSize, counter + 1, window, true, ready, k + 1);
    AppendAssoc(done, [buffer[..n]], next.chunks);
  }

  /** The iteration that finds the buffer empty. */
  lemma ResumesEmpty(whole: LoopResult, done: seq<seq<Byte>>, emptied: bool, k: nat,
                     chunkSize: int, counter: int, window: int, ready: iset<nat>)
    requires chunkSize >= 1 && k in ready && counter < window
    requires Resumes(whole, done, emptied, k, WriteLoop([], chunkSize, counter, window, true, ready, k))
    ensures Resumes(whole, done, true, k + 1, WriteLoop([], chunkSize, counter, window, false, ready, k + 1))
  {
    assert done + [] == done;
  }

  /** When the loop condition fails, the iterations so far are the whole run. */
  lemma ResumesEnd(whole: LoopResult, done: seq<seq<Byte>>, emptied: bool, k: nat,
                   buffer: seq<Byte>, chunkSize: int, counter: int, window: int, ongoing: bool, ready: iset<nat>)
    requires ongoing ==> chunkSize >= 1
    requires !(ongoing && k in ready && counter < window)
    requires Resumes(whole, done, emptied, k, WriteLoop(buffer, chunkSize, counter, window, ongoing, ready, k))
    ensures whole == LoopResult(done, buffer, counter, emptied, k)
  {
    assert done + [] == done;
  }

  /** What one run writes are the next chunks of the whole transfer of `buffer`. */
  lemma {:induction false} WriteLoopFollowsTransfer(buffer: seq<Byte>, chunkSize: int, counter: int,
                                                    window: int, ready: iset<nat>, k: nat)
    requires chunkSize >= 1
    ensures var r := WriteLoop(buffer, chunkSize, counter, window, true, ready, k);
            r.chunks + ChunksOf(r.rest, chunkSize) == ChunksOf(buffer, chunkSize)
    decreases window - counter
  {
    if k in ready && counter < window && buffer != [] {
      var r := WriteLoop(buffer, chunkSize, counter, window, true, ready, k);
      var n := Min(chunkSize, |buffer|);
      var next := WriteLoop(buffer[n..], chunkSize, counter + 1, window, true, ready, k + 1);
      assert r.chunks == [buffer[..n]] + next.chunks && r.rest == next.rest;
      WriteLoopFollowsTransfer(buffer[n..], chunkSize, counter + 1, window, ready, k + 1);
      assert ChunksOf(buffer, chunkSize) == [buffer[..n]] + ChunksOf(buffer[n..], chunkSize);
    }
  }

  /** Byte-exact split: the bytes one run writes, followed by what is left, are the buffer. */
  lemma WriteLoopSplitsBuffer(buffer: seq<Byte>, chunkSize: int, counter: int,
                              window: int, ready: iset<nat>, k: nat)
    requires chunkSize >= 1
    ensures var r := WriteLoop(buffer, chunkSize, counter, window, true, ready, k);
            Concat(r.chunks) + r.rest == buffer
  {
    var r := WriteLoop(buffer, chunkSize, counter, window, true, ready, k);
    WriteLoopFollowsTransfer(buffer, chunkSize, counter, window, ready, k);
    ChunksOfConcat(buffer, chunkSize);
    ChunksOfConcat(r.rest, chunkSize);
    ConcatAppend(r.chunks, ChunksOf(r.rest, chunkSize));
  }

  /** Every chunk one run writes holds between 1 and `chunkSize` bytes. */
  lemma WriteLoopChunkSizes(buffer: seq<Byte>, chunkSize: int, counter: int, window: int,
                            ready: iset<nat>, k: nat)
    requires chunkSize >= 1
    ensures forall i :: 0 <= i < |WriteLoop(buffer, chunkSize, counter, window, true, ready, k).chunks| ==>
              1 <= |WriteLoop(buffer, chunkSize, counter, window, true, ready, k).chunks[i]| <= chunkSize
  {
    var r := WriteLoop(buffer, chunkSize, counter, window, true, ready, k);
    WriteLoopFollowsTransfer(buffer, chunkSize, counter, window, ready, k);
    ChunksOfFull(buffer, chunkSize);
    forall i | 0 <= i < |r.chunks|
      ensures 1 <= |r.chunks[i]| <= chunkSize
    {
      assert r.chunks[i] == ChunksOf(buffer, chunkSize)[i];
    }
  }

  /** When the loop empties the buffer, it has written every remaining chunk of the transfer. */
  lemma EmptiedWritesAll(buffer: seq<Byte>, chunkSize: int, counter: int, window: int,
                         ready: iset<nat>, k: nat)
    requires chunkSize >= 1
    requires WriteLoop(buffer, chunkSize, counter, window, true, ready, k).emptied
    ensures WriteLoop(buffer, chunkSize, counter, window, true, ready, k).chunks == ChunksOf(buffer, chunkSize)
  {
    var r := WriteLoop(buffer, chunkSize, counter, window, true, ready, k);
    WriteLoopFollowsTransfer(buffer, chunkSize, counter, window, ready, k);
    assert ChunksOf(r.rest, chunkSize) == [];
    assert r.chunks + [] == r.chunks;
  }

  /**
   * The progress of an upload of `file`: the chunks written so far followed
   * by the buffer left are the file, byte for byte and chunk for chunk.
   */
  ghost predicate UploadInv(file: seq<Byte>, sent: seq<seq<Byte>>, buffer: seq<Byte>, chunkSize: int)
  {
    Concat(sent) + buffer == file &&
    (chunkSize >= 1 ==> sent + ChunksOf(buffer, chunkSize) == ChunksOf(file, chunkSize))
  }

  /** A fresh upload has written nothing. */
  lemma UploadInvStart(file: seq<Byte>, chunkSize: int)
    ensures UploadInv(file, [], file, chunkSize)
  {
    assert Concat([]) == [];
    if chunkSize >= 1 {
      assert [] + ChunksOf(file, chunkSize) == ChunksOf(file, chunkSize);
    }
  }

  /** Writing `chunks`, the next chunks of the buffer, keeps the upload's progress. */
  lemma {:induction false} UploadInvAdvance(file: seq<Byte>, sent: seq<seq<Byte>>, buffer: seq<Byte>, chunkSize: int,
                         chunks: seq<seq<Byte>>, rest: seq<Byte>)
    requires chunkSize >= 1 && UploadInv(file, sent, buffer, chunkSize)
    requires Concat(chunks) + rest == buffer
    requires chunks + ChunksOf(rest, chunkSize) == ChunksOf(buffer, chunkSize)
    ensures UploadInv(file, sent + chunks, rest, chunkSize)
  {
    assert Concat(sent + chunks) + rest == file by {
      ConcatAppend(sent, chunks);
      AppendAssoc(Concat(sent), Concat(chunks), rest);
    }
    AppendAssoc(sent, chunks, ChunksOf(rest, chunkSize));
  }

  lemma AppendAssoc<T>(a: seq<T>, b: seq<T>, c: seq<T>)
    ensures a + b + c == a + (b + c)
  {
  }

  /** One run of the loop keeps the upload's progress. */
  lemma UploadInvLoop(file: seq<Byte>, sent: seq<seq<Byte>>, buffer: seq<Byte>, chunkSize: int,
                      counter: int, window: int, ongoing: bool, ready: iset<nat>)
    requires ongoing ==> chunkSize >= 1
    requires UploadInv(file, sent, buffer, chunkSize)
    ensures var r := WriteLoop(buffer, chunkSize, counter, window, ongoing, ready, 0);
            UploadInv(file, sent + r.chunks, r.rest, chunkSize)
  {
    var r := WriteLoop(buffer, chunkSize, counter, window, ongoing, ready, 0);
    if ongoing {
      WriteLoopSplitsBuffer(buffer, chunkSize, counter, window, ready, 0);
      WriteLoopFollowsTransfer(buffer, chunkSize, counter, window, ready, 0);
      UploadInvAdvance(file, sent, buffer, chunkSize, r.chunks, r.rest);
    } else {
      assert sent + r.chunks == sent;
    }
  }

  /**
   * `transferProgress = (1 - remaining / dataLength) * 100`, as an exact real.
   * None stands for the NaN that 0 / 0 gives for an empty file.
   */
  function Progress(remaining: nat, total: nat): (r: Option<real>)
    ensures r.None? <==> total == 0
    ensures r.Some? && remaining <= total ==> 0.0 <= r.value <= 100.0
    ensures r.Some? && remaining == 0 ==> r.value == 100.0
  {
    if total == 0 then None
    else Some((1.0 - remaining as real / total as real) * 100.0)
  }

  /** The progress after a run of the loop: recomputed from what is left whenever an iteration ran. */
  function LoopProgress(before: Option<real>, dataLength: nat, r: LoopResult): Option<real>
  {
    if r.iterations == 0 then before else Progress(|r.rest|, dataLength)
  }

  /** The buffer a run leaves is never longer than the buffer it started from. */
  lemma WriteLoopShrinks(buffer: seq<Byte>, chunkSize: int, counter: int, window: int,
                         ongoing: bool, ready: iset<nat>)
    requires ongoing ==> chunkSize >= 1
    ensures |WriteLoop(buffer, chunkSize, counter, window, ongoing, ready, 0).rest| <= |buffer|
  {
    if ongoing {
      WriteLoopSplitsBuffer(buffer, chunkSize, counter, window, ready, 0);
    }
  }

  /**
   * Byte-level progress of an upload of `file`: the bytes written so far
   * followed by the buffer left are the file, whatever chunk size each run used.
   */
  lemma ConcatInvLoop(file: seq<Byte>, sent: seq<seq<Byte>>, buffer: seq<Byte>, chunkSize: int,
                      counter: int, window: int, ongoing: bool, ready: iset<nat>)
    requires ongoing ==> chunkSize >= 1
    requires Concat(sent) + buffer == file
    ensures var r := WriteLoop(buffer, chunkSize, counter, window, ongoing, ready, 0);
            Concat(sent + r.chunks) + r.rest == file
  {
    var r := WriteLoop(buffer, chunkSize, counter, window, ongoing, ready, 0);
    if ongoing {
      WriteLoopSplitsBuffer(buffer, chunkSize, counter, window, ready, 0);
      ConcatAppend(sent, r.chunks);
      AppendAssoc(Concat(sent), Concat(r.chunks), r.rest);
    } else {
      assert sent + r.chunks == sent;
    }
  }

  /** Chunks of at most `n` bytes each hold at most `n` bytes per chunk in all. */
  lemma {:induction false} ConcatLengthBound(chunks: seq<seq<Byte>>, n: int)
    requires forall i :: 0 <= i < |chunks| ==> |chunks[i]| <= n
    ensures |Concat(chunks)| <= |chunks| * n
    decreases |chunks|
  {
    if chunks != [] {
      ConcatLengthBound(chunks[1..], n);
      assert |chunks| * n == n + (|chunks| - 1) * n;
    }
  }

  /** Progress never decreases while the remaining byte count shrinks. */
  lemma ProgressMonotone(before: nat, after: nat, total: nat)
    requires after <= before <= total && total > 0
    ensures Progress(before, total).value <= Progress(after, total).value
  {
    var t := total as real;
    var d := (before as real - after as real) / t;
    assert d * t == before as real - after as real;
    assert d >= 0.0;
    assert before as real / t - after as real / t == d;
  }

  /**
   * Within one upload the progress a run reports never falls below the
   * progress of the buffer it started from, and it is 100 once the run
   * emptied the buffer.
   */
  lemma LoopProgressMonotone(before: Option<real>, buffer: seq<Byte>, dataLength: nat, chunkSize: int,
                             counter: int, window: int, ongoing: bool, ready: iset<nat>)
    requires ongoing ==> chunkSize >= 1
    requires |buffer| <= dataLength && dataLength > 0
    ensures var r := WriteLoop(buffer, chunkSize, counter, window, ongoing, ready, 0);
            var after := LoopProgress(before, dataLength, r);
            (r.iterations > 0 ==> Progress(|buffer|, dataLength).value <= after.value) &&
            (r.emptied ==> after == Some(100.0))
  {
    var r := WriteLoop(buffer, chunkSize, counter, window, ongoing, ready, 0);
    WriteLoopShrinks(buffer, chunkSize, counter, window, ongoing, ready);
    ProgressMonotone(|buffer|, |r.rest|, dataLength);
  }

  /**
   * A worked transfer: 1024 bytes cut into 20-byte chunks
   * are 52 writes, 51 of 20 bytes and a last one of 4.
   */
  lemma ExampleTransfer(file: seq<Byte>)
    requires |file| == 1024
    ensures var cs := ChunksOf(file, 20);
            |cs| == 52 && (forall i :: 0 <= i < 51 ==> |cs[i]| == 20) && |cs[51]| == 4
  {
    ChunksOfFull(file, 20);
    ChunksOfCount(file, 20);
  }
}
