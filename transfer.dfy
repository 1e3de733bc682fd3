/** The file-transfer protocol spoken over the peer data channel: how a file
    is cut into 16384-byte slices and framed by the sender, and how the
    receiver's handlers fold the frames they are given into their
    insertion-ordered table of incoming files, the transfer list and the chat. */
module Transfer {
  import opened Signals

  newtype byte = b: int | 0 <= b < 256

  const ChunkSize: nat := 16384

  function Min(a: int, b: int): int { if a <= b then a else b }
  function Max(a: int, b: int): int { if a >= b then a else b }

  // ---------------------------------------------------------------------------
  // Frames on the data channel

  datatype Frame =
    | TextFrame(text: string)                   // `{type: "text", text, timestamp}`
    | FileStart(transferId: string, fileName: string, fileSize: nat, totalChunks: nat)
    | FileChunk(transferId: string, chunkIndex: nat, totalChunks: nat)
    | FileEnd(transferId: string)
    | Binary(bytes: seq<byte>)                  // a raw `ArrayBuffer` frame
    | OtherFrame                                // JSON of another type, or text that does not parse

  // ---------------------------------------------------------------------------
  // Slicing a file

  /** `Math.ceil(size / chunkSize)`. */
  function TotalChunks(size: nat): (n: nat)
    ensures n * ChunkSize >= size
    ensures n > 0 ==> (n - 1) * ChunkSize < size
  {
    (size + ChunkSize - 1) / ChunkSize
  }

  /** The slices `sendFile` reads, in order: `file.slice(0, 16384)` first, then
      the next 16384 bytes while the chunk index is below `totalChunks`. An
      empty file still yields its one (empty) first slice. */
  function Chunks(file: seq<byte>): seq<seq<byte>>
    decreases |file|
  {
    if |file| <= ChunkSize then [file] else [file[..ChunkSize]] + Chunks(file[ChunkSize..])
  }

  /** Concatenation of byte buffers in order. */
  function Concat(cs: seq<seq<byte>>): seq<byte> {
    if cs == [] then [] else Concat(cs[..|cs| - 1]) + cs[|cs| - 1]
  }

  /** `chunks.reduce((sum, chunk) => sum + chunk.byteLength, 0)`. */
  function TotalLength(cs: seq<seq<byte>>): nat {
    if cs == [] then 0 else TotalLength(cs[..|cs| - 1]) + |cs[|cs| - 1]|
  }

  lemma {:induction false} ConcatLength(cs: seq<seq<byte>>)
    ensures |Concat(cs)| == TotalLength(cs)
    decreases |cs|
  {
    if cs != [] {
      ConcatLength(cs[..|cs| - 1]);
    }
  }

  lemma {:induction false} ConcatCons(c: seq<byte>, cs: seq<seq<byte>>)
    ensures Concat([c] + cs) == c + Concat(cs)
    decreases |cs|
  {
    if cs != [] {
      var all := [c] + cs;
      assert all[..|all| - 1] == [c] + cs[..|cs| - 1];
      ConcatCons(c, cs[..|cs| - 1]);
    } else {
      assert [c] + cs == [c];
      assert [c][..0] == [];
    }
  }

  /** `sendFile` sends `max(1, ceil(size / 16384))` slices. */
  lemma {:induction false} ChunkCount(file: seq<byte>)
    ensures |Chunks(file)| == Max(1, TotalChunks(|file|))
    decreases |file|
  {
    if |file| > ChunkSize {
      ChunkCount(file[ChunkSize..]);
    }
  }

  /** Slice `i` is the byte range `[i*16384, min(i*16384 + 16384, size))`. */
  lemma {:induction false} ChunkAt(file: seq<byte>, i: nat)
    requires i < |Chunks(file)|
    ensures i * ChunkSize <= |file|
    ensures Chunks(file)[i] == file[i * ChunkSize .. Min(i * ChunkSize + ChunkSize, |file|)]
    decreases |file|
  {
    if |file| > ChunkSize && i > 0 {
      var rest := file[ChunkSize..];
      ChunkAt(rest, i - 1);
      var lo := (i - 1) * ChunkSize;
      var hi := Min(lo + ChunkSize, |rest|);
      assert Chunks(file)[i] == Chunks(rest)[i - 1];
      assert lo + ChunkSize == i * ChunkSize;
      assert hi + ChunkSize == Min(i * ChunkSize + ChunkSize, |file|);
      assert rest[lo..hi] == file[lo + ChunkSize .. hi + ChunkSize];
    } else if i == 0 {
      assert Chunks(file)[0] == file[..Min(ChunkSize, |file|)];
    }
  }

  /** The slices, joined in order, give back the whole file. */
  lemma {:induction false} ChunksReassemble(file: seq<byte>)
    ensures Concat(Chunks(file)) == file
    decreases |file|
  {
    if |file| <= ChunkSize {
      assert Concat([file]) == Concat([]) + file;
    } else {
      ChunksReassemble(file[ChunkSize..]);
      ConcatCons(file[..ChunkSize], Chunks(file[ChunkSize..]));
      assert file == file[..ChunkSize] + file[ChunkSize..];
    }
  }

  // ---------------------------------------------------------------------------
  // What the sender puts on the channel

  /** The `file-chunk` / binary pairs for the first `k` slices. */
  function Pairs(id: string, chunks: seq<seq<byte>>, total: nat, k: nat): seq<Frame>
    requires k <= |chunks|
  {
    if k == 0 then []
    else Pairs(id, chunks, total, k - 1) + [FileChunk(id, k - 1, total), Binary(chunks[k - 1])]
  }

  /** Every frame one `sendFile` call sends on an open channel. */
  function FileFrames(id: string, name: string, file: seq<byte>): seq<Frame> {
    var chunks := Chunks(file);
    [FileStart(id, name, |file|, TotalChunks(|file|))]
      + Pairs(id, chunks, TotalChunks(|file|), |chunks|)
      + [FileEnd(id)]
  }

  lemma {:induction false} PairsLength(id: string, chunks: seq<seq<byte>>, total: nat, k: nat)
    requires k <= |chunks|
    ensures |Pairs(id, chunks, total, k)| == 2 * k
  {
    if k > 0 {
      PairsLength(id, chunks, total, k - 1);
    }
  }

  lemma {:induction false} PairsAt(id: string, chunks: seq<seq<byte>>, total: nat, k: nat, i: nat)
    requires i < k <= |chunks|
    ensures |Pairs(id, chunks, total, k)| == 2 * k
    ensures Pairs(id, chunks, total, k)[2 * i] == FileChunk(id, i, total)
    ensures Pairs(id, chunks, total, k)[2 * i + 1] == Binary(chunks[i])
  {
    PairsLength(id, chunks, total, k);
    PairsLength(id, chunks, total, k - 1);
    if i < k - 1 {
      PairsAt(id, chunks, total, k - 1, i);
    }
  }

  /** Frame order of one transfer, frame by frame: after the `file-start`,
      the `file-chunk` of slice `i` is immediately followed by slice `i` as one
      binary frame, and the pairs come in increasing index order. */
  lemma FileFramesAt(id: string, name: string, file: seq<byte>, i: nat)
    requires i < |Chunks(file)|
    ensures i * ChunkSize <= |file|
    ensures |FileFrames(id, name, file)| == 2 * |Chunks(file)| + 2
    ensures FileFrames(id, name, file)[1 + 2 * i] == FileChunk(id, i, TotalChunks(|file|))
    ensures FileFrames(id, name, file)[2 + 2 * i]
         == Binary(file[i * ChunkSize .. Min(i * ChunkSize + ChunkSize, |file|)])
  {
    var chunks := Chunks(file);
    var total := TotalChunks(|file|);
    var pairs := Pairs(id, chunks, total, |chunks|);
    PairsAt(id, chunks, total, |chunks|, i);
    ChunkAt(file, i);
    var frames := FileFrames(id, name, file);
    assert frames == [FileStart(id, name, |file|, total)] + pairs + [FileEnd(id)];
    assert frames[1 + 2 * i] == pairs[2 * i];
    assert frames[2 + 2 * i] == pairs[2 * i + 1];
  }

  /** Frame order of one transfer: one `file-start` announcing the size and
      `ceil(size/16384)` chunks, then for each slice index in increasing order a
      `file-chunk` frame immediately followed by that slice as one binary frame,
      then one `file-end`. */
  lemma FileFramesLayout(id: string, name: string, file: seq<byte>)
    ensures |Chunks(file)| == Max(1, TotalChunks(|file|))
    ensures |FileFrames(id, name, file)| == 2 * |Chunks(file)| + 2
    ensures FileFrames(id, name, file)[0] == FileStart(id, name, |file|, TotalChunks(|file|))
    ensures forall i :: 0 <= i < |Chunks(file)| ==>
      && FileFrames(id, name, file)[1 + 2 * i] == FileChunk(id, i, TotalChunks(|file|))
      && FileFrames(id, name, file)[2 + 2 * i] == Binary(file[i * ChunkSize .. Min(i * ChunkSize + ChunkSize, |file|)])
    ensures FileFrames(id, name, file)[2 * |Chunks(file)| + 1] == FileEnd(id)
  {
    ChunkCount(file);
    FileFramesAt(id, name, file, 0);
    forall i | 0 <= i < |Chunks(file)|
      ensures FileFrames(id, name, file)[1 + 2 * i] == FileChunk(id, i, TotalChunks(|file|))
      ensures FileFrames(id, name, file)[2 + 2 * i] == Binary(file[i * ChunkSize .. Min(i * ChunkSize + ChunkSize, |file|)])
    {
      FileFramesAt(id, name, file, i);
    }
  }

  // ---------------------------------------------------------------------------
  // What the receiver keeps

  datatype Status = Pending | Sending | Receiving | Completed | Failed

  /** A progress value `p` percent, or the ratio `num / den` scaled to 100. */
  datatype Progress = Percent(p: nat) | Fraction(num: nat, den: nat)

  datatype FileTransfer = FileTransfer(
    id: string, fileName: string, fileSize: nat, progress: Progress, status: Status, data: Option<seq<byte>>)

  datatype Sender = Me | Peer
  datatype MessageKind = TextKind | FileKind(fileName: string, fileSize: nat)
  datatype ChatMessage = ChatMessage(text: string, sender: Sender, kind: MessageKind)

  /** One entry of the table of files being received. */
  datatype Incoming = Incoming(
    transferId: string, chunks: seq<seq<byte>>, receivedSize: nat, totalSize: nat, fileName: string)

  /** The receiver-side state: the insertion-ordered table of incoming files
      (a JavaScript `Map`), the transfer list and the chat. */
  datatype Inbox = Inbox(receiving: seq<Incoming>, transfers: seq<FileTransfer>, messages: seq<ChatMessage>)

  /** Position of `id` in the table, or `|rs|` when it is absent. */
  function Find(rs: seq<Incoming>, id: string): (k: nat)
    ensures k <= |rs|
    ensures k < |rs| ==> rs[k].transferId == id
    ensures forall j :: 0 <= j < k ==> rs[j].transferId != id
  {
    if rs == [] then 0
    else if rs[0].transferId == id then 0
    else 1 + Find(rs[1..], id)
  }

  /** `Map.set`: a known key keeps its position, a new key goes last. */
  function Put(rs: seq<Incoming>, e: Incoming): seq<Incoming> {
    var k := Find(rs, e.transferId);
    if k < |rs| then rs[k := e] else rs + [e]
  }

  /** `Map.delete`. */
  function Delete(rs: seq<Incoming>, id: string): seq<Incoming> {
    var k := Find(rs, id);
    if k < |rs| then rs[..k] + rs[k + 1..] else rs
  }

  /** The counter of every entry equals the total length of its chunks. */
  ghost predicate SizesAgree(rs: seq<Incoming>) {
    forall k :: 0 <= k < |rs| ==> rs[k].receivedSize == TotalLength(rs[k].chunks)
  }

  /** `prev.map(t => t.id === id ? {...t, progress} : t)`. */
  function WithProgress(ts: seq<FileTransfer>, id: string, p: Progress): seq<FileTransfer> {
    seq(|ts|, i requires 0 <= i < |ts| => if ts[i].id == id then ts[i].(progress := p) else ts[i])
  }

  /** `prev.map(...)` that marks every record with this id completed at 100 %. */
  function WithCompleted(ts: seq<FileTransfer>, id: string, data: seq<byte>): seq<FileTransfer> {
    seq(|ts|, i requires 0 <= i < |ts| =>
      if ts[i].id == id then ts[i].(status := Completed, progress := Percent(100), data := Some(data)) else ts[i])
  }

  /** The sender's final `prev.map(...)`: every record with this id becomes
      `completed` at 100 %. */
  function WithSent(ts: seq<FileTransfer>, id: string): seq<FileTransfer> {
    seq(|ts|, i requires 0 <= i < |ts| =>
      if ts[i].id == id then ts[i].(status := Completed, progress := Percent(100)) else ts[i])
  }

  /** The sender's progress updates are all overwritten by its final one. */
  lemma WithSentAbsorbsProgress(ts: seq<FileTransfer>, id: string, p: Progress)
    ensures WithSent(WithProgress(ts, id, p), id) == WithSent(ts, id)
  {
    assert forall i :: 0 <= i < |ts| ==> WithSent(WithProgress(ts, id, p), id)[i] == WithSent(ts, id)[i];
  }

  lemma WithSentFreshLast(ts: seq<FileTransfer>, t: FileTransfer)
    requires forall k :: 0 <= k < |ts| ==> ts[k].id != t.id
    ensures WithSent(ts + [t], t.id) == ts + [t.(status := Completed, progress := Percent(100))]
  {
  }

  function ReceivedText(name: string): string { "收到文件: " + name }
  function SentText(name: string): string { "发送文件: " + name }

  /** `file-start`: a fresh table entry and a `receiving` record at 0 %. */
  function StartReceive(inbox: Inbox, id: string, name: string, size: nat): Inbox {
    inbox.(receiving := Put(inbox.receiving, Incoming(id, [], 0, size, name)),
           transfers := inbox.transfers + [FileTransfer(id, name, size, Percent(0), Receiving, None)])
  }

  /** `file-chunk`: progress becomes the chunk-index ratio. */
  function ChunkInfo(inbox: Inbox, id: string, index: nat, total: nat): Inbox {
    inbox.(transfers := WithProgress(inbox.transfers, id, Fraction(index, total)))
  }

  /** A binary frame: appended to the FIRST entry of the table, whatever
      transfer it belongs to; nothing happens when the table is empty. */
  function ChunkData(inbox: Inbox, bytes: seq<byte>): Inbox {
    if inbox.receiving == [] then inbox
    else
      var e := inbox.receiving[0];
      var e' := e.(chunks := e.chunks + [bytes], receivedSize := e.receivedSize + |bytes|);
      inbox.(receiving := inbox.receiving[0 := e'],
             transfers := WithProgress(inbox.transfers, e.transferId, Fraction(e'.receivedSize, e.totalSize)))
  }

  /** `file-end`: for a known id, the chunks joined in arrival order complete the
      record, a chat line announces the file and the entry is deleted; for an
      unknown id nothing changes. */
  function FinishReceive(inbox: Inbox, id: string): Inbox {
    var k := Find(inbox.receiving, id);
    if k == |inbox.receiving| then inbox
    else
      var e := inbox.receiving[k];
      Inbox(Delete(inbox.receiving, id),
            WithCompleted(inbox.transfers, id, Concat(e.chunks)),
            inbox.messages + [ChatMessage(ReceivedText(e.fileName), Peer, FileKind(e.fileName, e.totalSize))])
  }

  /** The data channel's `onmessage` dispatch. */
  function Deliver(inbox: Inbox, f: Frame): Inbox {
    match f
    case TextFrame(text) => inbox.(messages := inbox.messages + [ChatMessage(text, Peer, TextKind)])
    case FileStart(id, name, size, _) => StartReceive(inbox, id, name, size)
    case FileChunk(id, index, total) => ChunkInfo(inbox, id, index, total)
    case FileEnd(id) => FinishReceive(inbox, id)
    case Binary(bytes) => ChunkData(inbox, bytes)
    case OtherFrame => inbox
  }

  /** The frames delivered one after the other, in order. */
  function DeliverAll(inbox: Inbox, fs: seq<Frame>): Inbox {
    if fs == [] then inbox else Deliver(DeliverAll(inbox, fs[..|fs| - 1]), fs[|fs| - 1])
  }

  lemma {:induction false} DeliverAllAppend(inbox: Inbox, a: seq<Frame>, b: seq<Frame>)
    ensures DeliverAll(inbox, a + b) == DeliverAll(DeliverAll(inbox, a), b)
    decreases |b|
  {
    if b == [] {
      assert a + b == a;
    } else {
      assert (a + b)[..|a + b| - 1] == a + b[..|b| - 1];
      DeliverAllAppend(inbox, a, b[..|b| - 1]);
    }
  }

  /** Every handler keeps each entry's counter equal to the bytes it holds. */
  lemma DeliverKeepsSizes(inbox: Inbox, f: Frame)
    requires SizesAgree(inbox.receiving)
    ensures SizesAgree(Deliver(inbox, f).receiving)
  {
    match f
    case FileStart(id, name, size, _) =>
      var rs' := Deliver(inbox, f).receiving;
      forall k | 0 <= k < |rs'| ensures rs'[k].receivedSize == TotalLength(rs'[k].chunks) {
        if k < |inbox.receiving| && inbox.receiving[k].transferId != id {
          assert rs'[k] == inbox.receiving[k];
        }
      }
    case Binary(bytes) =>
      if inbox.receiving != [] {
        var c := inbox.receiving[0].chunks + [bytes];
        assert c[..|c| - 1] == inbox.receiving[0].chunks;
      }
    case FileEnd(id) =>
      var rs := inbox.receiving;
      var k := Find(rs, id);
      if k < |rs| {
        var rs' := rs[..k] + rs[k + 1..];
        forall j | 0 <= j < |rs'| ensures rs'[j].receivedSize == TotalLength(rs'[j].chunks) {
          if j < k { assert rs'[j] == rs[j]; } else { assert rs'[j] == rs[j + 1]; }
        }
      }
    case _ =>
  }

  /** A binary frame is attributed to the first open entry even when it was
      announced by a `file-chunk` of another transfer: two interleaved
      incoming files corrupt each other. */
  lemma ChunkGoesToFirstEntry(inbox: Inbox, id: string, index: nat, total: nat, bytes: seq<byte>)
    requires |inbox.receiving| >= 2 && inbox.receiving[1].transferId == id
    requires inbox.receiving[0].transferId != id
    ensures var out := DeliverAll(inbox, [FileChunk(id, index, total), Binary(bytes)]);
      && |out.receiving| == |inbox.receiving|
      && out.receiving[0].chunks == inbox.receiving[0].chunks + [bytes]
      && out.receiving[1] == inbox.receiving[1]
  {
    DeliverTwo(inbox, FileChunk(id, index, total), Binary(bytes));
  }

  // ---------------------------------------------------------------------------
  // The round trip

  lemma WithProgressFreshLast(ts: seq<FileTransfer>, t: FileTransfer, p: Progress)
    requires forall k :: 0 <= k < |ts| ==> ts[k].id != t.id
    ensures WithProgress(ts + [t], t.id, p) == ts + [t.(progress := p)]
  {
  }

  lemma WithCompletedFreshLast(ts: seq<FileTransfer>, t: FileTransfer, data: seq<byte>)
    requires forall k :: 0 <= k < |ts| ==> ts[k].id != t.id
    ensures WithCompleted(ts + [t], t.id, data)
         == ts + [t.(status := Completed, progress := Percent(100), data := Some(data))]
  {
  }

  /** The receiver's state after the `file-start` and the first `k` chunk pairs
      of a transfer that started with an empty table. */
  ghost predicate Midway(out: Inbox, inbox: Inbox, id: string, name: string, size: nat,
                         chunks: seq<seq<byte>>, k: nat)
    requires k <= |chunks|
  {
    && out.receiving == [Incoming(id, chunks[..k], TotalLength(chunks[..k]), size, name)]
    && |out.transfers| == |inbox.transfers| + 1
    && out.transfers[..|inbox.transfers|] == inbox.transfers
    && out.transfers[|inbox.transfers|].id == id
    && out.transfers[|inbox.transfers|].fileName == name
    && out.transfers[|inbox.transfers|].fileSize == size
    && out.transfers[|inbox.transfers|].data == None
    && out.messages == inbox.messages
  }

  lemma DeliverTwo(inbox: Inbox, f: Frame, g: Frame)
    ensures DeliverAll(inbox, [f, g]) == Deliver(Deliver(inbox, f), g)
  {
    var fs := [f, g];
    assert fs[..1] == [f] && fs[..1][..0] == [];
    assert DeliverAll(inbox, []) == inbox;
    assert DeliverAll(inbox, [f]) == Deliver(inbox, f);
    assert DeliverAll(inbox, fs) == Deliver(DeliverAll(inbox, [f]), g);
  }

  /** One chunk pair moves the receiver from `k` to `k + 1` chunks. */
  lemma PairReceived(mid: Inbox, inbox: Inbox, id: string, name: string, size: nat,
                     chunks: seq<seq<byte>>, total: nat, k: nat)
    requires k < |chunks|
    requires Midway(mid, inbox, id, name, size, chunks, k)
    requires forall j :: 0 <= j < |inbox.transfers| ==> inbox.transfers[j].id != id
    ensures Midway(Deliver(Deliver(mid, FileChunk(id, k, total)), Binary(chunks[k])),
                   inbox, id, name, size, chunks, k + 1)
  {
    var ts := inbox.transfers;
    assert mid.transfers == ts + [mid.transfers[|ts|]];
    WithProgressFreshLast(ts, mid.transfers[|ts|], Fraction(k, total));
    var s1 := Deliver(mid, FileChunk(id, k, total));
    assert s1.transfers == ts + [s1.transfers[|ts|]];
    assert chunks[..k] + [chunks[k]] == chunks[..k + 1];
    assert chunks[..k + 1][..k] == chunks[..k];
    WithProgressFreshLast(ts, s1.transfers[|ts|], Fraction(TotalLength(chunks[..k + 1]), size));
  }

  lemma {:induction false} PairsReceived(start: Inbox, inbox: Inbox, id: string, name: string, size: nat,
                                         chunks: seq<seq<byte>>, total: nat, k: nat)
    requires k <= |chunks|
    requires Midway(start, inbox, id, name, size, chunks, 0)
    requires forall j :: 0 <= j < |inbox.transfers| ==> inbox.transfers[j].id != id
    ensures Midway(DeliverAll(start, Pairs(id, chunks, total, k)), inbox, id, name, size, chunks, k)
  {
    if k > 0 {
      PairsReceived(start, inbox, id, name, size, chunks, total, k - 1);
      var before := Pairs(id, chunks, total, k - 1);
      var f, g := FileChunk(id, k - 1, total), Binary(chunks[k - 1]);
      DeliverAllAppend(start, before, [f, g]);
      DeliverTwo(DeliverAll(start, before), f, g);
      PairReceived(DeliverAll(start, before), inbox, id, name, size, chunks, total, k - 1);
    }
  }

  /** File round trip: a receiver with no file in progress that is handed the
      frames of one `sendFile` ends with no table entry, one new `completed`
      record at 100 % whose data is exactly the file, and one chat line. */
  lemma FileRoundTrip(inbox: Inbox, id: string, name: string, file: seq<byte>)
    requires inbox.receiving == []
    requires forall k :: 0 <= k < |inbox.transfers| ==> inbox.transfers[k].id != id
    ensures var out := DeliverAll(inbox, FileFrames(id, name, file));
      && out.receiving == []
      && out.transfers == inbox.transfers + [FileTransfer(id, name, |file|, Percent(100), Completed, Some(file))]
      && out.messages == inbox.messages + [ChatMessage(ReceivedText(name), Peer, FileKind(name, |file|))]
  {
    var chunks := Chunks(file);
    var total := TotalChunks(|file|);
    var head := [FileStart(id, name, |file|, total)];
    var pairs := Pairs(id, chunks, total, |chunks|);
    assert FileFrames(id, name, file) == (head + pairs) + [FileEnd(id)];
    DeliverAllAppend(inbox, head, pairs);
    assert head[..0] == [];
    var start := DeliverAll(inbox, head);
    assert start == StartReceive(inbox, id, name, |file|);
    assert chunks[..0] == [];
    assert Midway(start, inbox, id, name, |file|, chunks, 0);
    PairsReceived(start, inbox, id, name, |file|, chunks, total, |chunks|);
    var mid := DeliverAll(start, pairs);
    assert chunks[..|chunks|] == chunks;
    ChunksReassemble(file);
    var ts := inbox.transfers;
    assert mid.transfers == ts + [mid.transfers[|ts|]];
    WithCompletedFreshLast(ts, mid.transfers[|ts|], file);
    var frames := (head + pairs) + [FileEnd(id)];
    assert frames[..|frames| - 1] == head + pairs;
  }

  // ---------------------------------------------------------------------------
  // The sender's read loop

  /** The frames `sendFile` puts on an open channel, built the way its reader
      loop builds them: `file-start`, then for each `chunkIndex` a `file-chunk`
      frame, the slice just read and a progress update, reading the next slice
      while `chunkIndex < totalChunks`, then `file-end`. `ts` is the transfer
      list after those progress updates; the final update overwrites them all. */
  method FrameFile(id: string, name: string, file: seq<byte>, ts0: seq<FileTransfer>)
    returns (frames: seq<Frame>, ts: seq<FileTransfer>)
    ensures frames == FileFrames(id, name, file)
    ensures WithSent(ts, id) == WithSent(ts0, id)
  {
    var total := TotalChunks(|file|);
    ts := ts0;
    frames := [FileStart(id, name, |file|, total)];
    ghost var chunks := Chunks(file);
    ChunkCount(file);
    ChunkAt(file, 0);
    var chunkIndex := 0;
    var chunk := file[..Min(ChunkSize, |file|)];
    while true
      invariant 0 <= chunkIndex < |chunks|
      invariant chunk == chunks[chunkIndex]
      invariant frames == [FileStart(id, name, |file|, total)] + Pairs(id, chunks, total, chunkIndex)
      invariant WithSent(ts, id) == WithSent(ts0, id)
      decreases |chunks| - chunkIndex
    {
      frames := frames + [FileChunk(id, chunkIndex, total), Binary(chunk)];
      chunkIndex := chunkIndex + 1;
      WithSentAbsorbsProgress(ts, id, Fraction(chunkIndex, total));
      ts := WithProgress(ts, id, Fraction(chunkIndex, total));
      if chunkIndex < total {
        ChunkAt(file, chunkIndex);
        var start := chunkIndex * ChunkSize;
        chunk := file[start..Min(start + ChunkSize, |file|)];
      } else {
        break;
      }
    }
    frames := frames + [FileEnd(id)];
  }

  // ---------------------------------------------------------------------------
  // Reassembly into one buffer

  /** `new ArrayBuffer(totalSize)` filled by `uint8Array.set(chunk, offset)`
      with `offset` advancing by each chunk's length. */
  method Combine(chunks: seq<seq<byte>>) returns (combined: seq<byte>)
    ensures combined == Concat(chunks)
  {
    ConcatLength(chunks);
    var buffer := new byte[TotalLength(chunks)];
    var offset := 0;
    var k := 0;
    while k < |chunks|
      invariant 0 <= k <= |chunks|
      invariant offset == TotalLength(chunks[..k])
      invariant offset <= buffer.Length
      invariant buffer[..offset] == Concat(chunks[..k])
    {
      var chunk := chunks[k];
      assert chunks[..k + 1][..k] == chunks[..k];
      ConcatLength(chunks[..k + 1]);
      ConcatPrefixLength(chunks, k + 1);
      var j := 0;
      while j < |chunk|
        invariant 0 <= j <= |chunk|
        invariant offset + |chunk| <= buffer.Length
        invariant buffer[..offset] == Concat(chunks[..k])
        invariant buffer[offset..offset + j] == chunk[..j]
      {
        buffer[offset + j] := chunk[j];
        j := j + 1;
      }
      assert buffer[..offset + |chunk|] == buffer[..offset] + buffer[offset..offset + |chunk|];
      offset := offset + |chunk|;
      k := k + 1;
    }
    assert chunks[..k] == chunks;
    combined := buffer[..];
  }

  lemma {:induction false} ConcatPrefixLength(cs: seq<seq<byte>>, k: nat)
    requires k <= |cs|
    ensures TotalLength(cs[..k]) <= TotalLength(cs)
    decreases |cs| - k
  {
    if k < |cs| {
      ConcatPrefixLength(cs, k + 1);
      var longer := cs[..k + 1];
      assert longer[..|longer| - 1] == cs[..k];
      assert TotalLength(longer) == TotalLength(cs[..k]) + |cs[k]|;
    } else {
      assert cs[..k] == cs;
    }
  }
}
