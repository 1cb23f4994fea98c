/** The streaming connection as the actor runs it: a cursor and the handlers of its events, each
    proved to do what the state machine says. */
module FileStreamConnections {
  import opened Common
  import opened ByteRange
  import opened PathMessages
  import opened FileStream

  class FileStreamCursor {
    var totalSize: int
    var startOffset: int
    var endOffset: int
    var nextOffset: int
    var contiguousEnd: int

    function Value(): Cursor
      reads this
    {
      Cursor(totalSize, startOffset, endOffset, nextOffset, contiguousEnd)
    }

    constructor ()
      ensures Value() == Fresh().cursor
    {
      totalSize, startOffset, endOffset, nextOffset, contiguousEnd := -1, 0, -1, 0, 0;
    }

    method SetTotalSize(size: int)
      modifies this
      ensures Value() == old(Value()).(totalSize := size)
    {
      totalSize := size;
    }

    method SetRange(start: int, end: int)
      modifies this
      ensures Value() == old(Value()).SetRange(start, end)
    {
      startOffset, endOffset, nextOffset := start, end, start;
    }

    method UpdateProgress(offset: int, prefix: int, isCompleted: bool) returns (ok: bool)
      modifies this
      ensures ok == old(Value()).ProgressOk(offset, prefix)
      ensures Value() == if ok then old(Value()).UpdateProgress(offset, prefix, isCompleted) else old(Value())
    {
      if totalSize < 0 || offset < 0 || prefix < 0 || offset > totalSize || prefix > totalSize - offset {
        return false;
      }
      if endOffset < startOffset && totalSize > 0 && startOffset == 0 {
        endOffset := totalSize - 1;
      }
      if offset == 0 && prefix > contiguousEnd {
        contiguousEnd := prefix;
      }
      if isCompleted && offset == 0 && prefix == totalSize {
        contiguousEnd := totalSize;
      }
      ok := true;
    }

    method Commit(offset: int, size: int) returns (ok: bool)
      modifies this
      ensures ok == old(Value()).CommitOk(offset, size)
      ensures Value() == if ok then old(Value()).Commit(size) else old(Value())
    {
      if offset != nextOffset || size <= 0 || size > contiguousEnd - nextOffset || size > endOffset + 1 - nextOffset {
        return false;
      }
      nextOffset := nextOffset + size;
      ok := true;
    }
  }

  class FileStreamConnection {
    const setup: Setup
    const cursor: FileStreamCursor

    var localPath: string
    var fileOpen: bool
    var headersSent: bool
    var readInFlight: bool
    var writeInFlight: bool
    var downloadCompleted: bool
    var firstByteSent: bool
    var completedOk: bool
    var partialResponse: bool
    var pendingWriteOffset: int
    var pendingWriteSize: int
    var finished: bool

    ghost var reported: int
    ghost var contentLength: int
    ghost var inFlight: seq<bv8>
    ghost var flushed: seq<bv8>
    ghost var outcome: Outcome
    ghost var messages: seq<Message>
    ghost var tornDown: bool

    ghost function Snapshot(): Stream
      reads this, cursor
    {
      Stream(cursor.Value(), localPath, fileOpen, headersSent, writeInFlight, downloadCompleted, firstByteSent,
             completedOk, partialResponse, pendingWriteOffset, pendingWriteSize, finished,
             reported, contentLength, inFlight, flushed, outcome, messages, tornDown)
    }

    ghost predicate Valid()
      reads this, cursor
    {
      Inv(setup, Asked(setup), Snapshot()) && !readInFlight
    }

    constructor (setup: Setup)
      ensures Valid() && fresh(cursor) && this.setup == setup && Snapshot() == Fresh()
    {
      this.setup := setup;
      cursor := new FileStreamCursor();
      localPath, fileOpen := "", false;
      headersSent, readInFlight, writeInFlight, downloadCompleted := false, false, false, false;
      firstByteSent, completedOk, partialResponse := false, false, false;
      pendingWriteOffset, pendingWriteSize, finished := -1, 0, false;
      reported, contentLength, inFlight, flushed, outcome, messages, tornDown := 0, 0, [], [], Running, [], false;
    }

    // --- ways to end ---

    method Abort()
      modifies this
      ensures Snapshot() == old(Snapshot()).Abort() && readInFlight == old(readInFlight)
    {
      if finished {
        return;
      }
      finished, outcome := true, Aborted;
    }

    method Fail(code: int)
      modifies this
      ensures Snapshot() == old(Snapshot()).Fail(code) && readInFlight == old(readInFlight)
    {
      if finished {
        return;
      }
      if headersSent {
        Abort();
        return;
      }
      finished, outcome := true, Failed(code);
    }

    method Finish()
      requires !readInFlight
      modifies this
      ensures Snapshot() == old(Snapshot()).Finish() && readInFlight == old(readInFlight)
    {
      if finished {
        return;
      }
      if !cursor.Value().IsComplete() || readInFlight || writeInFlight {
        Abort();
        return;
      }
      finished, completedOk, outcome := true, true, Completed;
    }

    method TearDown()
      modifies this
      ensures Snapshot() == old(Snapshot()).TearDown() && readInFlight == old(readInFlight)
    {
      fileOpen := false;
      messages := messages + Ended(localPath);
      tornDown := true;
    }

    // --- steps of the handlers ---

    method MoveTo(path: string)
      modifies this
      ensures Snapshot() == old(Snapshot()).MoveTo(path) && readInFlight == old(readInFlight)
    {
      messages := messages + Moved(localPath, path);
      if path != "" && localPath != path {
        fileOpen := false;
        localPath := path;
      }
    }

    method SendHeaders(headerOk: bool)
      modifies this
      ensures Snapshot() == old(Snapshot()).SendHeaders(headerOk) && readInFlight == old(readInFlight)
    {
      if headersSent {
        return;
      }
      if !headerOk {
        Fail(500);
        return;
      }
      headersSent := true;
      contentLength := if cursor.totalSize == 0 then 0 else cursor.endOffset - cursor.startOffset + 1;
    }

    method OnFileData(data: seq<bv8>)
      modifies this
      ensures Snapshot() == old(Snapshot()).OnFileData(setup, data) && !readInFlight
    {
      readInFlight := false;
      if finished {
        return;
      }
      var expected := cursor.Value().NextReadSize(Min(setup.config.chunkSize, setup.config.writeHighWatermark));
      if |data| != expected || data == [] {
        Abort();
        return;
      }
      StartWrite(data);
    }

    method StartWrite(data: seq<bv8>)
      modifies `writeInFlight, `pendingWriteOffset, `pendingWriteSize, `inFlight
      ensures var s := old(Snapshot());
        Snapshot() == s.(writeInFlight := true, pendingWriteOffset := s.cursor.nextOffset, pendingWriteSize := |data|,
                         inFlight := data)
    {
      writeInFlight := true;
      pendingWriteOffset := cursor.nextOffset;
      pendingWriteSize := |data|;
      inFlight := data;
    }

    method SetFileOpen(open: bool)
      modifies `fileOpen
      ensures Snapshot() == old(Snapshot()).(fileOpen := open)
    {
      fileOpen := open;
    }

    method FullRead(data: seq<bv8>)
      modifies this
      ensures Snapshot() == old(Snapshot()).(fileOpen := true).OnFileData(setup, data) && !readInFlight
    {
      SetFileOpen(true);
      OnFileData(data);
    }

    method ShortRead()
      requires !readInFlight
      modifies this
      ensures Snapshot() == if old(downloadCompleted) then old(Snapshot()).(fileOpen := true).Abort()
        else old(Snapshot()).(fileOpen := false)
      ensures !readInFlight
    {
      SetFileOpen(true);
      if downloadCompleted {
        Abort();
      } else {
        SetFileOpen(false);
      }
    }

    method FailedRead()
      requires !readInFlight
      modifies this
      ensures Snapshot() == old(Snapshot()).(fileOpen := true).Abort() && !readInFlight
    {
      SetFileOpen(true);
      Abort();
    }

    method ReadChunk(count: int, io: Io)
      requires !readInFlight && 0 < count
      modifies this
      ensures Snapshot() == old(Snapshot()).ReadChunk(setup, count, io) && !readInFlight
    {
      if !fileOpen && !io.opens {
        if downloadCompleted {
          Abort();
        }
        return;
      }
      if io.fault {
        FailedRead();
        return;
      }
      var data := ReadAt(io.local, cursor.nextOffset, count);
      if |data| != count {
        ShortRead();
      } else {
        FullRead(data);
      }
    }

    method TryRead(io: Io)
      requires !readInFlight
      modifies this
      ensures Snapshot() == old(Snapshot()).TryRead(setup, io) && !readInFlight
    {
      if finished || readInFlight || writeInFlight || cursor.totalSize < 0 {
        return;
      }
      if cursor.Value().IsComplete() {
        Finish();
        return;
      }
      var count := cursor.Value().NextReadSize(Min(setup.config.chunkSize, setup.config.writeHighWatermark));
      if count == 0 || localPath == "" {
        return;
      }
      ReadChunk(count, io);
    }

    // --- the handlers ---

    method OnFileReady(fileId: int, totalSize: int, path: string, offset: int, prefix: int,
                       isCompleted: bool, headerOk: bool, io: Io)
      requires Valid() &&
        Enabled(setup, Snapshot(), Ready(fileId, totalSize, path, offset, prefix, isCompleted, headerOk, io))
      modifies this, cursor
      ensures Snapshot() == Step(setup, old(Snapshot()),
        Ready(fileId, totalSize, path, offset, prefix, isCompleted, headerOk, io))
      ensures Valid()
    {
      ghost var e := Ready(fileId, totalSize, path, offset, prefix, isCompleted, headerOk, io);
      StepKeeps(setup, Asked(setup), Snapshot(), e);
      ghost var noted := Reported(setup, Snapshot(), e);
      HandleReady(fileId, totalSize, path, offset, prefix, isCompleted, headerOk, io);
      NoteReport(noted);
    }

    ghost method NoteReport(prefix: int)
      modifies `reported
      ensures Snapshot() == old(Snapshot()).(reported := prefix)
    {
      reported := prefix;
    }

    method HandleReady(fileId: int, totalSize: int, path: string, offset: int, prefix: int,
                       isCompleted: bool, headerOk: bool, io: Io)
      requires !readInFlight
      modifies this, cursor
      ensures Snapshot() ==
        old(Snapshot()).OnFileReady(setup, fileId, totalSize, path, offset, prefix, isCompleted, headerOk, io)
      ensures !readInFlight
    {
      if finished {
        return;
      }
      if fileId <= 0 || totalSize < 0 {
        Fail(500);
        return;
      }
      MoveTo(path);
      Admit(totalSize, offset, prefix, isCompleted, headerOk, io);
    }

    method Admit(totalSize: int, offset: int, prefix: int, isCompleted: bool, headerOk: bool, io: Io)
      requires !readInFlight
      modifies this, cursor
      ensures Snapshot() == old(Snapshot()).Admit(setup, totalSize, offset, prefix, isCompleted, headerOk, io) &&
        !readInFlight
    {
      if setup.config.maxSize > 0 && totalSize > setup.config.maxSize {
        Fail(413);
        return;
      }
      cursor.SetTotalSize(totalSize);
      ghost var sized := old(Snapshot()).(cursor := old(Snapshot()).cursor.(totalSize := totalSize));
      assert Snapshot() == sized;
      var range := ParseRange(setup.route.range, totalSize);
      if range.None? {
        Fail(416);
        return;
      }
      Place(range.value);
      Respond(offset, prefix, isCompleted, headerOk, io);
    }

    method Place(r: Range)
      modifies this, cursor
      ensures Snapshot() == old(Snapshot()).Place(r) && readInFlight == old(readInFlight)
    {
      partialResponse := r.isPartial;
      cursor.SetRange(r.start, r.end);
    }

    method Advance(offset: int, prefix: int, isCompleted: bool, completed: bool) returns (ok: bool)
      modifies this, cursor
      ensures ok == old(Snapshot()).cursor.ProgressOk(offset, prefix) && readInFlight == old(readInFlight)
      ensures Snapshot() == if ok then old(Snapshot()).Advance(offset, prefix, isCompleted, completed)
        else old(Snapshot())
    {
      ok := cursor.UpdateProgress(offset, prefix, isCompleted);
      if ok {
        downloadCompleted := completed;
      }
    }

    method Respond(offset: int, prefix: int, isCompleted: bool, headerOk: bool, io: Io)
      requires !readInFlight
      modifies this, cursor
      ensures Snapshot() == old(Snapshot()).Respond(setup, offset, prefix, isCompleted, headerOk, io) && !readInFlight
    {
      var ok := Advance(offset, prefix, isCompleted, isCompleted);
      if !ok {
        Fail(502);
        return;
      }
      if downloadCompleted && cursor.contiguousEnd < cursor.totalSize {
        Fail(502);
        return;
      }
      SendHeaders(headerOk);
      if setup.route.headOnly {
        return;
      }
      TryRead(io);
    }

    method OnFileProgress(reportedSize: int, path: string, offset: int, prefix: int,
                          isCompleted: bool, isActive: bool, io: Io)
      requires Valid() &&
        Enabled(setup, Snapshot(), Progress(reportedSize, path, offset, prefix, isCompleted, isActive, io))
      modifies this, cursor
      ensures Snapshot() == Step(setup, old(Snapshot()),
        Progress(reportedSize, path, offset, prefix, isCompleted, isActive, io))
      ensures Valid()
    {
      ghost var e := Progress(reportedSize, path, offset, prefix, isCompleted, isActive, io);
      StepKeeps(setup, Asked(setup), Snapshot(), e);
      ghost var noted := Reported(setup, Snapshot(), e);
      HandleProgress(reportedSize, path, offset, prefix, isCompleted, isActive, io);
      NoteReport(noted);
    }

    method HandleProgress(reportedSize: int, path: string, offset: int, prefix: int,
                          isCompleted: bool, isActive: bool, io: Io)
      requires !readInFlight
      modifies this, cursor
      ensures Snapshot() ==
        old(Snapshot()).OnFileProgress(setup, reportedSize, path, offset, prefix, isCompleted, isActive, io)
      ensures !readInFlight
    {
      if finished || cursor.totalSize < 0 {
        return;
      }
      if reportedSize > 0 && reportedSize != cursor.totalSize {
        Abort();
        return;
      }
      MoveTo(path);
      GoOn(offset, prefix, isCompleted, isActive, io);
    }

    method GoOn(offset: int, prefix: int, isCompleted: bool, isActive: bool, io: Io)
      requires !readInFlight
      modifies this, cursor
      ensures Snapshot() == old(Snapshot()).GoOn(setup, offset, prefix, isCompleted, isActive, io) && !readInFlight
    {
      var ok := Advance(offset, prefix, isCompleted, downloadCompleted || isCompleted);
      if !ok {
        Abort();
        return;
      }
      if !downloadCompleted && !isActive {
        Abort();
        return;
      }
      if downloadCompleted && cursor.contiguousEnd < cursor.totalSize {
        Abort();
        return;
      }
      TryRead(io);
    }

    method OnChunkFlushed(ok: bool, io: Io)
      requires Valid() && Enabled(setup, Snapshot(), ChunkFlushed(ok, io))
      modifies this, cursor
      ensures Snapshot() == Step(setup, old(Snapshot()), ChunkFlushed(ok, io))
      ensures Valid()
    {
      StepKeeps(setup, Asked(setup), Snapshot(), ChunkFlushed(ok, io));
      writeInFlight := false;
      if finished {
        return;
      }
      if !ok {
        Abort();
        return;
      }
      var committed := CommitPending();
      if !committed {
        Abort();
        return;
      }
      TryRead(io);
    }

    method CommitPending() returns (committed: bool)
      modifies this, cursor
      ensures committed == old(Snapshot()).cursor.CommitOk(old(pendingWriteOffset), old(pendingWriteSize))
      ensures var t := old(Snapshot()).(pendingWriteOffset := -1, pendingWriteSize := 0);
        Snapshot() == if !committed then t
          else t.(cursor := t.cursor.Commit(old(pendingWriteSize)), firstByteSent := true,
                  flushed := t.flushed + t.inFlight, inFlight := [])
      ensures readInFlight == old(readInFlight)
    {
      committed := cursor.Commit(pendingWriteOffset, pendingWriteSize);
      pendingWriteOffset, pendingWriteSize := -1, 0;
      if committed {
        firstByteSent := true;
        flushed, inFlight := flushed + inFlight, [];
      }
    }

    method OnHeadersFlushed(ok: bool)
      requires Valid() && Enabled(setup, Snapshot(), HeadersFlushed(ok))
      modifies this
      ensures Snapshot() == Step(setup, old(Snapshot()), HeadersFlushed(ok))
      ensures Valid()
    {
      StepKeeps(setup, Asked(setup), Snapshot(), HeadersFlushed(ok));
      if finished {
        return;
      }
      if !ok {
        Abort();
        return;
      }
      if setup.route.headOnly {
        finished, outcome := true, HeadDone;
      }
    }

    method OnFileError(code: int)
      requires Valid()
      modifies this
      ensures Snapshot() == Step(setup, old(Snapshot()), FileError(code))
      ensures Valid()
    {
      StepKeeps(setup, Asked(setup), Snapshot(), FileError(code));
      if finished {
        return;
      }
      var status := if code < 400 || code > 599 then 502 else code;
      if !headersSent {
        Fail(status);
      } else {
        Abort();
      }
    }

    method TimeoutExpired()
      requires Valid()
      modifies this
      ensures Snapshot() == Step(setup, old(Snapshot()), Timeout)
      ensures Valid()
    {
      OnFileError(504);
    }
  }
}
