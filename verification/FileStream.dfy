/** The streaming connection: a GET or HEAD of a file that is still being downloaded, served as
    single byte ranges (RFC 9110, sections 14.4, 15.3.7 and 15.5.17). */
module FileStream {
  import opened Common
  import opened ByteRange
  import opened PathMessages

  datatype Config = Config(chunkSize: int, writeHighWatermark: int, maxSize: int)

  datatype Route = Route(range: string, headOnly: bool, noCache: bool)

  /** What stays the same: the file as it is at its origin, the configuration and the request. */
  datatype Setup = Setup(file: seq<bv8>, config: Config, route: Route)

  // --- the cursor ---

  datatype Cursor = Cursor(totalSize: int, startOffset: int, endOffset: int, nextOffset: int, contiguousEnd: int)
  {
    function SetRange(start: int, end: int): Cursor {
      this.(startOffset := start, endOffset := end, nextOffset := start)
    }

    predicate ProgressOk(offset: int, prefix: int) {
      totalSize >= 0 && offset >= 0 && prefix >= 0 && offset <= totalSize && prefix <= totalSize - offset
    }

    function UpdateProgress(offset: int, prefix: int, isCompleted: bool): Cursor {
      var end := if endOffset < startOffset && totalSize > 0 && startOffset == 0 then totalSize - 1 else endOffset;
      var reached := if offset == 0 && prefix > contiguousEnd then prefix else contiguousEnd;
      var whole := if isCompleted && offset == 0 && prefix == totalSize then totalSize else reached;
      this.(endOffset := end, contiguousEnd := whole)
    }

    function NextReadSize(chunkSize: int): int {
      if chunkSize <= 0 || totalSize < 0 || endOffset < startOffset || nextOffset > endOffset ||
        nextOffset >= contiguousEnd then 0
      else Min(chunkSize, Min(contiguousEnd - nextOffset, endOffset + 1 - nextOffset))
    }

    predicate CommitOk(offset: int, size: int) {
      offset == nextOffset && size > 0 && size <= contiguousEnd - nextOffset && size <= endOffset + 1 - nextOffset
    }

    function Commit(size: int): Cursor { this.(nextOffset := nextOffset + size) }

    predicate IsComplete() {
      totalSize == 0 || (totalSize > 0 && endOffset >= startOffset && nextOffset == endOffset + 1)
    }
  }

  // --- the connection ---

  /** A read of a file: fewer bytes than asked for at its end. */
  function ReadAt(file: seq<bv8>, offset: int, count: int): seq<bv8> {
    if 0 <= offset < |file| && 0 <= count then file[offset..Min(offset + count, |file|)] else []
  }

  datatype Outcome = Running | Completed | HeadDone | Failed(code: int) | Aborted

  /** What a read of the local file meets, if one is attempted: whether the file can be opened and
      read, and its contents at that moment. */
  datatype Io = Io(opens: bool, fault: bool, local: seq<bv8>)

  /** The prefix reported, the content length announced, the bytes on their way, the bytes whose flush was confirmed,
      the outcome and the messages about the local file are history. */
  datatype Stream = Stream(
    cursor: Cursor, localPath: string, fileOpen: bool,
    headersSent: bool, writeInFlight: bool, downloadCompleted: bool, firstByteSent: bool, completedOk: bool,
    partialResponse: bool, pendingWriteOffset: int, pendingWriteSize: int, finished: bool,
    reported: int, contentLength: int, inFlight: seq<bv8>, flushed: seq<bv8>, outcome: Outcome,
    messages: seq<Message>, tornDown: bool)
  {
    function Abort(): Stream {
      if finished then this else this.(finished := true, outcome := Aborted)
    }

    function Fail(code: int): Stream {
      if finished then this
      else if headersSent then Abort()
      else this.(finished := true, outcome := Failed(code))
    }

    function Finish(): Stream {
      if finished then this
      else if !cursor.IsComplete() || writeInFlight then Abort()
      else this.(finished := true, completedOk := true, outcome := Completed)
    }

    function MoveTo(path: string): Stream {
      this.(localPath := if path != "" then path else localPath, messages := messages + Moved(localPath, path),
            fileOpen := fileOpen && (path == "" || path == localPath))
    }

    function SendHeaders(headerOk: bool): Stream {
      if headersSent then this
      else if !headerOk then Fail(500)
      else this.(headersSent := true,
                 contentLength := if cursor.totalSize == 0 then 0 else cursor.endOffset - cursor.startOffset + 1)
    }

    function OnFileData(x: Setup, data: seq<bv8>): Stream {
      if finished then this
      else if |data| != cursor.NextReadSize(Min(x.config.chunkSize, x.config.writeHighWatermark)) ||
        data == [] then Abort()
      else StartWrite(data)
    }

    function StartWrite(data: seq<bv8>): Stream {
      this.(writeInFlight := true, pendingWriteOffset := cursor.nextOffset, pendingWriteSize := |data|,
            inFlight := data)
    }

    /** The bytes of the local file that a read at the cursor returns. */
    function Piece(io: Io, count: int): seq<bv8> { ReadAt(io.local, cursor.nextOffset, count) }

    function TryRead(x: Setup, io: Io): Stream {
      if finished || writeInFlight || cursor.totalSize < 0 then this
      else if cursor.IsComplete() then Finish()
      else
        var count := cursor.NextReadSize(Min(x.config.chunkSize, x.config.writeHighWatermark));
        if count == 0 || localPath == "" then this else ReadChunk(x, count, io)
    }

    function ReadChunk(x: Setup, count: int, io: Io): Stream {
      if !fileOpen && !io.opens then (if downloadCompleted then Abort() else this)
      else if io.fault then this.(fileOpen := true).Abort()
      else if |Piece(io, count)| != count then
        if downloadCompleted then this.(fileOpen := true).Abort() else this.(fileOpen := false)
      else this.(fileOpen := true).OnFileData(x, Piece(io, count))
    }

    function OnFileReady(x: Setup, fileId: int, totalSize: int, path: string, offset: int, prefix: int,
                         isCompleted: bool, headerOk: bool, io: Io): Stream {
      if finished then this
      else if fileId <= 0 || totalSize < 0 then Fail(500)
      else MoveTo(path).Admit(x, totalSize, offset, prefix, isCompleted, headerOk, io)
    }

    function Admit(x: Setup, totalSize: int, offset: int, prefix: int, isCompleted: bool, headerOk: bool,
                   io: Io): Stream {
      if x.config.maxSize > 0 && totalSize > x.config.maxSize then Fail(413)
      else
        var t := this.(cursor := cursor.(totalSize := totalSize));
        var range := ParseRange(x.route.range, totalSize);
        if range.None? then t.Fail(416)
        else t.Place(range.value).Respond(x, offset, prefix, isCompleted, headerOk, io)
    }

    function Place(r: Range): Stream {
      this.(partialResponse := r.isPartial, cursor := cursor.SetRange(r.start, r.end))
    }

    function Advance(offset: int, prefix: int, isCompleted: bool, completed: bool): Stream {
      this.(cursor := cursor.UpdateProgress(offset, prefix, isCompleted), downloadCompleted := completed)
    }

    predicate Incomplete() { downloadCompleted && cursor.contiguousEnd < cursor.totalSize }

    function Respond(x: Setup, offset: int, prefix: int, isCompleted: bool, headerOk: bool, io: Io): Stream {
      if !cursor.ProgressOk(offset, prefix) then Fail(502)
      else
        var v := Advance(offset, prefix, isCompleted, isCompleted);
        if v.Incomplete() then v.Fail(502)
        else if x.route.headOnly then v.SendHeaders(headerOk)
        else v.SendHeaders(headerOk).TryRead(x, io)
    }

    function OnFileProgress(x: Setup, reportedSize: int, path: string, offset: int, prefix: int,
                            isCompleted: bool, isActive: bool, io: Io): Stream {
      if finished || cursor.totalSize < 0 then this
      else if reportedSize > 0 && reportedSize != cursor.totalSize then Abort()
      else MoveTo(path).GoOn(x, offset, prefix, isCompleted, isActive, io)
    }

    function GoOn(x: Setup, offset: int, prefix: int, isCompleted: bool, isActive: bool, io: Io): Stream {
      if !cursor.ProgressOk(offset, prefix) then Abort()
      else
        var t := Advance(offset, prefix, isCompleted, downloadCompleted || isCompleted);
        if (!t.downloadCompleted && !isActive) || t.Incomplete() then t.Abort() else t.TryRead(x, io)
    }

    function OnChunkFlushed(x: Setup, ok: bool, io: Io): Stream {
      var s := this.(writeInFlight := false);
      if finished then s
      else if !ok then s.Abort()
      else
        var t := s.(pendingWriteOffset := -1, pendingWriteSize := 0);
        if !cursor.CommitOk(pendingWriteOffset, pendingWriteSize) then t.Abort()
        else Confirm().TryRead(x, io)
    }

    /** The chunk on its way has been flushed. */
    function Confirm(): Stream {
      this.(writeInFlight := false, pendingWriteOffset := -1, pendingWriteSize := 0,
            cursor := cursor.Commit(pendingWriteSize), firstByteSent := true,
            flushed := flushed + inFlight, inFlight := [])
    }

    function OnHeadersFlushed(x: Setup, ok: bool): Stream {
      if finished then this
      else if !ok then Abort()
      else if x.route.headOnly then this.(finished := true, outcome := HeadDone)
      else this
    }

    function OnFileError(code: int): Stream {
      if finished then this else Fail(if code < 400 || code > 599 then 502 else code)
    }

    function TearDown(): Stream {
      this.(fileOpen := false, messages := messages + Ended(localPath), tornDown := true)
    }

    /** Whether the local copy is to be deleted when the stream ends. */
    predicate DeletesCopy(x: Setup) { x.route.noCache && completedOk }
  }

  function Fresh(): Stream {
    Stream(Cursor(-1, 0, -1, 0, 0), "", false, false, false, false, false, false, false, -1, 0, false,
           0, 0, [], [], Running, [], false)
  }

  // --- what the origin reports ---

  /** A part of the file of this size. */
  predicate IsPart(totalSize: int, offset: int, prefix: int) {
    0 <= offset && 0 <= prefix && offset + prefix <= totalSize
  }

  /** The event reports progress of the download that the handler does not refuse. */
  predicate Accepts(x: Setup, s: Stream, e: Event) {
    && !s.finished
    && match e
       case Ready(fileId, totalSize, _, offset, prefix, _, _, _) =>
         && 0 < fileId && 0 <= totalSize && (x.config.maxSize <= 0 || totalSize <= x.config.maxSize)
         && ParseRange(x.route.range, totalSize).Some? && IsPart(totalSize, offset, prefix)
       case Progress(reportedSize, _, offset, prefix, _, _, _) =>
         && 0 <= s.cursor.totalSize && (reportedSize <= 0 || reportedSize == s.cursor.totalSize)
         && IsPart(s.cursor.totalSize, offset, prefix)
       case _ => false
  }

  /** The largest prefix reported so far. */
  function Reported(x: Setup, s: Stream, e: Event): int {
    if Accepts(x, s, e) && e.offset == 0 && e.prefix > s.reported then e.prefix else s.reported
  }

  /** The first n bytes of the local file, as far as it goes, are those of the origin. */
  ghost predicate LocalOk(x: Setup, io: Io, n: int) {
    forall i | 0 <= i < n && i < |x.file| && i < |io.local| :: io.local[i] == x.file[i]
  }

  // --- the invariant ---

  /** What the cursor says once the response has begun. */
  ghost predicate CursorOk(x: Setup, c: Cursor) {
    && c.totalSize == |x.file| && 0 <= c.contiguousEnd <= |x.file|
    && 0 <= c.startOffset <= c.nextOffset <= c.endOffset + 1 <= |x.file|
    && (|x.file| > 0 ==> c.startOffset <= c.endOffset)
    && (c.startOffset < c.nextOffset ==> c.nextOffset <= c.contiguousEnd)
  }

  /** The request's range, parsed for the file's size. */
  function Asked(x: Setup): Option<Range> { ParseRange(x.route.range, |x.file|) }

  ghost predicate IsRange(p: Option<Range>, s: Stream) {
    p == Some(Range(s.partialResponse, s.cursor.startOffset, s.cursor.endOffset))
  }

  ghost predicate Began(x: Setup, p: Option<Range>, s: Stream) {
    && CursorOk(x, s.cursor) && IsRange(p, s)
    && s.contentLength == s.cursor.endOffset + 1 - s.cursor.startOffset
    && s.flushed == x.file[s.cursor.startOffset..s.cursor.nextOffset]
    && (s.writeInFlight && !s.finished ==> OnItsWay(x, s))
  }

  /** One chunk is on its way: the next bytes of the file, within the range and the download. */
  ghost predicate OnItsWay(x: Setup, s: Stream) {
    && s.pendingWriteOffset == s.cursor.nextOffset && s.pendingWriteSize == |s.inFlight| > 0
    && s.cursor.nextOffset + |s.inFlight| <= Min(s.cursor.contiguousEnd, s.cursor.endOffset + 1)
    && 0 <= s.cursor.nextOffset && s.cursor.contiguousEnd <= |x.file|
    && s.inFlight == x.file[s.cursor.nextOffset..s.cursor.nextOffset + |s.inFlight|]
  }

  ghost predicate Inv(x: Setup, p: Option<Range>, s: Stream) {
    StreamOk(x, p, s) && 0 <= s.reported == s.cursor.contiguousEnd
  }

  ghost predicate StreamOk(x: Setup, p: Option<Range>, s: Stream) {
    && (s.headersSent ==> Began(x, p, s))
    && (!s.headersSent ==>
      s.flushed == [] && !s.writeInFlight && !s.completedOk && (s.finished || s.cursor.totalSize < 0))
    && (!s.headersSent && !s.finished ==> s.cursor == Fresh().cursor)
    && (s.finished <==> s.outcome != Running) && (s.completedOk <==> s.outcome == Completed)
    && (s.outcome == Completed ==> s.headersSent && s.cursor.nextOffset == s.cursor.endOffset + 1)
    && (s.tornDown ==> s.finished)
    && Paired(s.messages) && Held(s.messages) == (if s.tornDown then "" else s.localPath)
  }

  // --- every handler keeps it ---

  lemma AbortKeeps(x: Setup, p: Option<Range>, s: Stream)
    requires StreamOk(x, p, s)
    ensures StreamOk(x, p, s.Abort())
  {
  }

  lemma MoveKeeps(x: Setup, p: Option<Range>, s: Stream, path: string)
    requires StreamOk(x, p, s) && !s.tornDown
    ensures StreamOk(x, p, s.MoveTo(path)) && s.MoveTo(path).cursor == s.cursor
  {
    MovedPaired(s.messages, s.localPath, path);
  }

  /** What is asked for next fits. */
  lemma CountFits(x: Setup, p: Option<Range>, s: Stream)
    requires Began(x, p, s)
    ensures var count := s.cursor.NextReadSize(Min(x.config.chunkSize, x.config.writeHighWatermark));
      && count >= 0 && 0 <= s.cursor.nextOffset
      && (count > 0 ==> s.cursor.nextOffset + count <= Min(s.cursor.contiguousEnd, s.cursor.endOffset + 1) <= |x.file|)
  {
  }

  /** A read of the local file that returns as many bytes as asked for returns those that are next,
      as long as the part that was reported is right. */
  lemma PieceFits(x: Setup, p: Option<Range>, s: Stream, io: Io)
    requires Began(x, p, s) && LocalOk(x, io, s.cursor.contiguousEnd)
    ensures var count := s.cursor.NextReadSize(Min(x.config.chunkSize, x.config.writeHighWatermark));
      && count >= 0
      && (count > 0 && |s.Piece(io, count)| == count ==>
        && 0 <= s.cursor.nextOffset
        && s.cursor.nextOffset + count <= Min(s.cursor.contiguousEnd, s.cursor.endOffset + 1) <= |x.file|
        && s.Piece(io, count) == x.file[s.cursor.nextOffset..s.cursor.nextOffset + count])
  {
    CountFits(x, p, s);
    var count := s.cursor.NextReadSize(Min(x.config.chunkSize, x.config.writeHighWatermark));
    if count > 0 && |s.Piece(io, count)| == count {
      SamePiece(x.file, io.local, s.cursor.nextOffset, count);
    }
  }

  lemma SamePiece(file: seq<bv8>, local: seq<bv8>, offset: int, count: int)
    requires 0 <= offset && 0 < count && offset + count <= |file| && |ReadAt(local, offset, count)| == count
    requires forall i | 0 <= i < offset + count && i < |local| :: local[i] == file[i]
    ensures ReadAt(local, offset, count) == file[offset..offset + count]
  {
  }

  lemma DataKeeps(x: Setup, p: Option<Range>, s: Stream, count: int, io: Io)
    requires StreamOk(x, p, s) && s.headersSent && !s.writeInFlight && LocalOk(x, io, s.cursor.contiguousEnd)
    requires count == s.cursor.NextReadSize(Min(x.config.chunkSize, x.config.writeHighWatermark)) > 0
    requires |s.Piece(io, count)| == count
    ensures StreamOk(x, p, s.OnFileData(x, s.Piece(io, count)))
  {
    PieceFits(x, p, s, io);
  }

  lemma FinishKeeps(x: Setup, p: Option<Range>, s: Stream)
    requires StreamOk(x, p, s) && (s.finished || s.headersSent)
    ensures StreamOk(x, p, s.Finish())
  {
  }

  lemma FileOpenKeeps(x: Setup, p: Option<Range>, s: Stream, open: bool)
    requires StreamOk(x, p, s)
    ensures StreamOk(x, p, s.(fileOpen := open)) && StreamOk(x, p, s.(fileOpen := open).Abort())
  {
  }

  lemma ReadChunkKeeps(x: Setup, p: Option<Range>, s: Stream, count: int, io: Io)
    requires StreamOk(x, p, s) && s.headersSent && !s.writeInFlight && LocalOk(x, io, s.cursor.contiguousEnd)
    requires count == s.cursor.NextReadSize(Min(x.config.chunkSize, x.config.writeHighWatermark)) > 0
    ensures StreamOk(x, p, s.ReadChunk(x, count, io))
  {
    if !s.fileOpen && !io.opens {
      AbortKeeps(x, p, s);
    } else {
      FileOpenKeeps(x, p, s, true);
      FileOpenKeeps(x, p, s, false);
      if !io.fault && |s.Piece(io, count)| == count {
        DataKeeps(x, p, s.(fileOpen := true), count, io);
      }
    }
  }

  lemma TryReadKeeps(x: Setup, p: Option<Range>, s: Stream, io: Io)
    requires StreamOk(x, p, s) && LocalOk(x, io, s.cursor.contiguousEnd)
    ensures StreamOk(x, p, s.TryRead(x, io))
  {
    if !s.finished && !s.writeInFlight && s.cursor.totalSize >= 0 {
      var count := s.cursor.NextReadSize(Min(x.config.chunkSize, x.config.writeHighWatermark));
      FinishKeeps(x, p, s);
      CountFits(x, p, s);
      if count != 0 {
        ReadChunkKeeps(x, p, s, count, io);
      }
    }
  }

  /** The response begins with the cursor at the start of the range. */
  lemma HeadersKeep(x: Setup, p: Option<Range>, v: Stream)
    requires NotBegun(v) && CursorOk(x, v.cursor) && IsRange(p, v) && v.cursor.nextOffset == v.cursor.startOffset
    ensures StreamOk(x, p, v.SendHeaders(true))
  {
  }

  ghost predicate NotBegun(v: Stream) {
    && !v.headersSent && !v.finished && !v.writeInFlight && !v.completedOk && v.flushed == [] && !v.tornDown
    && v.outcome == Running && Paired(v.messages) && Held(v.messages) == v.localPath
  }

  lemma FailKeeps(x: Setup, p: Option<Range>, v: Stream, code: int)
    requires NotBegun(v)
    ensures StreamOk(x, p, v.Fail(code))
  {
  }

  lemma PlacedOk(x: Setup, c: Cursor, r: Range, offset: int, prefix: int, isCompleted: bool)
    requires c == Fresh().cursor && ParseRange(x.route.range, |x.file|) == Some(r)
    requires c.(totalSize := |x.file|).SetRange(r.start, r.end).ProgressOk(offset, prefix)
    ensures var d := c.(totalSize := |x.file|).SetRange(r.start, r.end).UpdateProgress(offset, prefix, isCompleted);
      && CursorOk(x, d) && d.startOffset == d.nextOffset == r.start && d.endOffset == r.end
      && d.contiguousEnd == if offset == 0 then prefix else 0
  {
  }

  lemma BeginKeeps(x: Setup, p: Option<Range>, v: Stream, headerOk: bool, io: Io)
    requires NotBegun(v) && CursorOk(x, v.cursor) && IsRange(p, v) && v.cursor.nextOffset == v.cursor.startOffset
    requires LocalOk(x, io, v.cursor.contiguousEnd)
    ensures StreamOk(x, p, v.SendHeaders(headerOk)) && StreamOk(x, p, v.SendHeaders(headerOk).TryRead(x, io))
  {
    FailKeeps(x, p, v, 500);
    HeadersKeep(x, p, v);
    TryReadKeeps(x, p, v.SendHeaders(headerOk), io);
  }

  lemma RespondKeeps(x: Setup, p: Option<Range>, t: Stream, r: Range, offset: int, prefix: int, isCompleted: bool,
                     headerOk: bool, io: Io)
    requires NotBegun(t) && p == ParseRange(x.route.range, |x.file|) == Some(r) && t.partialResponse == r.isPartial
    requires t.cursor == Fresh().cursor.(totalSize := |x.file|).SetRange(r.start, r.end)
    requires IsPart(|x.file|, offset, prefix) ==> LocalOk(x, io, if offset == 0 then prefix else 0)
    ensures StreamOk(x, p, t.Respond(x, offset, prefix, isCompleted, headerOk, io))
  {
    FailKeeps(x, p, t, 502);
    if t.cursor.ProgressOk(offset, prefix) {
      PlacedOk(x, Fresh().cursor, r, offset, prefix, isCompleted);
      var v := t.Advance(offset, prefix, isCompleted, isCompleted);
      FailKeeps(x, p, v, 502);
      BeginKeeps(x, p, v, headerOk, io);
    }
  }

  lemma AdmitKeeps(x: Setup, p: Option<Range>, t: Stream, offset: int, prefix: int, isCompleted: bool,
                   headerOk: bool, io: Io)
    requires NotBegun(t) && t.cursor == Fresh().cursor && p == Asked(x)
    requires (x.config.maxSize <= 0 || |x.file| <= x.config.maxSize) && p.Some? && IsPart(|x.file|, offset, prefix) ==>
      LocalOk(x, io, if offset == 0 then prefix else 0)
    ensures StreamOk(x, p, t.Admit(x, |x.file|, offset, prefix, isCompleted, headerOk, io))
  {
    FailKeeps(x, p, t, 413);
    var u := t.(cursor := t.cursor.(totalSize := |x.file|));
    FailKeeps(x, p, u, 416);
    if p.Some? && (x.config.maxSize <= 0 || |x.file| <= x.config.maxSize) {
      RespondKeeps(x, p, u.Place(p.value), p.value, offset, prefix, isCompleted, headerOk, io);
    }
  }

  lemma ReadyKeeps(x: Setup, p: Option<Range>, s: Stream, fileId: int, totalSize: int, path: string, offset: int,
                   prefix: int, isCompleted: bool, headerOk: bool, io: Io)
    requires StreamOk(x, p, s) && p == Asked(x) && s.cursor.totalSize < 0 && !s.headersSent
    requires totalSize < 0 || totalSize == |x.file|
    requires Accepts(x, s, Ready(fileId, totalSize, path, offset, prefix, isCompleted, headerOk, io)) ==>
      LocalOk(x, io, if offset == 0 then prefix else 0)
    ensures StreamOk(x, p, s.OnFileReady(x, fileId, totalSize, path, offset, prefix, isCompleted, headerOk, io))
  {
    if !s.finished {
      FailKeeps(x, p, s, 500);
      if fileId > 0 && totalSize >= 0 {
        MoveKeeps(x, p, s, path);
        AdmitKeeps(x, p, s.MoveTo(path), offset, prefix, isCompleted, headerOk, io);
      }
    }
  }

  lemma AdvanceKeeps(x: Setup, p: Option<Range>, m: Stream, offset: int, prefix: int, isCompleted: bool,
                     completed: bool)
    requires StreamOk(x, p, m) && m.headersSent && m.cursor.ProgressOk(offset, prefix)
    ensures StreamOk(x, p, m.Advance(offset, prefix, isCompleted, completed))
  {
  }

  /** How far the file is there once this part of it was reported as well. */
  function EndAfter(c: Cursor, offset: int, prefix: int): int {
    if offset == 0 && prefix > c.contiguousEnd then prefix else c.contiguousEnd
  }

  lemma EndAfterIs(c: Cursor, offset: int, prefix: int, isCompleted: bool)
    requires c.ProgressOk(offset, prefix) && c.contiguousEnd <= c.totalSize
    ensures c.UpdateProgress(offset, prefix, isCompleted).contiguousEnd == EndAfter(c, offset, prefix)
  {
  }

  lemma GoOnKeeps(x: Setup, p: Option<Range>, m: Stream, offset: int, prefix: int, isCompleted: bool,
                  isActive: bool, io: Io)
    requires StreamOk(x, p, m) && m.headersSent
    requires IsPart(m.cursor.totalSize, offset, prefix) ==> LocalOk(x, io, EndAfter(m.cursor, offset, prefix))
    ensures StreamOk(x, p, m.GoOn(x, offset, prefix, isCompleted, isActive, io))
  {
    AbortKeeps(x, p, m);
    if m.cursor.ProgressOk(offset, prefix) {
      var t := m.Advance(offset, prefix, isCompleted, m.downloadCompleted || isCompleted);
      AdvanceKeeps(x, p, m, offset, prefix, isCompleted, m.downloadCompleted || isCompleted);
      EndAfterIs(m.cursor, offset, prefix, isCompleted);
      AbortKeeps(x, p, t);
      TryReadKeeps(x, p, t, io);
    }
  }

  lemma ProgressKeeps(x: Setup, p: Option<Range>, s: Stream, reportedSize: int, path: string, offset: int, prefix: int,
                      isCompleted: bool, isActive: bool, io: Io)
    requires StreamOk(x, p, s)
    requires IsPart(s.cursor.totalSize, offset, prefix) ==> LocalOk(x, io, EndAfter(s.cursor, offset, prefix))
    requires !s.finished && s.cursor.totalSize >= 0 && (reportedSize <= 0 || reportedSize == s.cursor.totalSize)
    ensures StreamOk(x, p, s.OnFileProgress(x, reportedSize, path, offset, prefix, isCompleted, isActive, io))
  {
    MoveKeeps(x, p, s, path);
    GoOnKeeps(x, p, s.MoveTo(path), offset, prefix, isCompleted, isActive, io);
  }

  /** A confirmed chunk is always committed: the cursor never refuses it. */
  lemma CommitNeverFails(x: Setup, p: Option<Range>, s: Stream)
    requires StreamOk(x, p, s) && s.writeInFlight && !s.finished
    ensures s.cursor.CommitOk(s.pendingWriteOffset, s.pendingWriteSize)
    ensures 0 <= s.cursor.startOffset && s.cursor.nextOffset + s.pendingWriteSize <= |x.file|
    ensures s.flushed + s.inFlight == x.file[s.cursor.startOffset..s.cursor.nextOffset + s.pendingWriteSize]
  {
  }

  lemma FlushedKeeps(x: Setup, p: Option<Range>, s: Stream, ok: bool, io: Io)
    requires StreamOk(x, p, s) && s.writeInFlight && LocalOk(x, io, s.cursor.contiguousEnd)
    ensures StreamOk(x, p, s.OnChunkFlushed(x, ok, io))
  {
    if !s.finished && ok {
      CommitNeverFails(x, p, s);
      var t := s.Confirm();
      assert StreamOk(x, p, t);
      TryReadKeeps(x, p, t, io);
    }
  }

  // --- events and runs ---

  datatype Event =
    | Ready(fileId: int, totalSize: int, path: string, offset: int, prefix: int, isCompleted: bool, headerOk: bool,
      io: Io)
    | Progress(reportedSize: int, path: string, offset: int, prefix: int, isCompleted: bool, isActive: bool, io: Io)
    | ChunkFlushed(ok: bool, io: Io)
    | HeadersFlushed(ok: bool)
    | FileError(code: int)
    | Timeout
    | Stop

  /** The file is reported ready once and with its true size, the prefix of it that was reported is
      right in the local file, flushes are confirmed for what was sent, and the actor stops after it
      is finished. */
  ghost predicate Enabled(x: Setup, s: Stream, e: Event) {
    match e
    case Ready(_, totalSize, _, _, _, _, _, io) =>
      && s.cursor.totalSize < 0 && !s.headersSent && (totalSize < 0 || totalSize == |x.file|)
      && LocalOk(x, io, Reported(x, s, e))
    case Progress(_, _, _, _, _, _, io) => LocalOk(x, io, Reported(x, s, e))
    case ChunkFlushed(_, io) => s.writeInFlight && LocalOk(x, io, s.reported)
    case HeadersFlushed(_) => s.headersSent
    case Stop => s.finished && !s.tornDown
    case _ => true
  }

  function Step(x: Setup, s: Stream, e: Event): Stream {
    match e
    case Ready(fileId, totalSize, path, offset, prefix, isCompleted, headerOk, io) =>
      s.OnFileReady(x, fileId, totalSize, path, offset, prefix, isCompleted, headerOk, io)
        .(reported := Reported(x, s, e))
    case Progress(reportedSize, path, offset, prefix, isCompleted, isActive, io) =>
      s.OnFileProgress(x, reportedSize, path, offset, prefix, isCompleted, isActive, io)
        .(reported := Reported(x, s, e))
    case ChunkFlushed(ok, io) => s.OnChunkFlushed(x, ok, io)
    case HeadersFlushed(ok) => s.OnHeadersFlushed(x, ok)
    case FileError(code) => s.OnFileError(code)
    case Timeout => s.OnFileError(504)
    case Stop => s.TearDown()
  }

  // --- how far the cursor says that the file is there ---

  /** What a read leaves as it is; it may end the stream, but not with an answer. */
  ghost predicate SameProgress(s: Stream, t: Stream) {
    && t.cursor == s.cursor && t.reported == s.reported && t.headersSent == s.headersSent && t.messages == s.messages
    && (t.outcome == s.outcome || !t.outcome.Failed?)
  }

  lemma EndSame(s: Stream)
    ensures SameProgress(s, s.Abort()) && SameProgress(s, s.Finish())
  {
  }

  lemma DataSame(x: Setup, s: Stream, data: seq<bv8>)
    ensures SameProgress(s, s.OnFileData(x, data))
  {
    EndSame(s);
    assert SameProgress(s, s.StartWrite(data));
  }

  lemma ChunkSame(x: Setup, s: Stream, count: int, io: Io)
    ensures SameProgress(s, s.ReadChunk(x, count, io))
  {
    var t := s.(fileOpen := true);
    EndSame(s);
    EndSame(t);
    DataSame(x, t, s.Piece(io, count));
  }

  lemma ReadSame(x: Setup, s: Stream, io: Io)
    ensures SameProgress(s, s.TryRead(x, io))
  {
    EndSame(s);
    ChunkSame(x, s, s.cursor.NextReadSize(Min(x.config.chunkSize, x.config.writeHighWatermark)), io);
  }

  lemma FailEnd(s: Stream, code: int)
    ensures s.Fail(code).cursor == s.cursor && s.Fail(code).reported == s.reported &&
      s.Fail(code).messages == s.messages
  {
  }

  lemma BeginSame(x: Setup, v: Stream, headerOk: bool, io: Io)
    ensures v.SendHeaders(headerOk).cursor == v.cursor
    ensures v.SendHeaders(headerOk).TryRead(x, io).cursor.contiguousEnd == v.cursor.contiguousEnd
  {
    ReadSame(x, v.SendHeaders(headerOk), io);
  }

  lemma RespondEnd(x: Setup, u: Stream, offset: int, prefix: int, isCompleted: bool, headerOk: bool, io: Io)
    requires 0 == u.cursor.contiguousEnd <= u.cursor.totalSize
    ensures u.Respond(x, offset, prefix, isCompleted, headerOk, io).cursor.contiguousEnd ==
      if IsPart(u.cursor.totalSize, offset, prefix) && offset == 0 then prefix else 0
  {
    if u.cursor.ProgressOk(offset, prefix) {
      EndAfterIs(u.cursor, offset, prefix, isCompleted);
      BeginSame(x, u.Advance(offset, prefix, isCompleted, isCompleted), headerOk, io);
    }
  }

  lemma AdmitEnd(x: Setup, m: Stream, totalSize: int, offset: int, prefix: int, isCompleted: bool, headerOk: bool,
                 io: Io)
    requires m.cursor.contiguousEnd == 0 <= totalSize
    ensures m.Admit(x, totalSize, offset, prefix, isCompleted, headerOk, io).cursor.contiguousEnd ==
      if (x.config.maxSize <= 0 || totalSize <= x.config.maxSize) && ParseRange(x.route.range, totalSize).Some? &&
        IsPart(totalSize, offset, prefix) && offset == 0 then prefix else 0
  {
    var range, t := ParseRange(x.route.range, totalSize), m.(cursor := m.cursor.(totalSize := totalSize));
    FailEnd(m, 413);
    FailEnd(t, 416);
    if (x.config.maxSize <= 0 || totalSize <= x.config.maxSize) && range.Some? {
      var u := t.Place(range.value);
      RespondEnd(x, u, offset, prefix, isCompleted, headerOk, io);
    }
  }

  lemma ReadyEnd(x: Setup, p: Option<Range>, s: Stream, e: Event)
    requires Inv(x, p, s) && Enabled(x, s, e) && e.Ready?
    ensures Step(x, s, e).cursor.contiguousEnd == Reported(x, s, e)
  {
    if !s.finished && 0 < e.fileId && 0 <= e.totalSize {
      AdmitEnd(x, s.MoveTo(e.path), e.totalSize, e.offset, e.prefix, e.isCompleted, e.headerOk, e.io);
    }
  }

  lemma GoOnEnd(x: Setup, m: Stream, offset: int, prefix: int, isCompleted: bool, isActive: bool, io: Io)
    requires m.cursor.contiguousEnd <= m.cursor.totalSize && 0 <= m.cursor.totalSize
    ensures m.GoOn(x, offset, prefix, isCompleted, isActive, io).cursor.contiguousEnd ==
      if IsPart(m.cursor.totalSize, offset, prefix) then EndAfter(m.cursor, offset, prefix) else m.cursor.contiguousEnd
  {
    EndSame(m);
    if m.cursor.ProgressOk(offset, prefix) {
      EndAfterIs(m.cursor, offset, prefix, isCompleted);
      var t := m.Advance(offset, prefix, isCompleted, m.downloadCompleted || isCompleted);
      EndSame(t);
      ReadSame(x, t, io);
    }
  }

  lemma ProgressEnd(x: Setup, p: Option<Range>, s: Stream, e: Event)
    requires Inv(x, p, s) && e.Progress?
    ensures Step(x, s, e).cursor.contiguousEnd == Reported(x, s, e)
  {
    EndSame(s);
    if !s.finished && s.cursor.totalSize >= 0 {
      GoOnEnd(x, s.MoveTo(e.path), e.offset, e.prefix, e.isCompleted, e.isActive, e.io);
    }
  }

  lemma FlushedEnd(x: Setup, s: Stream, ok: bool, io: Io)
    ensures var t := s.OnChunkFlushed(x, ok, io);
      t.cursor.contiguousEnd == s.cursor.contiguousEnd && t.reported == s.reported && t.messages == s.messages
  {
    EndSame(s.(writeInFlight := false));
    EndSame(s.(writeInFlight := false, pendingWriteOffset := -1, pendingWriteSize := 0));
    ReadSame(x, s.Confirm(), io);
  }

  lemma StepEnd(x: Setup, p: Option<Range>, s: Stream, e: Event)
    requires Inv(x, p, s) && Enabled(x, s, e)
    ensures Step(x, s, e).cursor.contiguousEnd == Step(x, s, e).reported == Reported(x, s, e)
  {
    if e.Ready? {
      ReadyEnd(x, p, s, e);
    } else if e.Progress? {
      ProgressEnd(x, p, s, e);
    } else if e.ChunkFlushed? {
      FlushedEnd(x, s, e.ok, e.io);
    } else {
      OtherEnd(x, s, e);
    }
  }

  lemma ErrorEnd(s: Stream, code: int)
    ensures var t := s.OnFileError(code); t.cursor == s.cursor && t.reported == s.reported && t.messages == s.messages
  {
    FailEnd(s, if 400 <= code <= 599 then code else 502);
  }

  lemma OtherEnd(x: Setup, s: Stream, e: Event)
    requires !e.Ready? && !e.Progress? && !e.ChunkFlushed?
    ensures Step(x, s, e).cursor == s.cursor && Step(x, s, e).reported == s.reported
  {
    match e
    case HeadersFlushed(ok) => EndSame(s);
    case FileError(code) => ErrorEnd(s, code);
    case Timeout => ErrorEnd(s, 504);
    case Stop =>
  }

  lemma StepKeeps(x: Setup, p: Option<Range>, s: Stream, e: Event)
    requires Inv(x, p, s) && p == Asked(x) && Enabled(x, s, e)
    ensures Inv(x, p, Step(x, s, e))
  {
    StepEnd(x, p, s, e);
    HandlerKeeps(x, p, s, e);
  }

  lemma ReportKeeps(x: Setup, p: Option<Range>, s: Stream, reported: int)
    requires StreamOk(x, p, s)
    ensures StreamOk(x, p, s.(reported := reported))
  {
  }

  lemma ReadyHandled(x: Setup, p: Option<Range>, s: Stream, e: Event)
    requires Inv(x, p, s) && p == Asked(x) && Enabled(x, s, e) && e.Ready?
    ensures StreamOk(x, p, Step(x, s, e))
  {
    ReadyKeeps(x, p, s, e.fileId, e.totalSize, e.path, e.offset, e.prefix, e.isCompleted, e.headerOk, e.io);
    ReportKeeps(x, p, s.OnFileReady(x, e.fileId, e.totalSize, e.path, e.offset, e.prefix, e.isCompleted, e.headerOk,
                                    e.io), Reported(x, s, e));
  }

  lemma ProgressHandled(x: Setup, p: Option<Range>, s: Stream, e: Event)
    requires Inv(x, p, s) && Enabled(x, s, e) && e.Progress?
    ensures StreamOk(x, p, Step(x, s, e))
  {
    var t := s.OnFileProgress(x, e.reportedSize, e.path, e.offset, e.prefix, e.isCompleted, e.isActive, e.io);
    if !s.finished && s.cursor.totalSize >= 0 && (e.reportedSize <= 0 || e.reportedSize == s.cursor.totalSize) {
      if IsPart(s.cursor.totalSize, e.offset, e.prefix) {
        EndReported(x, s, e);
      }
      ProgressKeeps(x, p, s, e.reportedSize, e.path, e.offset, e.prefix, e.isCompleted, e.isActive, e.io);
    } else {
      AbortKeeps(x, p, s);
    }
    ReportKeeps(x, p, t, Reported(x, s, e));
  }

  lemma EndReported(x: Setup, s: Stream, e: Event)
    requires e.Progress? && !s.finished && s.cursor.totalSize >= 0 && s.reported == s.cursor.contiguousEnd
    requires e.reportedSize <= 0 || e.reportedSize == s.cursor.totalSize
    requires IsPart(s.cursor.totalSize, e.offset, e.prefix)
    ensures Reported(x, s, e) == EndAfter(s.cursor, e.offset, e.prefix)
  {
  }

  lemma HandlerKeeps(x: Setup, p: Option<Range>, s: Stream, e: Event)
    requires Inv(x, p, s) && p == Asked(x) && Enabled(x, s, e)
    ensures StreamOk(x, p, Step(x, s, e))
  {
    match e
    case Ready(_, _, _, _, _, _, _, _) => ReadyHandled(x, p, s, e);
    case Progress(_, _, _, _, _, _, _) => ProgressHandled(x, p, s, e);
    case ChunkFlushed(ok, io) => FlushedKeeps(x, p, s, ok, io);
    case HeadersFlushed(ok) =>
    case FileError(code) =>
    case Timeout =>
    case Stop => EndedPaired(s.messages, s.localPath);
  }

  ghost predicate Possible(x: Setup, s: Stream, es: seq<Event>)
    decreases |es|
  {
    es == [] || (Enabled(x, s, es[0]) && Possible(x, Step(x, s, es[0]), es[1..]))
  }

  function Run(x: Setup, s: Stream, es: seq<Event>): Stream
    decreases |es|
  {
    if es == [] then s else Run(x, Step(x, s, es[0]), es[1..])
  }

  lemma {:induction false} RunKeeps(x: Setup, p: Option<Range>, s: Stream, es: seq<Event>)
    requires Inv(x, p, s) && p == Asked(x) && Possible(x, s, es)
    ensures Inv(x, p, Run(x, s, es))
    decreases |es|
  {
    if es != [] {
      StepKeeps(x, p, s, es[0]);
      RunKeeps(x, p, Step(x, s, es[0]), es[1..]);
    }
  }

  // --- what holds in every run ---

  lemma BodyIs(x: Setup, r: Range)
    requires Asked(x) == Some(r)
    ensures 0 <= r.start <= r.end + 1 <= |x.file| && Body(x.file, x.route.range) == Some(x.file[r.start..r.end + 1])
  {
    AcceptedInside(x.route.range, |x.file|);
    if r.isPartial {
      PartBody(x.file, x.route.range, r, x.file[r.start..r.end + 1]);
    } else {
      BodyWhole(x.file, x.route.range, r);
      assert x.file[0..|x.file|] == x.file;
    }
  }

  ghost predicate IsBodySoFar(s: Stream, body: Option<seq<bv8>>) {
    && (s.flushed != [] ==> body.Some? && s.flushed <= body.value)
    && (s.headersSent ==> body.Some? && |s.flushed| <= s.contentLength == |body.value|)
    && (s.outcome == Completed ==> body == Some(s.flushed) && |s.flushed| == s.contentLength)
    && (s.completedOk <==> s.outcome == Completed)
  }

  lemma InvBody(x: Setup, p: Option<Range>, s: Stream, body: Option<seq<bv8>>)
    requires StreamOk(x, p, s)
    requires p.Some? ==>
      && 0 <= p.value.start <= p.value.end + 1 <= |x.file|
      && body == Some(x.file[p.value.start..p.value.end + 1])
    ensures IsBodySoFar(s, body)
  {
  }

  /** The event is accepted progress of the beginning of the file. */
  predicate ReportsAt(x: Setup, es: seq<Event>, n: nat)
    requires n < |es|
  {
    Accepts(x, After(x, es, n), es[n]) && es[n].offset == 0
  }

  /** The prefix reported there, 0 if none is. */
  function ReportAt(x: Setup, es: seq<Event>, n: nat): int
    requires n < |es|
  {
    if ReportsAt(x, es, n) then es[n].prefix else 0
  }

  /** The largest of the first k numbers, or 0. */
  ghost predicate Largest(rs: seq<int>, k: nat, end: int)
    requires k <= |rs|
  {
    (forall n | 0 <= n < k :: rs[n] <= end) && (end == 0 || exists n :: 0 <= n < k && rs[n] == end)
  }

  lemma OneMore(rs: seq<int>, k: nat, end: int)
    requires k < |rs| && Largest(rs, k, end) && 0 <= end
    ensures Largest(rs, k + 1, if rs[k] > end then rs[k] else end)
  {
    if rs[k] > end {
      assert rs[k] == rs[k];
    } else if end != 0 {
      var n :| 0 <= n < k && rs[n] == end;
      assert n < k + 1;
    }
  }

  lemma ReachesNext(x: Setup, es: seq<Event>, k: nat)
    requires Possible(x, Fresh(), es) && k < |es|
    ensures var end := After(x, es, k).cursor.contiguousEnd; var report := ReportAt(x, es, k);
      0 <= end && After(x, es, k + 1).cursor.contiguousEnd == if report > end then report else end
  {
    RunNext(x, Fresh(), es, k);
    RunKeeps(x, Asked(x), Fresh(), es[..k]);
    StepEnd(x, Asked(x), After(x, es, k), es[k]);
  }

  lemma {:induction false} LargestAt(rs: seq<int>, ends: seq<int>, k: nat)
    requires k <= |rs| < |ends| && ends[0] == 0
    requires forall n | 0 <= n < |rs| :: 0 <= ends[n] && ends[n + 1] == if rs[n] > ends[n] then rs[n] else ends[n]
    ensures Largest(rs, k, ends[k])
  {
    if k > 0 {
      LargestAt(rs, ends, k - 1);
      assert 0 <= ends[k - 1] && ends[k - 1 + 1] == if rs[k - 1] > ends[k - 1] then rs[k - 1] else ends[k - 1];
      OneMore(rs, k - 1, ends[k - 1]);
    }
  }

  lemma ReachesLargest(x: Setup, es: seq<Event>, rs: seq<int>)
    requires Possible(x, Fresh(), es) && |rs| == |es| && forall n | 0 <= n < |rs| :: rs[n] == ReportAt(x, es, n)
    ensures Largest(rs, |rs|, Run(x, Fresh(), es).cursor.contiguousEnd)
  {
    var ends := seq(|es| + 1, n requires 0 <= n <= |es| => After(x, es, n).cursor.contiguousEnd);
    forall n | 0 <= n < |rs|
      ensures 0 <= ends[n] && ends[n + 1] == if rs[n] > ends[n] then rs[n] else ends[n]
    {
      ReachesNext(x, es, n);
    }
    LargestAt(rs, ends, |rs|);
    assert es[..|es|] == es && es[..0] == [];
  }

  /** In every run the file counts as downloaded exactly up to the largest prefix that was reported
      and accepted. */
  lemma DownloadedIs(x: Setup, es: seq<Event>)
    requires Possible(x, Fresh(), es)
    ensures var end := Run(x, Fresh(), es).cursor.contiguousEnd;
      && (forall n | 0 <= n < |es| && ReportsAt(x, es, n) :: es[n].prefix <= end)
      && (end == 0 || exists n :: 0 <= n < |es| && ReportsAt(x, es, n) && es[n].prefix == end)
  {
    var rs := seq(|es|, n requires 0 <= n < |es| => ReportAt(x, es, n));
    ReachesLargest(x, es, rs);
    var end := Run(x, Fresh(), es).cursor.contiguousEnd;
    forall n | 0 <= n < |es| && ReportsAt(x, es, n) ensures es[n].prefix <= end {
      assert rs[n] == es[n].prefix;
    }
    if end != 0 {
      var n :| 0 <= n < |es| && rs[n] == end;
      assert ReportsAt(x, es, n) && es[n].prefix == end;
    }
  }

  /** A read that puts bytes on their way takes as many as the chunk size, the watermark, the range
      and the download allow. */
  lemma TakesMost(x: Setup, p: Option<Range>, s: Stream, io: Io)
    requires Inv(x, p, s) && s.headersSent && !s.writeInFlight && s.TryRead(x, io).writeInFlight
    requires LocalOk(x, io, s.reported)
    ensures var n := |s.TryRead(x, io).inFlight|;
      && 0 < n <= x.config.chunkSize && n <= x.config.writeHighWatermark
      && s.cursor.nextOffset + n <= s.cursor.endOffset + 1 && s.cursor.nextOffset + n <= s.cursor.contiguousEnd
      && (n == x.config.chunkSize || n == x.config.writeHighWatermark
          || s.cursor.nextOffset + n == s.cursor.endOffset + 1 || s.cursor.nextOffset + n == s.cursor.contiguousEnd)
  {
    CountFits(x, p, s);
    TryReadKeeps(x, p, s, io);
  }

  /** An error before the headers is answered with its code if that is one of an error, else with
      502, and a timeout with 504; after the headers the stream breaks off. */
  lemma ErrorAnswers(x: Setup, s: Stream, code: int)
    requires !s.finished
    ensures var t := Step(x, s, FileError(code)).outcome; var late := Step(x, s, Timeout).outcome;
      if s.headersSent then t == late == Aborted
      else t == Failed(if 400 <= code <= 599 then code else 502) && late == Failed(504)
  {
  }

  /** A read at this point fails for good: the download is complete and the file cannot be opened or
      is too short, or it cannot be read at all. */
  predicate ReadBreaks(x: Setup, t: Stream, io: Io) {
    var count := t.cursor.NextReadSize(Min(x.config.chunkSize, x.config.writeHighWatermark));
    && !t.cursor.IsComplete() && count > 0 && t.localPath != ""
    && if !t.fileOpen && !io.opens then t.downloadCompleted
       else io.fault || (t.cursor.nextOffset + count > |io.local| && t.downloadCompleted)
  }

  /** The progress is not of the file, ends too early, or is followed by a read that fails. */
  predicate GoOnBreaks(x: Setup, m: Stream, e: Event)
    requires e.Progress?
  {
    var t := m.Advance(e.offset, e.prefix, e.isCompleted, m.downloadCompleted || e.isCompleted);
    || !IsPart(|x.file|, e.offset, e.prefix)
    || (if t.downloadCompleted then EndAfter(m.cursor, e.offset, e.prefix) < |x.file| else !e.isActive)
    || (!m.writeInFlight && ReadBreaks(x, t, e.io))
  }

  /** What breaks off a response: a flush or the origin fails, a timeout, progress that contradicts
      itself, that ends before the file is complete, or that calls an incomplete file complete, and a
      read that fails. */
  predicate Breaks(x: Setup, s: Stream, e: Event) {
    match e
    case ChunkFlushed(ok, io) => !ok || ReadBreaks(x, s.Confirm(), io)
    case HeadersFlushed(ok) => !ok
    case Progress(reportedSize, path, _, _, _, _, _) =>
      (reportedSize > 0 && reportedSize != |x.file|) || GoOnBreaks(x, s.MoveTo(path), e)
    case _ => true
  }

  lemma ReadAborts(x: Setup, p: Option<Range>, t: Stream, io: Io)
    requires StreamOk(x, p, t) && t.headersSent && !t.finished && !t.writeInFlight
    ensures t.TryRead(x, io).outcome == Aborted <==> ReadBreaks(x, t, io)
  {
    CountFits(x, p, t);
  }

  lemma ChunkAborts(x: Setup, p: Option<Range>, s: Stream, ok: bool, io: Io)
    requires Inv(x, p, s) && s.headersSent && !s.finished && s.writeInFlight
    ensures s.OnChunkFlushed(x, ok, io).outcome == Aborted <==> !ok || ReadBreaks(x, s.Confirm(), io)
  {
    CommitNeverFails(x, p, s);
    if ok {
      assert StreamOk(x, p, s.Confirm());
      ReadAborts(x, p, s.Confirm(), io);
    }
  }

  lemma GoOnAborts(x: Setup, p: Option<Range>, m: Stream, offset: int, prefix: int, isCompleted: bool, isActive: bool,
                   io: Io)
    requires StreamOk(x, p, m) && m.headersSent && !m.finished
    ensures var t := m.Advance(offset, prefix, isCompleted, m.downloadCompleted || isCompleted);
      m.GoOn(x, offset, prefix, isCompleted, isActive, io).outcome == Aborted <==>
      || !IsPart(|x.file|, offset, prefix)
      || (if t.downloadCompleted then EndAfter(m.cursor, offset, prefix) < |x.file| else !isActive)
      || (!m.writeInFlight && ReadBreaks(x, t, io))
  {
    if m.cursor.ProgressOk(offset, prefix) {
      var t := m.Advance(offset, prefix, isCompleted, m.downloadCompleted || isCompleted);
      AdvanceKeeps(x, p, m, offset, prefix, isCompleted, m.downloadCompleted || isCompleted);
      EndAfterIs(m.cursor, offset, prefix, isCompleted);
      if !m.writeInFlight {
        ReadAborts(x, p, t, io);
      }
    }
  }

  lemma MovedAborts(x: Setup, p: Option<Range>, s: Stream, e: Event, m: Stream)
    requires Inv(x, p, s) && e.Progress? && s.headersSent && !s.finished && m == s.MoveTo(e.path)
    ensures m.GoOn(x, e.offset, e.prefix, e.isCompleted, e.isActive, e.io).outcome == Aborted <==> GoOnBreaks(x, m, e)
  {
    MoveKeeps(x, p, s, e.path);
    GoOnAborts(x, p, m, e.offset, e.prefix, e.isCompleted, e.isActive, e.io);
  }

  lemma ProgressAborts(x: Setup, p: Option<Range>, s: Stream, e: Event)
    requires Inv(x, p, s) && e.Progress? && s.headersSent && !s.finished
    ensures Step(x, s, e).outcome == Aborted <==> Breaks(x, s, e)
  {
    ProgressIs(x, s, e);
    MovedAborts(x, p, s, e, s.MoveTo(e.path));
  }

  lemma ProgressIs(x: Setup, s: Stream, e: Event)
    requires e.Progress? && !s.finished && s.cursor.totalSize >= 0
    ensures Step(x, s, e).outcome ==
      if e.reportedSize > 0 && e.reportedSize != s.cursor.totalSize then Aborted
      else s.MoveTo(e.path).GoOn(x, e.offset, e.prefix, e.isCompleted, e.isActive, e.io).outcome
  {
  }

  /** A response that has begun breaks off exactly for one of these reasons. */
  lemma BreaksOffIff(x: Setup, p: Option<Range>, s: Stream, e: Event)
    requires Inv(x, p, s) && Enabled(x, s, e) && s.headersSent && !s.finished
    ensures Step(x, s, e).outcome == Aborted <==> Breaks(x, s, e)
  {
    if e.Progress? {
      ProgressAborts(x, p, s, e);
    } else if e.ChunkFlushed? {
      ChunkAborts(x, p, s, e.ok, e.io);
    }
  }

  /** Whatever happens, the confirmed bytes are the beginning of the body that the request asks
      for, and a clean finish means all of it: exactly the announced length. They were read from a
      local file of which only the part that was reported is known to be right. */
  lemma BodyIsExact(x: Setup, es: seq<Event>)
    requires Possible(x, Fresh(), es)
    ensures IsBodySoFar(Run(x, Fresh(), es), Body(x.file, x.route.range))
  {
    var p := Asked(x);
    RunKeeps(x, p, Fresh(), es);
    if p.Some? {
      BodyIs(x, p.value);
    }
    InvBody(x, p, Run(x, Fresh(), es), Body(x.file, x.route.range));
  }

  /** The local copy is deleted only after a complete delivery, and every file that the stream
      retained is released by its end, in pairs. */
  lemma CleanEnd(x: Setup, es: seq<Event>)
    requires Possible(x, Fresh(), es)
    ensures var s := Run(x, Fresh(), es);
      && (s.DeletesCopy(x) <==> x.route.noCache && s.outcome == Completed)
      && (s.DeletesCopy(x) ==> Body(x.file, x.route.range) == Some(s.flushed))
      && Paired(s.messages) && (s.tornDown ==> Held(s.messages) == "")
  {
    BodyIsExact(x, es);
    RunKeeps(x, Asked(x), Fresh(), es);
  }

  /** A finished stream does nothing more: only a late confirmation is noted and the end released. */
  lemma FinishedStays(x: Setup, s: Stream, e: Event)
    requires s.finished && Enabled(x, s, e)
    ensures Step(x, s, e) == match e
      case ChunkFlushed(_, _) => s.(writeInFlight := false)
      case Stop => s.TearDown()
      case _ => s
  {
  }

  /** The answer to a fresh request, whatever is said about the file: 416 exactly when the range
      parser refuses it, the other codes exactly when something else is wrong, and headers otherwise. */
  lemma AnswersIff(x: Setup, e: Event)
    requires e.Ready?
    ensures var s := Step(x, Fresh(), e); var known := 0 < e.fileId && 0 <= e.totalSize;
      var small := x.config.maxSize <= 0 || e.totalSize <= x.config.maxSize;
      var ranged := ParseRange(x.route.range, e.totalSize).Some?;
      var part := 0 <= e.offset && 0 <= e.prefix && e.offset + e.prefix <= e.totalSize;
      var lacking := e.isCompleted && (if e.offset == 0 then e.prefix else 0) < e.totalSize;
      && (s.outcome == Failed(413) <==> known && !small)
      && (s.outcome == Failed(416) <==> known && small && !ranged)
      && (s.outcome == Failed(502) <==> known && small && ranged && (!part || lacking))
      && (s.outcome == Failed(500) <==> !known || (small && ranged && part && !lacking && !e.headerOk))
      && (s.headersSent <==> known && small && ranged && part && !lacking && e.headerOk)
      && (s.headersSent <==> !s.outcome.Failed?)
  {
    var range := ParseRange(x.route.range, e.totalSize);
    var m := Fresh().MoveTo(e.path);
    if range.Some? {
      var u := m.(cursor := m.cursor.(totalSize := e.totalSize)).Place(range.value);
      RespondAnswers(x, u, e.offset, e.prefix, e.isCompleted, e.headerOk, e.io);
    }
  }

  /** Given sound metadata and a file within the size limit, the answer is 416 exactly when the range
      parser refuses the range. */
  lemma RangeRefusedIff(x: Setup, e: Event)
    requires e.Ready? && e.fileId > 0 && e.totalSize == |x.file|
    requires x.config.maxSize <= 0 || |x.file| <= x.config.maxSize
    ensures Step(x, Fresh(), e).outcome == Failed(416) <==> Asked(x) == None
  {
    AnswersIff(x, e);
  }

  lemma RespondAnswers(x: Setup, u: Stream, offset: int, prefix: int, isCompleted: bool, headerOk: bool, io: Io)
    requires !u.finished && !u.headersSent && u.outcome == Running && 0 == u.cursor.contiguousEnd <= u.cursor.totalSize
    ensures var s := u.Respond(x, offset, prefix, isCompleted, headerOk, io);
      var lacking := isCompleted && (if offset == 0 then prefix else 0) < u.cursor.totalSize;
      if !IsPart(u.cursor.totalSize, offset, prefix) || lacking then s.outcome == Failed(502) && !s.headersSent
      else if !headerOk then s.outcome == Failed(500) && !s.headersSent
      else !s.outcome.Failed? && s.headersSent
  {
    if u.cursor.ProgressOk(offset, prefix) {
      LackingIff(u, offset, prefix, isCompleted);
      var v := u.Advance(offset, prefix, isCompleted, isCompleted);
      if !v.Incomplete() {
        BeginAnswers(x, v, headerOk, io);
      }
    }
  }

  lemma LackingIff(u: Stream, offset: int, prefix: int, isCompleted: bool)
    requires 0 == u.cursor.contiguousEnd <= u.cursor.totalSize && u.cursor.ProgressOk(offset, prefix)
    ensures u.Advance(offset, prefix, isCompleted, isCompleted).Incomplete() <==>
      isCompleted && (if offset == 0 then prefix else 0) < u.cursor.totalSize
  {
    EndAfterIs(u.cursor, offset, prefix, isCompleted);
  }

  lemma BeginAnswers(x: Setup, v: Stream, headerOk: bool, io: Io)
    requires !v.finished && !v.headersSent && v.outcome == Running
    ensures var s := v.SendHeaders(headerOk);
      if headerOk then
        s.headersSent && !s.outcome.Failed? && !s.TryRead(x, io).outcome.Failed? && s.TryRead(x, io).headersSent
      else
        s.outcome == Failed(500) && !s.headersSent && s.TryRead(x, io) == s
  {
    if headerOk {
      ReadSame(x, v.SendHeaders(true), io);
    }
  }

  // --- a download that is complete is delivered ---

  /** A read of a local file that is complete. */
  function Good(x: Setup): Io { Io(true, false, x.file) }

  /** A chunk is confirmed and the next read succeeds. */
  function Confirms(x: Setup): Stream -> Stream {
    (s: Stream) => s.OnChunkFlushed(x, true, Good(x))
  }

  /** The stream after n such steps. */
  function Drain(next: Stream -> Stream, s: Stream, n: nat): Stream
    decreases n
  {
    if n == 0 || s.finished then s else Drain(next, next(s), n - 1)
  }

  ghost predicate Draining(x: Setup, s: Stream) {
    && !s.finished && s.headersSent && s.writeInFlight && s.localPath != "" && s.cursor.contiguousEnd == |x.file|
    && 0 < Min(x.config.chunkSize, x.config.writeHighWatermark)
  }

  /** What draining relies on and keeps. */
  ghost predicate DrainOk(x: Setup, s: Stream) {
    Draining(x, s) && CursorOk(x, s.cursor) && OnItsWay(x, s)
  }

  lemma DrainRead(x: Setup, t: Stream)
    requires !t.finished && t.headersSent && !t.writeInFlight && t.localPath != "" && CursorOk(x, t.cursor)
    requires t.cursor.contiguousEnd == |x.file| && 0 < Min(x.config.chunkSize, x.config.writeHighWatermark)
    requires |x.file| > 0
    ensures var u := t.TryRead(x, Good(x));
      if t.cursor.nextOffset == t.cursor.endOffset + 1 then u.finished && u.outcome == Completed
      else DrainOk(x, u) && u.cursor == t.cursor
  {
    var count := t.cursor.NextReadSize(Min(x.config.chunkSize, x.config.writeHighWatermark));
    if t.cursor.nextOffset != t.cursor.endOffset + 1 {
      SamePiece(x.file, x.file, t.cursor.nextOffset, count);
    }
  }

  lemma DrainStep(x: Setup, s: Stream)
    requires DrainOk(x, s)
    ensures Drained(x, s, s.OnChunkFlushed(x, true, Good(x)))
  {
    DrainRead(x, s.Confirm());
  }

  /** The stream is done or has come closer to it. */
  ghost predicate Drained(x: Setup, s: Stream, t: Stream) {
    if t.finished then t.outcome == Completed
    else DrainOk(x, t) && s.cursor.nextOffset < t.cursor.nextOffset && t.cursor.endOffset == s.cursor.endOffset
  }

  lemma {:induction false} DrainsFrom(x: Setup, next: Stream -> Stream, s: Stream, n: nat)
    requires forall u | DrainOk(x, u) :: Drained(x, u, next(u))
    requires DrainOk(x, s) && s.cursor.endOffset + 1 - s.cursor.nextOffset <= n
    ensures Drain(next, s, n).outcome == Completed
    decreases n
  {
    assert Drained(x, s, next(s));
    if !next(s).finished {
      DrainsFrom(x, next, next(s), n - 1);
    }
  }

  /** With the whole file downloaded and a chunk on its way, the stream completes after at most as
      many confirmations as there are bytes left. */
  lemma Drains(x: Setup, p: Option<Range>, s: Stream, n: nat)
    requires Inv(x, p, s) && Draining(x, s) && s.cursor.endOffset + 1 - s.cursor.nextOffset <= n
    ensures Drain(Confirms(x), s, n).outcome == Completed
  {
    forall u | DrainOk(x, u) ensures Drained(x, u, Confirms(x)(u)) {
      DrainStep(x, u);
    }
    DrainsFrom(x, Confirms(x), s, n);
  }

  // --- HEAD ---

  /** When a read puts body bytes on their way. Nothing here asks for the method. */
  lemma QueuesIff(x: Setup, p: Option<Range>, s: Stream, io: Io)
    requires StreamOk(x, p, s) && s.headersSent && !s.finished && !s.writeInFlight
    ensures s.TryRead(x, io).writeInFlight <==> Queues(x, s, io)
  {
    CountFits(x, p, s);
  }

  /** Something is left to read, there is a file to read it from, and it is all there. */
  predicate Queues(x: Setup, s: Stream, io: Io) {
    var count := s.cursor.NextReadSize(Min(x.config.chunkSize, x.config.writeHighWatermark));
    && !s.cursor.IsComplete() && count > 0
    && s.localPath != "" && (s.fileOpen || io.opens) && !io.fault && s.cursor.nextOffset + count <= |io.local|
  }

  /** Progress that the handler accepts, after which there is something to read. */
  predicate LetsRead(x: Setup, s: Stream, e: Event) {
    && e.Progress? && !s.finished && s.cursor.totalSize >= 0
    && (e.reportedSize <= 0 || e.reportedSize == s.cursor.totalSize)
    && s.cursor.ProgressOk(e.offset, e.prefix)
    && (s.downloadCompleted || e.isCompleted || e.isActive)
    && var t := s.MoveTo(e.path).Advance(e.offset, e.prefix, e.isCompleted, s.downloadCompleted || e.isCompleted);
       !t.Incomplete() && Queues(x, t, e.io)
  }

  lemma GoOnQueuesIff(x: Setup, p: Option<Range>, m: Stream, offset: int, prefix: int, isCompleted: bool,
                      isActive: bool, io: Io)
    requires StreamOk(x, p, m) && m.headersSent && !m.finished && !m.writeInFlight
    ensures var t := m.Advance(offset, prefix, isCompleted, m.downloadCompleted || isCompleted);
      m.GoOn(x, offset, prefix, isCompleted, isActive, io).writeInFlight <==>
      m.cursor.ProgressOk(offset, prefix) && (t.downloadCompleted || isActive) && !t.Incomplete() && Queues(x, t, io)
  {
    if m.cursor.ProgressOk(offset, prefix) {
      AdvanceKeeps(x, p, m, offset, prefix, isCompleted, m.downloadCompleted || isCompleted);
      QueuesIff(x, p, m.Advance(offset, prefix, isCompleted, m.downloadCompleted || isCompleted), io);
    }
  }

  lemma ProgressQueuesIff(x: Setup, p: Option<Range>, s: Stream, e: Event)
    requires StreamOk(x, p, s) && !s.writeInFlight && e.Progress?
    ensures Step(x, s, e).writeInFlight <==> LetsRead(x, s, e)
  {
    if !s.finished && s.cursor.totalSize >= 0 {
      MoveKeeps(x, p, s, e.path);
      GoOnQueuesIff(x, p, s.MoveTo(e.path), e.offset, e.prefix, e.isCompleted, e.isActive, e.io);
    }
  }

  lemma BeginQuiet(v: Stream, code: int, headerOk: bool)
    requires !v.writeInFlight
    ensures !v.Fail(code).writeInFlight && !v.SendHeaders(headerOk).writeInFlight
  {
  }

  lemma RespondQuiet(x: Setup, u: Stream, offset: int, prefix: int, isCompleted: bool, headerOk: bool, io: Io)
    requires x.route.headOnly && !u.writeInFlight
    ensures !u.Respond(x, offset, prefix, isCompleted, headerOk, io).writeInFlight
  {
    BeginQuiet(u, 502, headerOk);
    BeginQuiet(u.Advance(offset, prefix, isCompleted, isCompleted), 502, headerOk);
  }

  lemma AdmitQuiet(x: Setup, m: Stream, totalSize: int, offset: int, prefix: int, isCompleted: bool, headerOk: bool,
                   io: Io)
    requires x.route.headOnly && !m.writeInFlight
    ensures !m.Admit(x, totalSize, offset, prefix, isCompleted, headerOk, io).writeInFlight
  {
    var range := ParseRange(x.route.range, totalSize);
    if range.Some? {
      var u := m.(cursor := m.cursor.(totalSize := totalSize)).Place(range.value);
      RespondQuiet(x, u, offset, prefix, isCompleted, headerOk, io);
    }
  }

  /** The answer to a HEAD request begins without a body. */
  lemma ReadyQuiet(x: Setup, s: Stream, e: Event)
    requires x.route.headOnly && !s.writeInFlight && e.Ready?
    ensures !Step(x, s, e).writeInFlight
  {
    AdmitQuiet(x, s.MoveTo(e.path), e.totalSize, e.offset, e.prefix, e.isCompleted, e.headerOk, e.io);
  }

  /** One event puts body bytes on their way to a HEAD request exactly if it is such progress. */
  lemma HeadStepIff(x: Setup, p: Option<Range>, s: Stream, e: Event)
    requires x.route.headOnly && StreamOk(x, p, s) && !s.writeInFlight && Enabled(x, s, e)
    ensures Step(x, s, e).writeInFlight <==> LetsRead(x, s, e)
  {
    if e.Ready? {
      ReadyQuiet(x, s, e);
    } else if e.Progress? {
      ProgressQueuesIff(x, p, s, e);
    }
  }

  lemma {:induction false} RunNext(x: Setup, s: Stream, es: seq<Event>, n: nat)
    requires Possible(x, s, es) && n < |es|
    ensures Possible(x, s, es[..n]) && Enabled(x, Run(x, s, es[..n]), es[n])
    ensures Run(x, s, es[..n + 1]) == Step(x, Run(x, s, es[..n]), es[n])
    decreases n
  {
    if n == 0 {
      assert es[..1][0] == es[0] && es[..1][1..] == [];
    } else {
      RunNext(x, Step(x, s, es[0]), es[1..], n - 1);
      assert es[..n][1..] == es[1..][..n - 1] && es[..n + 1][1..] == es[1..][..n];
    }
  }

  /** The state after the first n events. */
  function After(x: Setup, es: seq<Event>, n: nat): Stream
    requires n <= |es|
  {
    Run(x, Fresh(), es[..n])
  }

  predicate LetsReadAt(x: Setup, es: seq<Event>, n: nat)
    requires n < |es|
  {
    LetsRead(x, After(x, es, n), es[n])
  }

  lemma AfterNext(x: Setup, es: seq<Event>, n: nat)
    requires x.route.headOnly && Possible(x, Fresh(), es) && n < |es|
    ensures !After(x, es, n).writeInFlight ==> (After(x, es, n + 1).writeInFlight <==> LetsReadAt(x, es, n))
  {
    RunNext(x, Fresh(), es, n);
    RunKeeps(x, Asked(x), Fresh(), es[..n]);
    if !After(x, es, n).writeInFlight {
      HeadStepIff(x, Asked(x), After(x, es, n), es[n]);
    }
  }

  /** No body bytes are on their way after any of the first n events. */
  ghost predicate QuietFor(x: Setup, es: seq<Event>, n: nat)
    requires n <= |es|
  {
    forall i | 0 <= i <= n :: !After(x, es, i).writeInFlight
  }

  lemma {:induction false} HeadQuietFor(x: Setup, es: seq<Event>, n: nat)
    requires x.route.headOnly && Possible(x, Fresh(), es) && n <= |es|
    ensures QuietFor(x, es, n) <==> forall i | 0 <= i < n :: !LetsReadAt(x, es, i)
  {
    if n > 0 {
      HeadQuietFor(x, es, n - 1);
      AfterNext(x, es, n - 1);
      QuietLonger(x, es, n);
    } else {
      assert es[..0] == [];
    }
  }

  lemma QuietLonger(x: Setup, es: seq<Event>, n: nat)
    requires 0 < n <= |es|
    ensures QuietFor(x, es, n) <==> QuietFor(x, es, n - 1) && !After(x, es, n).writeInFlight
  {
  }

  /** In any run that answers a HEAD request, no body bytes are ever on their way if and only if no
      event is progress that lets the stream read. */
  lemma HeadQuietIff(x: Setup, es: seq<Event>)
    requires x.route.headOnly && Possible(x, Fresh(), es)
    ensures QuietFor(x, es, |es|) <==> forall i | 0 <= i < |es| :: !LetsReadAt(x, es, i)
  {
    HeadQuietFor(x, es, |es|);
  }

  lemma {:induction false} FlushEnds(x: Setup, es: seq<Event>, m: nat, n: nat)
    requires x.route.headOnly && Possible(x, Fresh(), es) && m < n <= |es| && es[m].HeadersFlushed?
    ensures After(x, es, n).finished
  {
    if m < n - 1 {
      FlushEnds(x, es, m, n - 1);
    }
    RunNext(x, Fresh(), es, n - 1);
    FlushFinishes(x, After(x, es, n - 1), es[n - 1]);
  }

  /** A HEAD request is done once its headers are flushed. */
  lemma FlushFinishes(x: Setup, s: Stream, e: Event)
    requires x.route.headOnly && Enabled(x, s, e) && (s.finished || e.HeadersFlushed?)
    ensures Step(x, s, e).finished
  {
    if s.finished {
      FinishedStays(x, s, e);
    }
  }

  /** In particular none are when all progress comes after the headers were flushed. */
  lemma HeadQuietAfterFlush(x: Setup, es: seq<Event>)
    requires x.route.headOnly && Possible(x, Fresh(), es)
    requires forall n | 0 <= n < |es| && es[n].Progress? :: exists m | 0 <= m < n :: es[m].HeadersFlushed?
    ensures QuietFor(x, es, |es|)
  {
    forall n | 0 <= n < |es| ensures !LetsReadAt(x, es, n) {
      if es[n].Progress? {
        var m :| 0 <= m < n && es[m].HeadersFlushed?;
        FlushEnds(x, es, m, n);
      }
    }
    HeadQuietIff(x, es);
  }

  ghost predicate SendsBodyOnHead(x: Setup, es: seq<Event>) {
    && x.route.headOnly && Possible(x, Fresh(), es)
    && Run(x, Fresh(), es).writeInFlight && Run(x, Fresh(), es).inFlight != []
  }

  /** Progress that is reported before the headers are flushed may send body bytes after all. */
  lemma HeadMaySendBody()
    ensures exists x: Setup, es: seq<Event> :: SendsBodyOnHead(x, es)
  {
    var x := Setup([1], Config(1, 1, 0), Route("", true, false));
    var ready := Ready(1, 1, "f", 0, 0, false, true, Good(x));
    var progress := Progress(1, "f", 0, 1, true, false, Good(x));
    var s := Step(x, Fresh(), ready);
    assert Moved("", "f") == [Retain("f")] && Trim("") == "";
    assert s.headersSent && !s.finished && s.cursor == Cursor(1, 0, 0, 0, 0) && s.localPath == "f" && !s.writeInFlight;
    var t := Step(x, s, progress);
    assert t.writeInFlight && t.inFlight == [1];
    var es := [ready, progress];
    assert es[1..] == [progress] && es[1..][1..] == [];
    assert Run(x, t, []) == t && Run(x, s, es[1..]) == t && Run(x, Fresh(), es) == t;
    assert Possible(x, t, []) && Possible(x, s, es[1..]) && Possible(x, Fresh(), es);
    assert SendsBodyOnHead(x, es);
  }
}
