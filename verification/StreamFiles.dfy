/** The streams and the cleanup manager together: any number of streams that handle their events,
    their messages on the way to the manager, and the counts that it keeps. */
module StreamFiles {
  import opened ByteRange
  import opened Common
  import opened PathMessages
  import FileStream
  import opened WorkdirCleanup

  // --- a stream only adds to its messages ---

  ghost predicate SameMessages(s: FileStream.Stream, t: FileStream.Stream) {
    t.messages == s.messages
  }

  lemma EndSays(s: FileStream.Stream, code: int)
    ensures SameMessages(s, s.Abort()) && SameMessages(s, s.Fail(code)) && SameMessages(s, s.Finish())
  {
  }

  lemma BeginSays(x: FileStream.Setup, s: FileStream.Stream, headerOk: bool, io: FileStream.Io)
    ensures SameMessages(s, s.SendHeaders(headerOk)) && SameMessages(s, s.SendHeaders(headerOk).TryRead(x, io))
  {
    FileStream.ReadSame(x, s.SendHeaders(headerOk), io);
  }

  lemma RespondSays(x: FileStream.Setup, s: FileStream.Stream, offset: int, prefix: int, isCompleted: bool,
                    headerOk: bool, io: FileStream.Io)
    ensures SameMessages(s, s.Respond(x, offset, prefix, isCompleted, headerOk, io))
  {
    BeginSays(x, s.Advance(offset, prefix, isCompleted, isCompleted), headerOk, io);
  }

  lemma AdmitSays(x: FileStream.Setup, s: FileStream.Stream, totalSize: int, offset: int, prefix: int,
                  isCompleted: bool, headerOk: bool, io: FileStream.Io)
    ensures SameMessages(s, s.Admit(x, totalSize, offset, prefix, isCompleted, headerOk, io))
  {
    EndSays(s, 413);
    var range := ParseRange(x.route.range, totalSize);
    EndSays(s.(cursor := s.cursor.(totalSize := totalSize)), 416);
    if range.Some? {
      var u := s.(cursor := s.cursor.(totalSize := totalSize)).Place(range.value);
      RespondSays(x, u, offset, prefix, isCompleted, headerOk, io);
    }
  }

  lemma GoOnSays(x: FileStream.Setup, s: FileStream.Stream, offset: int, prefix: int, isCompleted: bool,
                 isActive: bool, io: FileStream.Io)
    ensures SameMessages(s, s.GoOn(x, offset, prefix, isCompleted, isActive, io))
  {
    var t := s.Advance(offset, prefix, isCompleted, s.downloadCompleted || isCompleted);
    EndSays(s, 0);
    EndSays(t, 0);
    FileStream.ReadSame(x, t, io);
  }

  lemma MoveSays(s: FileStream.Stream, path: string)
    ensures s.messages <= s.MoveTo(path).messages
  {
  }

  lemma ReadySays(x: FileStream.Setup, s: FileStream.Stream, e: FileStream.Event)
    requires e.Ready?
    ensures s.messages <= FileStream.Step(x, s, e).messages
  {
    EndSays(s, 500);
    MoveSays(s, e.path);
    AdmitSays(x, s.MoveTo(e.path), e.totalSize, e.offset, e.prefix, e.isCompleted, e.headerOk, e.io);
  }

  lemma ProgressSays(x: FileStream.Setup, s: FileStream.Stream, e: FileStream.Event)
    requires e.Progress?
    ensures s.messages <= FileStream.Step(x, s, e).messages
  {
    EndSays(s, 0);
    MoveSays(s, e.path);
    GoOnSays(x, s.MoveTo(e.path), e.offset, e.prefix, e.isCompleted, e.isActive, e.io);
  }

  lemma OtherSays(x: FileStream.Setup, s: FileStream.Stream, e: FileStream.Event)
    requires e.HeadersFlushed? || e.FileError? || e.Timeout?
    ensures SameMessages(s, FileStream.Step(x, s, e))
  {
    var code := if e.FileError? then e.code else 504;
    EndSays(s, if code < 400 || code > 599 then 502 else code);
  }

  lemma StepSays(x: FileStream.Setup, s: FileStream.Stream, e: FileStream.Event)
    ensures s.messages <= FileStream.Step(x, s, e).messages
  {
    if e.Ready? {
      ReadySays(x, s, e);
    } else if e.Progress? {
      ProgressSays(x, s, e);
    } else if e.ChunkFlushed? {
      FileStream.FlushedEnd(x, s, e.ok, e.io);
    } else if !e.Stop? {
      OtherSays(x, s, e);
    }
  }

  // --- the whole ---

  /** A stream, its request, and how many of its messages have reached the manager. */
  datatype Client = Client(setup: FileStream.Setup, stream: FileStream.Stream, delivered: nat)

  datatype Whole = Whole(active: map<string, int>, clients: map<int, Client>)

  datatype Act = Begin(id: int, setup: FileStream.Setup) | Handle(id: int, event: FileStream.Event) | Deliver(id: int)

  ghost predicate Can(w: Whole, a: Act) {
    match a
    case Begin(id, _) => id !in w.clients
    case Handle(id, e) => id in w.clients && FileStream.Enabled(w.clients[id].setup, w.clients[id].stream, e)
    case Deliver(id) => id in w.clients && w.clients[id].delivered < |w.clients[id].stream.messages|
  }

  function Does(workdir: string, w: Whole, a: Act): Whole {
    match a
    case Begin(id, setup) => w.(clients := w.clients[id := Client(setup, FileStream.Fresh(), 0)])
    case Handle(id, e) =>
      if id !in w.clients then w
      else
        var c := w.clients[id];
        w.(clients := w.clients[id := c.(stream := FileStream.Step(c.setup, c.stream, e))])
    case Deliver(id) =>
      if id !in w.clients || w.clients[id].delivered >= |w.clients[id].stream.messages| then w
      else
        var c := w.clients[id];
        Whole(Delivered(workdir, w.active, c.stream.messages[c.delivered]),
              w.clients[id := c.(delivered := c.delivered + 1)])
  }

  function Box(c: Client): Mailbox { Mailbox(c.stream.messages, c.delivered) }

  function Boxes(w: Whole): map<int, Mailbox> {
    map id | id in w.clients :: Box(w.clients[id])
  }

  ghost predicate ClientOk(c: Client) {
    FileStream.Inv(c.setup, FileStream.Asked(c.setup), c.stream)
  }

  ghost predicate WholeOk(workdir: string, w: Whole) {
    CountsOk(workdir, w.active, Boxes(w)) && forall id | id in w.clients :: ClientOk(w.clients[id])
  }

  lemma Replaced(w: Whole, id: int, c: Client)
    requires (forall x | x in w.clients :: ClientOk(w.clients[x])) && ClientOk(c)
    ensures var n := w.clients[id := c];
      && (forall x | x in n :: ClientOk(n[x]))
      && forall active :: Boxes(Whole(active, n)) == Boxes(w)[id := Box(c)]
  {
  }

  lemma FreshOk(setup: FileStream.Setup)
    ensures ClientOk(Client(setup, FileStream.Fresh(), 0))
  {
  }

  lemma BeginOk(workdir: string, w: Whole, id: int, setup: FileStream.Setup)
    requires WholeOk(workdir, w) && id !in w.clients
    ensures WholeOk(workdir, Does(workdir, w, Begin(id, setup)))
  {
    StartKeeps(workdir, Traffic(w.active, Boxes(w)), id);
    FreshOk(setup);
    WholeFrom(workdir, w, id, Client(setup, FileStream.Fresh(), 0), w.active);
  }

  /** More messages on the way do not change what the manager has been told. */
  lemma MoreOnTheWay(workdir: string, active: map<string, int>, boxes: map<int, Mailbox>, id: int, sent: seq<Message>)
    requires CountsOk(workdir, active, boxes) && id in boxes && boxes[id].sent <= sent && Paired(sent)
    ensures CountsOk(workdir, active, boxes[id := boxes[id].(sent := sent)])
  {
    var b := boxes[id];
    var c := b.(sent := sent);
    assert c.sent[..c.delivered] == b.sent[..b.delivered];
    forall p | IsCandidate(workdir, p) ensures Holders(boxes[id := c], p) == Holders(boxes, p) {
      SameHolders(boxes, id, c, p);
    }
  }

  lemma HandleOk(workdir: string, w: Whole, id: int, e: FileStream.Event)
    requires WholeOk(workdir, w) && Can(w, Handle(id, e))
    ensures WholeOk(workdir, Does(workdir, w, Handle(id, e)))
  {
    var c := w.clients[id];
    var s := FileStream.Step(c.setup, c.stream, e);
    assert ClientOk(c);
    ClientHandles(c, e);
    MoreOnTheWay(workdir, w.active, Boxes(w), id, s.messages);
    WholeFrom(workdir, w, id, c.(stream := s), w.active);
  }

  lemma ClientHandles(c: Client, e: FileStream.Event)
    requires ClientOk(c) && FileStream.Enabled(c.setup, c.stream, e)
    ensures var s := FileStream.Step(c.setup, c.stream, e);
      ClientOk(c.(stream := s)) && c.stream.messages <= s.messages && Paired(s.messages)
  {
    FileStream.StepKeeps(c.setup, FileStream.Asked(c.setup), c.stream, e);
    StepSays(c.setup, c.stream, e);
  }

  lemma DeliverCounts(workdir: string, w: Whole, id: int, n: Whole)
    requires CountsOk(workdir, w.active, Boxes(w)) && Can(w, Deliver(id)) && n == Does(workdir, w, Deliver(id))
    ensures var d := w.clients[id].(delivered := w.clients[id].delivered + 1);
      n.clients == w.clients[id := d] && CountsOk(workdir, n.active, Boxes(w)[id := Box(d)])
  {
    ArriveCounts(workdir, w.active, Boxes(w), id);
  }

  lemma DeliveredOk(workdir: string, w: Whole, id: int, n: Whole)
    requires (forall x | x in w.clients :: ClientOk(w.clients[x])) && id in w.clients
    requires var d := w.clients[id].(delivered := w.clients[id].delivered + 1);
      n.clients == w.clients[id := d] && CountsOk(workdir, n.active, Boxes(w)[id := Box(d)])
    ensures WholeOk(workdir, n)
  {
    var d := w.clients[id].(delivered := w.clients[id].delivered + 1);
    StillOk(w.clients[id], d.delivered);
    WholeFrom(workdir, w, id, d, n.active);
  }

  lemma DeliverOk(workdir: string, w: Whole, id: int)
    requires WholeOk(workdir, w) && Can(w, Deliver(id))
    ensures WholeOk(workdir, Does(workdir, w, Deliver(id)))
  {
    var n := Does(workdir, w, Deliver(id));
    DeliverCounts(workdir, w, id, n);
    DeliveredOk(workdir, w, id, n);
  }

  lemma WholeFrom(workdir: string, w: Whole, id: int, c: Client, active: map<string, int>)
    requires (forall x | x in w.clients :: ClientOk(w.clients[x])) && ClientOk(c)
    requires CountsOk(workdir, active, Boxes(w)[id := Box(c)])
    ensures WholeOk(workdir, Whole(active, w.clients[id := c]))
  {
    Replaced(w, id, c);
  }

  lemma StillOk(c: Client, delivered: nat)
    requires ClientOk(c)
    ensures ClientOk(c.(delivered := delivered))
  {
  }

  lemma ArriveCounts(workdir: string, active: map<string, int>, boxes: map<int, Mailbox>, id: int)
    requires CountsOk(workdir, active, boxes) && id in boxes && boxes[id].delivered < |boxes[id].sent|
    ensures var b := boxes[id];
      CountsOk(workdir, Delivered(workdir, active, b.sent[b.delivered]), boxes[id := b.(delivered := b.delivered + 1)])
  {
    ArriveKeeps(workdir, Traffic(active, boxes), id);
  }

  ghost predicate AllCan(workdir: string, w: Whole, acts: seq<Act>)
    decreases |acts|
  {
    acts == [] || (Can(w, acts[0]) && AllCan(workdir, Does(workdir, w, acts[0]), acts[1..]))
  }

  function Run(workdir: string, w: Whole, acts: seq<Act>): Whole
    decreases |acts|
  {
    if acts == [] then w else Run(workdir, Does(workdir, w, acts[0]), acts[1..])
  }

  lemma {:induction false} WholeStaysOk(workdir: string, w: Whole, acts: seq<Act>)
    requires WholeOk(workdir, w) && AllCan(workdir, w, acts)
    ensures WholeOk(workdir, Run(workdir, w, acts))
    decreases |acts|
  {
    if acts != [] {
      match acts[0] {
        case Begin(id, setup) => BeginOk(workdir, w, id, setup);
        case Handle(id, e) => HandleOk(workdir, w, id, e);
        case Deliver(id) => DeliverOk(workdir, w, id);
      }
      WholeStaysOk(workdir, Does(workdir, w, acts[0]), acts[1..]);
    }
  }

  /** The streams that are being served from this file. */
  function ServedFrom(w: Whole, path: string): set<int> {
    set id | id in w.clients && w.clients[id].stream.localPath == path && !w.clients[id].stream.tornDown
  }

  function CountOf(active: map<string, int>, path: string): int {
    if path in active then active[path] else 0
  }

  lemma NoClientsOk(workdir: string)
    ensures WholeOk(workdir, Whole(map[], map[]))
  {
    var boxes := Boxes(Whole(map[], map[]));
    assert boxes == map[];
    forall p ensures Holders(boxes, p) == {} {
    }
  }

  lemma HoldsWhenDelivered(c: Client, path: string)
    requires ClientOk(c) && c.delivered == |c.stream.messages| && path != ""
    ensures Box(c).Holds() == path <==> c.stream.localPath == path && !c.stream.tornDown
  {
    assert c.stream.messages[..c.delivered] == c.stream.messages;
  }

  ghost predicate AllDelivered(w: Whole) {
    forall id | id in w.clients :: w.clients[id].delivered == |w.clients[id].stream.messages|
  }

  lemma DeliveredCounts(workdir: string, w: Whole, path: string)
    requires WholeOk(workdir, w) && AllDelivered(w) && IsCandidate(workdir, path)
    ensures CountOf(w.active, path) == |ServedFrom(w, path)|
  {
    forall id | id in w.clients ensures Boxes(w)[id].Holds() == path <==> id in ServedFrom(w, path) {
      assert ClientOk(w.clients[id]);
      HoldsWhenDelivered(w.clients[id], path);
    }
    assert Holders(Boxes(w), path) == ServedFrom(w, path);
  }

  /** In any run of any number of streams, once all messages are delivered the count of a candidate
      file is the number of streams served from it that have not ended. */
  lemma CountsAreStreams(workdir: string, acts: seq<Act>, path: string)
    requires AllCan(workdir, Whole(map[], map[]), acts) && IsCandidate(workdir, path)
    requires AllDelivered(Run(workdir, Whole(map[], map[]), acts))
    ensures var w := Run(workdir, Whole(map[], map[]), acts); CountOf(w.active, path) == |ServedFrom(w, path)|
  {
    NoClientsOk(workdir);
    WholeStaysOk(workdir, Whole(map[], map[]), acts);
    DeliveredCounts(workdir, Run(workdir, Whole(map[], map[]), acts), path);
  }

  /** And a cleanup deletes no file from which a stream is being served, once that stream's messages
      are delivered. */
  lemma {:induction false} ServedIsKept(workdir: string, acts: seq<Act>, id: int, es: seq<Entry>,
                                        sorted: seq<Candidate>)
    requires AllCan(workdir, Whole(map[], map[]), acts)
    requires var w := Run(workdir, Whole(map[], map[]), acts);
      && id in w.clients && w.clients[id].delivered == |w.clients[id].stream.messages|
      && !w.clients[id].stream.tornDown && w.clients[id].stream.localPath != ""
      && IsSorting(Idle(workdir, w.active, es, |es|), sorted)
    ensures var w := Run(workdir, Whole(map[], map[]), acts);
      forall c | c in sorted :: c.path != w.clients[id].stream.localPath
  {
    NoClientsOk(workdir);
    WholeStaysOk(workdir, Whole(map[], map[]), acts);
    KeptThen(workdir, Run(workdir, Whole(map[], map[]), acts), id, es, sorted);
  }

  lemma KeptThen(workdir: string, w: Whole, id: int, es: seq<Entry>, sorted: seq<Candidate>)
    requires WholeOk(workdir, w) && id in w.clients
    requires w.clients[id].delivered == |w.clients[id].stream.messages|
    requires !w.clients[id].stream.tornDown && w.clients[id].stream.localPath != ""
    requires IsSorting(Idle(workdir, w.active, es, |es|), sorted)
    ensures forall c | c in sorted :: c.path != w.clients[id].stream.localPath
  {
    assert ClientOk(w.clients[id]);
    HoldsWhenDelivered(w.clients[id], w.clients[id].stream.localPath);
    HeldIsKept(workdir, w.active, Boxes(w), id, es, sorted);
  }
}
