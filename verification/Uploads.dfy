/**
 * Serving one peer's requests. Requests wait in `unread` until a single background server has read
 * their data, then in `ready` until the writer sends them. The server gives up the lock while it
 * waits for memory and while it reads, so messages, chokes and closes interleave with it.
 */
module Uploads {
  import opened Basics

  datatype Request = Request(index: nat, begin: nat, length: nat)

  const LOCAL_CLIENT_REQQ: nat := 1024

  // Where the server is while the lock is free.
  datatype Server =
    | Stopped
    | Looking
    | Waiting(r: Request, signalled: bool)
    | Reading(r: Request)

  datatype Conn = Conn(
    fast: bool,
    maxAlloc: nat,
    choking: bool,
    closed: bool,
    torrentClosed: bool,
    unread: set<Request>,
    ready: set<Request>,
    server: Server)

  // The request a step answers, by PIECE or REJECT.
  datatype Answer = Silent | To(r: Request)

  datatype Outcome = Running(c: Conn, answer: Answer) | Panicked

  function Queued(c: Conn): set<Request> { c.unread + c.ready }

  ghost function Bytes(s: set<Request>): nat {
    if s == {} then 0 else
      var r :| r in s;
      r.length + Bytes(s - {r})
  }

  lemma {:induction false} BytesWithout(s: set<Request>, r: Request)
    requires r in s
    ensures Bytes(s) == r.length + Bytes(s - {r})
    decreases |s|
  {
    var q :| q in s && Bytes(s) == q.length + Bytes(s - {q});
    if q != r {
      BytesWithout(s - {q}, r);
      BytesWithout(s - {r}, q);
      assert s - {q} - {r} == s - {r} - {q};
    }
  }

  lemma BytesAfter(s: set<Request>, r: Request)
    ensures Bytes(s - {r}) <= Bytes(s)
    ensures r !in s ==> Bytes(s + {r}) == Bytes(s) + r.length
    ensures r.length == 0 || r !in s ==> Bytes(s - {r}) == Bytes(s)
  {
    if r in s {
      BytesWithout(s, r);
    } else {
      assert s - {r} == s;
      BytesWithout(s + {r}, r);
      assert s + {r} - {r} == s;
    }
  }

  // ---- Operations --------------------------------------------------------------------------------

  function Signal(s: Server): Server { if s.Waiting? then s.(signalled := true) else s }

  // Forgets a request; freeing data wakes a waiting server.
  function Forgotten(c: Conn, r: Request): Conn {
    c.(unread := c.unread - {r}, ready := c.ready - {r},
       server := if r in c.ready && r.length > 0 then Signal(c.server) else c.server)
  }

  function Reject(c: Conn, r: Request): Outcome {
    if !c.fast then Panicked else Running(Forgotten(c, r), To(r))
  }

  // Choking a peer without the fast extension drops its requests, and wakes nobody.
  function Choke(c: Conn): Conn {
    if c.choking then c
    else if c.fast then c.(choking := true)
    else c.(choking := true, unread := {}, ready := {})
  }

  function UseBestReject(c: Conn, r: Request): Outcome {
    if c.fast then Reject(c, r) else Running(Choke(c), Silent)
  }

  datatype Check = Check(tooLong: bool, have: bool, overflows: bool)

  datatype Verdict = Ignore | Refuse | Disconnect | Accept

  function Judge(c: Conn, r: Request, k: Check): Verdict {
    if r in Queued(c) then if c.fast then Disconnect else Ignore
    else if c.choking || |c.unread| + |c.ready| >= LOCAL_CLIENT_REQQ then if c.fast then Refuse else Ignore
    else if k.tooLong then if c.fast then Refuse else Disconnect
    else if !k.have || k.overflows then Disconnect
    else Accept
  }

  function Accepted(c: Conn, r: Request): Conn {
    c.(unread := c.unread + {r}, server := if c.server.Stopped? then Looking else c.server)
  }

  function OnReadRequest(c: Conn, r: Request, k: Check): Outcome {
    match Judge(c, r, k)
    case Ignore => Running(c, Silent)
    case Refuse => Reject(c, r)
    case Disconnect => Running(c.(closed := true), Silent)
    case Accept => Running(Accepted(c, r), Silent)
  }

  function OnPeerSentCancel(c: Conn, r: Request): Outcome {
    if r !in Queued(c) then Running(c, Silent)
    else if c.fast then Reject(c, r)
    else Running(Forgotten(c, r), Silent)
  }

  // The end of serving a request; the server would stall if it were still unread.
  function Served(o: Outcome, r: Request): Outcome {
    if o.Panicked? || r in o.c.unread then Panicked else Running(o.c.(server := Looking), o.answer)
  }

  function GiveUp(c: Conn, r: Request): Outcome {
    Served(if r in c.unread then UseBestReject(c, r) else Running(c, Silent), r)
  }

  // One look at the memory in use: too large ever, fits now, or wait.
  ghost function WaitForDataAlloc(c: Conn, r: Request): Outcome {
    if r.length > c.maxAlloc then GiveUp(c, r)
    else if Bytes(c.ready) + r.length <= c.maxAlloc then Running(c.(server := Reading(r)), Silent)
    else Running(c.(server := Waiting(r, false)), Silent)
  }

  function ReadFailed(c: Conn, r: Request): Outcome {
    Served(if c.torrentClosed then Running(c, Silent) else UseBestReject(c, r), r)
  }

  function Moved(c: Conn, r: Request): Conn {
    c.(unread := c.unread - {r}, ready := c.ready + {r}, server := Looking)
  }

  function ReadDone(c: Conn, r: Request): Conn {
    if r in c.unread then Moved(c, r) else c.(server := Looking)
  }

  function SendChunk(c: Conn, r: Request): Outcome {
    if r !in c.ready then Panicked
    else
      Running(c.(ready := c.ready - {r}, server := if r.length > 0 then Signal(c.server) else c.server), To(r))
  }

  datatype Event =
    | PeerRequest(r: Request, check: Check)
    | PeerCancel(r: Request)
    | SendChoke
    | SendUnchoke
    | SendPiece(r: Request)
    | Pick(r: Request)
    | Stop
    | Wake
    | FinishRead(ok: bool)
    | CloseConn
    | CloseTorrent

  predicate Idle(c: Conn, e: Event) {
    match e
    case PeerRequest(_, _) => c.closed
    case PeerCancel(_) => c.closed
    case SendChoke => c.closed
    case SendUnchoke => c.closed
    case SendPiece(r) => c.closed || c.choking || r !in c.ready
    case Pick(r) => c.closed || !c.server.Looking? || r !in c.unread
    case Stop => !c.server.Looking? || (!c.closed && c.unread != {})
    case Wake => !c.server.Waiting? || (!c.server.signalled && !c.closed)
    case FinishRead(_) => !c.server.Reading?
    case CloseConn => false
    case CloseTorrent => false
  }

  /** One critical section; an event whose own guard fails changes nothing. */
  ghost function Next(c: Conn, e: Event): Outcome {
    if Idle(c, e) then Running(c, Silent) else
    match e
    case PeerRequest(r, k) => OnReadRequest(c, r, k)
    case PeerCancel(r) => OnPeerSentCancel(c, r)
    case SendChoke => Running(Choke(c), Silent)
    case SendUnchoke => Running(c.(choking := false), Silent)
    case SendPiece(r) => SendChunk(c, r)
    case Pick(r) => WaitForDataAlloc(c, r)
    case Stop => Running(c.(server := Stopped), Silent)
    case Wake => if c.server.signalled then WaitForDataAlloc(c, c.server.r) else GiveUp(c, c.server.r)
    case FinishRead(ok) => if ok then Running(ReadDone(c, c.server.r), Silent) else ReadFailed(c, c.server.r)
    case CloseConn => Running(c.(closed := true), Silent)
    case CloseTorrent => Running(c.(closed := true, torrentClosed := true), Silent)
  }

  // ---- Invariants --------------------------------------------------------------------------------

  ghost predicate Bounded(c: Conn) {
    && c.unread !! c.ready
    && |c.unread| + |c.ready| <= LOCAL_CLIENT_REQQ
    && Bytes(c.ready) <= c.maxAlloc
    && (c.server.Reading? ==> Bytes(c.ready) + c.server.r.length <= c.maxAlloc)
    && (c.server.Waiting? ==> c.server.r.length <= c.maxAlloc)
    && (c.server.Reading? || c.server.Waiting? ==> c.server.r !in c.ready)
    && (!c.fast && c.choking ==> c.unread == {} && c.ready == {})
    && (c.unread != {} && !c.closed ==> !c.server.Stopped?)
  }

  // Asleep, unsignalled, with no data buffered whose release could signal it.
  ghost predicate Stuck(c: Conn) { c.server.Waiting? && !c.server.signalled && c.ready == {} }

  // The server sleeps only while there is too little memory, or for ever.
  ghost predicate Awake(c: Conn) {
    c.server.Waiting? && !c.server.signalled && Bytes(c.ready) + c.server.r.length <= c.maxAlloc ==>
      !c.fast && Stuck(c)
  }

  ghost predicate Right(c: Conn) { Bounded(c) && Awake(c) }

  lemma ForgetRight(c: Conn, r: Request)
    requires Right(c)
    ensures Right(Forgotten(c, r))
  {
    BytesAfter(c.ready, r);
  }

  lemma AcceptRight(c: Conn, r: Request)
    requires Right(c) && r !in Queued(c) && |c.unread| + |c.ready| < LOCAL_CLIENT_REQQ && !c.choking
    ensures Right(Accepted(c, r))
  {
  }

  lemma PeerRequestRight(c: Conn, r: Request, k: Check)
    requires Right(c)
    ensures OnReadRequest(c, r, k).Running? && Right(OnReadRequest(c, r, k).c)
  {
    match Judge(c, r, k)
    case Ignore =>
    case Refuse => ForgetRight(c, r);
    case Disconnect =>
    case Accept => AcceptRight(c, r);
  }

  lemma BestRejectRight(c: Conn, r: Request)
    requires Right(c)
    ensures UseBestReject(c, r).Running? && Right(UseBestReject(c, r).c) && r !in UseBestReject(c, r).c.unread
  {
    ForgetRight(c, r);
  }

  ghost predicate MayBe(c: Conn, v: Server) {
    match v
    case Stopped => c.unread == {} || c.closed
    case Looking => true
    case Waiting(r, signalled) =>
      && r.length <= c.maxAlloc && r !in c.ready
      && (!signalled ==> Bytes(c.ready) + r.length > c.maxAlloc)
    case Reading(r) => r !in c.ready && Bytes(c.ready) + r.length <= c.maxAlloc
  }

  lemma ServerRight(c: Conn, v: Server)
    requires Right(c) && MayBe(c, v)
    ensures Right(c.(server := v))
  {
  }

  lemma GiveUpRight(c: Conn, r: Request)
    requires Right(c)
    ensures GiveUp(c, r).Running? && Right(GiveUp(c, r).c)
  {
    if r in c.unread {
      BestRejectRight(c, r);
      ServerRight(UseBestReject(c, r).c, Looking);
    } else {
      ServerRight(c, Looking);
    }
  }

  lemma AllocRight(c: Conn, r: Request)
    requires Right(c) && r !in c.ready
    ensures WaitForDataAlloc(c, r).Running? && Right(WaitForDataAlloc(c, r).c)
  {
    if r.length > c.maxAlloc {
      GiveUpRight(c, r);
    } else if Bytes(c.ready) + r.length <= c.maxAlloc {
      ServerRight(c, Reading(r));
    } else {
      ServerRight(c, Waiting(r, false));
    }
  }

  lemma ReadDoneRight(c: Conn, r: Request)
    requires Right(c) && c.server == Reading(r)
    ensures Right(ReadDone(c, r))
  {
    if r in c.unread {
      BytesAfter(c.ready, r);
    } else {
      ServerRight(c, Looking);
    }
  }

  /** A failed read panics exactly when its torrent closed meanwhile and the peer still wants it. */
  lemma ReadFailedRight(c: Conn, r: Request)
    requires Right(c)
    ensures ReadFailed(c, r).Panicked? <==> c.torrentClosed && r in c.unread
    ensures ReadFailed(c, r).Running? ==> Right(ReadFailed(c, r).c)
  {
    if !c.torrentClosed {
      BestRejectRight(c, r);
      ServerRight(UseBestReject(c, r).c, Looking);
    } else if r !in c.unread {
      ServerRight(c, Looking);
    }
  }

  lemma SendRight(c: Conn, r: Request)
    requires Right(c) && r in c.ready
    ensures SendChunk(c, r).Running? && Right(SendChunk(c, r).c)
  {
    BytesAfter(c.ready, r);
  }

  lemma ChokeRight(c: Conn)
    requires Right(c)
    ensures Right(Choke(c))
  {
  }

  // The one way to stop the program: a failed read of a wanted request after its torrent closed.
  predicate Fatal(c: Conn, e: Event) {
    e == FinishRead(false) && c.server.Reading? && c.torrentClosed && c.server.r in c.unread
  }

  lemma ServerStepRight(c: Conn, e: Event)
    requires Right(c) && !Idle(c, e) && (e.Pick? || e.Stop? || e.Wake? || e.FinishRead?)
    ensures Next(c, e).Panicked? <==> Fatal(c, e)
    ensures Next(c, e).Running? ==> Right(Next(c, e).c)
  {
    match e
    case Pick(r) => AllocRight(c, r);
    case Stop => ServerRight(c, Stopped);
    case Wake =>
      AllocRight(c, c.server.r);
      GiveUpRight(c, c.server.r);
    case FinishRead(ok) =>
      if ok {
        ReadDoneRight(c, c.server.r);
      } else {
        ReadFailedRight(c, c.server.r);
      }
  }

  lemma PeerStepRight(c: Conn, e: Event)
    requires Right(c) && !Idle(c, e) && (e.PeerRequest? || e.PeerCancel? || e.SendChoke? || e.SendPiece?)
    ensures Next(c, e).Running? && Right(Next(c, e).c)
  {
    match e
    case PeerRequest(r, k) => PeerRequestRight(c, r, k);
    case PeerCancel(r) => ForgetRight(c, r);
    case SendChoke => ChokeRight(c);
    case SendPiece(r) => SendRight(c, r);
  }

  /** Every critical section keeps the queues right, and panics only in the one case. */
  lemma NextRight(c: Conn, e: Event)
    requires Right(c)
    ensures Next(c, e).Panicked? <==> Fatal(c, e)
    ensures Next(c, e).Running? ==> Right(Next(c, e).c)
  {
    if !Idle(c, e) {
      if e.Pick? || e.Stop? || e.Wake? || e.FinishRead? {
        ServerStepRight(c, e);
      } else if e.PeerRequest? || e.PeerCancel? || e.SendChoke? || e.SendPiece? {
        PeerStepRight(c, e);
      }
    }
  }

  // ---- Every request is answered once ------------------------------------------------------------

  function B(b: bool): nat { if b then 1 else 0 }

  // Asking for r ends the connection: a fast peer asks twice, or asks for what it could not be given
  // at any time. While we choke, or when its queue is full, nothing else is looked at.
  predicate Offends(c: Conn, r: Request, k: Check) {
    if r in c.unread || r in c.ready then c.fast
    else !c.choking && |c.unread| + |c.ready| < 1024 && (if k.tooLong then !c.fast else !k.have || k.overflows)
  }

  // The peer sent r, and that did not end the connection.
  predicate Receives(c: Conn, e: Event, r: Request) {
    e.PeerRequest? && e.r == r && !c.closed && !Offends(c, r, e.check)
  }

  // A rejection of something answered already, while its data was being read.
  predicate Strays(c: Conn, e: Event, r: Request) {
    e == FinishRead(false) && c.server == Reading(r) && !c.torrentClosed && r !in c.unread
  }

  ghost predicate Balanced(c: Conn, e: Event, r: Request) {
    var o := Next(c, e);
    o.Running? ==>
      B(o.answer == To(r)) + B(r in Queued(o.c)) == B(r in Queued(c)) + B(Receives(c, e, r)) + B(Strays(c, e, r))
  }

  ghost predicate Even(c: Conn, o: Outcome, r: Request) {
    o.Running? ==> B(o.answer == To(r)) + B(r in Queued(o.c)) == B(r in Queued(c))
  }

  lemma RequestBalanced(c: Conn, q: Request, k: Check, r: Request)
    requires Right(c) && c.fast && !c.closed
    ensures Balanced(c, PeerRequest(q, k), r)
  {
    match Judge(c, q, k)
    case Refuse => assert r in Queued(Forgotten(c, q)) <==> r in Queued(c) && r != q;
    case Accept => assert r in Queued(Accepted(c, q)) <==> r in Queued(c) || r == q;
    case _ =>
  }

  predicate Novel(c: Conn, r: Request) { r !in c.unread && r !in c.ready }

  predicate Room(c: Conn) { !c.choking && |c.unread| + |c.ready| < 1024 }

  lemma RequestCloses(c: Conn, r: Request, k: Check)
    requires !c.closed
    ensures Next(c, PeerRequest(r, k)).Running?
    ensures Next(c, PeerRequest(r, k)).c.closed <==> Offends(c, r, k)
  {
  }

  lemma RequestQueues(c: Conn, r: Request, k: Check)
    requires !c.closed
    ensures Next(c, PeerRequest(r, k)).Running?
    ensures var t := Next(c, PeerRequest(r, k)).c;
            && t.unread == c.unread + (if Novel(c, r) && Room(c) && !k.tooLong && k.have && !k.overflows then {r} else {})
            && t.ready == c.ready && t.choking == c.choking
  {
    RequestCloses(c, r, k);
    assert c.unread + {} == c.unread;
    match Judge(c, r, k)
    case Refuse => ForgetNovel(c, r);
    case Accept => assert Novel(c, r) && Room(c) && !k.tooLong && k.have && !k.overflows;
    case _ =>
  }

  lemma ForgetNovel(c: Conn, r: Request)
    requires Novel(c, r)
    ensures Forgotten(c, r) == c
  {
    assert c.unread - {r} == c.unread && c.ready - {r} == c.ready;
  }

  lemma RequestAnswered(c: Conn, r: Request, k: Check)
    requires !c.closed
    ensures Next(c, PeerRequest(r, k)).Running?
    ensures Next(c, PeerRequest(r, k)).answer == if c.fast && Novel(c, r) && (!Room(c) || k.tooLong) then To(r) else Silent
  {
  }

  /** What becomes of a REQUEST on an open connection. It closes it exactly if it offends. It is
      queued exactly if it is new, we are not choking, there is room, and it is neither too long nor
      for data we do not have. On a fast connection a new one that finds no room or is too long is
      rejected at once; so a request that leaves the connection open is answered by this step or queued
      after it. Nothing else in the queues changes. */
  lemma RequestOutcome(c: Conn, r: Request, k: Check)
    requires !c.closed
    ensures var o := Next(c, PeerRequest(r, k));
            && o.Running? && (o.c.closed <==> Offends(c, r, k))
            && o.c.unread == c.unread + (if Novel(c, r) && Room(c) && !k.tooLong && k.have && !k.overflows then {r} else {})
            && o.c.ready == c.ready && o.c.choking == c.choking
            && o.answer == (if c.fast && Novel(c, r) && (!Room(c) || k.tooLong) then To(r) else Silent)
            && (c.fast && !o.c.closed ==> o.answer == To(r) || r in o.c.unread)
  {
    RequestCloses(c, r, k);
    RequestQueues(c, r, k);
    RequestAnswered(c, r, k);
  }

  /** What the writer and the peer's cancels do to an open connection. */
  lemma WriterOutcome(c: Conn, e: Event)
    requires Right(c) && !c.closed && Next(c, e).Running?
    ensures var o := Next(c, e);
            && (e.SendChoke? ==> o.c.choking && o.answer == Silent
                                 && (if c.fast || c.choking then o.c.unread == c.unread && o.c.ready == c.ready
                                     else o.c.unread == {} && o.c.ready == {}))
            && (e.SendUnchoke? ==> o == Running(c.(choking := false), Silent))
            && (e.SendPiece? && !c.choking && e.r in c.ready ==>
                  o.answer == To(e.r) && o.c.ready == c.ready - {e.r} && o.c.unread == c.unread && !o.c.choking)
            && (e.PeerCancel? ==> o.c.ready == c.ready - {e.r} && o.c.unread == c.unread - {e.r} && o.c.choking == c.choking
                                  && o.answer == if c.fast && (e.r in c.unread || e.r in c.ready) then To(e.r) else Silent)
            && (e.CloseConn? ==> o.c == c.(closed := true))
            && (e.CloseTorrent? ==> o.c == c.(closed := true, torrentClosed := true))
  {
    if e.PeerCancel? && e.r !in c.unread && e.r !in c.ready {
      ForgetNovel(c, e.r);
    }
  }

  lemma DoneOutcome(c: Conn, r: Request)
    ensures ReadDone(c, r).unread == c.unread - {r} && ReadDone(c, r).choking == c.choking
    ensures ReadDone(c, r).ready == c.ready + if r in c.unread then {r} else {}
  {
    assert c.ready + {} == c.ready;
    if r !in c.unread {
      assert c.unread - {r} == c.unread;
    }
  }

  lemma FailedOutcome(c: Conn, r: Request)
    requires Bounded(c) && !c.torrentClosed && ReadFailed(c, r).Running?
    ensures var o := ReadFailed(c, r);
            if c.fast then o.c.unread == c.unread - {r} && o.c.ready == c.ready - {r} && o.answer == To(r)
            else o.c.choking && o.c.unread == {} && o.c.ready == {}
  {
  }

  /** The end of a read: good data waits to be sent if the peer still wants it; after a failure the
      request is rejected, or a peer that cannot be sent a reject is choked. */
  lemma ReadOutcome(c: Conn, ok: bool)
    requires Right(c) && c.server.Reading? && Next(c, FinishRead(ok)).Running?
    ensures var o, r := Next(c, FinishRead(ok)), c.server.r;
            && (ok ==> o.c.unread == c.unread - {r} && o.answer == Silent && o.c.choking == c.choking
                       && o.c.ready == c.ready + if r in c.unread then {r} else {})
            && (!ok && !c.torrentClosed && c.fast ==> o.c.unread == c.unread - {r} && o.c.ready == c.ready - {r} && o.answer == To(r))
            && (!ok && !c.torrentClosed && !c.fast ==> o.c.choking && o.c.unread == {} && o.c.ready == {})
  {
    if ok {
      assert Next(c, FinishRead(ok)) == Running(ReadDone(c, c.server.r), Silent);
      DoneOutcome(c, c.server.r);
    } else if !c.torrentClosed {
      assert Next(c, FinishRead(ok)) == ReadFailed(c, c.server.r);
      FailedOutcome(c, c.server.r);
    }
  }

  lemma GiveUpLeaves(c: Conn, q: Request, r: Request)
    requires !c.fast && GiveUp(c, q).Running? && r in Queued(c) && r !in Queued(GiveUp(c, q).c)
    ensures GiveUp(c, q).c.choking
  {
  }

  lemma AllocLeaves(c: Conn, q: Request, r: Request)
    requires !c.fast && WaitForDataAlloc(c, q).Running? && r in Queued(c) && r !in Queued(WaitForDataAlloc(c, q).c)
    ensures WaitForDataAlloc(c, q).c.choking
  {
    GiveUpLeaves(c, q, r);
  }

  lemma ServerLeaves(c: Conn, e: Event, r: Request)
    requires Right(c) && !c.fast && !Idle(c, e) && (e.Pick? || e.Wake? || e.FinishRead?)
    requires Next(c, e).Running? && r in Queued(c) && r !in Queued(Next(c, e).c)
    ensures Next(c, e).c.choking
  {
    match e
    case Pick(q) => AllocLeaves(c, q, r);
    case Wake =>
      if c.server.signalled {
        AllocLeaves(c, c.server.r, r);
      } else {
        GiveUpLeaves(c, c.server.r, r);
      }
    case FinishRead(ok) => ReadOutcome(c, ok);
  }

  lemma WriterLeaves(c: Conn, e: Event, r: Request)
    requires Right(c) && !c.fast && !Idle(c, e) && (e.PeerCancel? || e.SendChoke? || e.SendPiece?)
    requires Next(c, e).Running? && r in Queued(c) && r !in Queued(Next(c, e).c)
    ensures Next(c, e).answer == To(r) || e == PeerCancel(r) || Next(c, e).c.choking
  {
    WriterOutcome(c, e);
  }

  /** Without the fast extension nothing is dropped behind the peer's back: what leaves the queue was
      sent, cancelled by the peer, or went with a choke, which the peer is told of. */
  lemma LeavesQueue(c: Conn, e: Event, r: Request)
    requires Right(c) && !c.fast && Next(c, e).Running? && r in Queued(c) && r !in Queued(Next(c, e).c)
    ensures Next(c, e).answer == To(r) || e == PeerCancel(r) || (Next(c, e).c.choking && !c.choking)
  {
    assert !c.choking;
    if !Idle(c, e) {
      if e.Pick? || e.Wake? || e.FinishRead? {
        ServerLeaves(c, e, r);
      } else if e.PeerCancel? || e.SendChoke? || e.SendPiece? {
        WriterLeaves(c, e, r);
      } else if e.PeerRequest? {
        RequestQueues(c, e.r, e.check);
      }
    }
  }

  /** Where the server is after each of its steps: it gives up what could never fit, reads what fits
      now, and otherwise sleeps until data is freed. */
  lemma ServerMoves(c: Conn, e: Event)
    requires Right(c) && Next(c, e).Running?
    ensures var t := Next(c, e).c.server;
            var q := if e.Pick? then e.r else if c.server.Waiting? then c.server.r else FIRST;
            && ((e.Pick? && !c.closed && c.server.Looking? && q in c.unread) || (e.Wake? && c.server.Waiting? && c.server.signalled) ==>
                  t == if q.length > c.maxAlloc then Looking
                       else if Bytes(c.ready) + q.length <= c.maxAlloc then Reading(q) else Waiting(q, false))
            && (e.Wake? && c.server.Waiting? && !c.server.signalled ==> t == if c.closed then Looking else c.server)
            && (e.FinishRead? && c.server.Reading? ==> t == Looking)
            && (e.Stop? && c.server.Looking? && (c.closed || c.unread == {}) ==> t == Stopped)
            && (e.SendPiece? && !c.closed && !c.choking && e.r in c.ready && e.r.length > 0 && c.server.Waiting? ==>
                  t == Waiting(c.server.r, true))
            && (e.PeerRequest? && c.server.Stopped? && !c.closed ==>
                  t == if e.r in Next(c, e).c.unread && e.r !in c.unread then Looking else Stopped)
  {
    if e.PeerRequest? && !c.closed {
      RequestOutcome(c, e.r, e.check);
    } else if e.Pick? || e.Wake? || e.FinishRead? || e.Stop? {
      NextRight(c, e);
    }
  }

  lemma GiveUpEven(c: Conn, q: Request, r: Request)
    requires c.fast && q !in c.ready
    ensures Even(c, GiveUp(c, q), r)
  {
  }

  lemma AllocEven(c: Conn, q: Request, r: Request)
    requires c.fast && q !in c.ready
    ensures Even(c, WaitForDataAlloc(c, q), r)
  {
    GiveUpEven(c, q, r);
  }

  lemma ReadFailedBalance(c: Conn, q: Request, r: Request)
    requires c.fast && q !in c.ready && ReadFailed(c, q).Running?
    ensures var o := ReadFailed(c, q);
            B(o.answer == To(r)) + B(r in Queued(o.c))
            == B(r in Queued(c)) + B(!c.torrentClosed && r == q && q !in c.unread)
  {
  }

  lemma ReadDoneSame(c: Conn, q: Request)
    ensures Queued(ReadDone(c, q)) == Queued(c)
  {
  }

  lemma ReadBalanced(c: Conn, ok: bool, r: Request)
    requires c.fast && c.server.Reading? && c.server.r !in c.ready
    ensures Balanced(c, FinishRead(ok), r)
  {
    if ok {
      assert Next(c, FinishRead(true)) == Running(ReadDone(c, c.server.r), Silent);
      ReadDoneSame(c, c.server.r);
    } else {
      assert Next(c, FinishRead(false)) == ReadFailed(c, c.server.r);
      if ReadFailed(c, c.server.r).Running? {
        ReadFailedBalance(c, c.server.r, r);
      }
    }
  }

  lemma WriterBalanced(c: Conn, e: Event, r: Request)
    requires Right(c) && c.fast && (e.PeerCancel? || e.SendChoke? || e.SendPiece?)
    ensures Balanced(c, e, r)
  {
    if !Idle(c, e) {
      match e
      case PeerCancel(q) => assert Even(c, OnPeerSentCancel(c, q), r);
      case SendChoke => assert Even(c, Running(Choke(c), Silent), r);
      case SendPiece(q) => assert Even(c, SendChunk(c, q), r);
    }
  }

  /** One step of a fast connection: answers and queue grow by what was received, but for strays. */
  lemma NextBalanced(c: Conn, e: Event, r: Request)
    requires Right(c) && c.fast
    ensures Balanced(c, e, r)
  {
    if !Idle(c, e) {
      match e
      case PeerRequest(q, k) => RequestBalanced(c, q, k, r);
      case PeerCancel(_) => WriterBalanced(c, e, r);
      case SendChoke => WriterBalanced(c, e, r);
      case SendPiece(_) => WriterBalanced(c, e, r);
      case Pick(q) => AllocEven(c, q, r);
      case Wake => WakeBalanced(c, r);
      case FinishRead(ok) => ReadBalanced(c, ok, r);
      case _ => assert Queued(Next(c, e).c) == Queued(c);
    }
  }

  lemma WakeBalanced(c: Conn, r: Request)
    requires Right(c) && c.fast
    ensures Balanced(c, Wake, r)
  {
    if !Idle(c, Wake) {
      AllocEven(c, c.server.r, r);
      GiveUpEven(c, c.server.r, r);
    }
  }

  // ---- Whole runs --------------------------------------------------------------------------------

  function NewConn(fast: bool, maxAlloc: nat): Conn {
    Conn(fast, maxAlloc, true, false, false, {}, {}, Stopped)
  }

  ghost function Run(c: Conn, es: seq<Event>): Outcome
    decreases |es|
  {
    if es == [] then Running(c, Silent)
    else
      var o := Run(c, es[..|es| - 1]);
      if o.Panicked? then Panicked else Next(o.c, es[|es| - 1])
  }

  ghost function Receipts(c: Conn, es: seq<Event>, r: Request): nat
    decreases |es|
  {
    if es == [] then 0
    else
      var o := Run(c, es[..|es| - 1]);
      Receipts(c, es[..|es| - 1], r) + B(o.Running? && Receives(o.c, es[|es| - 1], r))
  }

  ghost function StrayCount(c: Conn, es: seq<Event>, r: Request): nat
    decreases |es|
  {
    if es == [] then 0
    else
      var o := Run(c, es[..|es| - 1]);
      StrayCount(c, es[..|es| - 1], r) + B(o.Running? && Strays(o.c, es[|es| - 1], r))
  }

  ghost function Answers(c: Conn, es: seq<Event>, r: Request): nat
    decreases |es|
  {
    if es == [] then 0
    else
      var o := Run(c, es);
      Answers(c, es[..|es| - 1], r) + B(o.Running? && o.answer == To(r))
  }

  /** Along every run from a fresh connection: unread and ready requests are disjoint and at most 1024,
      buffered data stays within the cap, a choked peer without the fast extension has nothing queued,
      and while anything is unread a server is at work. */
  lemma {:induction false} RunsAreRight(fast: bool, maxAlloc: nat, es: seq<Event>)
    ensures var o := Run(NewConn(fast, maxAlloc), es);
            o.Running? ==> Right(o.c) && o.c.fast == fast && o.c.maxAlloc == maxAlloc
    decreases |es|
  {
    if es != [] {
      RunsAreRight(fast, maxAlloc, es[..|es| - 1]);
      var o := Run(NewConn(fast, maxAlloc), es[..|es| - 1]);
      if o.Running? {
        NextRight(o.c, es[|es| - 1]);
        if Next(o.c, es[|es| - 1]).Running? {
          Settings(o.c, es[|es| - 1]);
        }
      }
    }
  }

  lemma Settings(c: Conn, e: Event)
    requires Next(c, e).Running?
    ensures Next(c, e).c.fast == c.fast && Next(c, e).c.maxAlloc == c.maxAlloc
  {
    if !Idle(c, e) {
      match e
      case PeerRequest(r, k) => assert OnReadRequest(c, r, k).c.fast == c.fast;
      case PeerCancel(r) => assert OnPeerSentCancel(c, r).c.fast == c.fast;
      case Pick(r) => assert WaitForDataAlloc(c, r).c.fast == c.fast;
      case _ =>
    }
  }

  /** On a fast connection every run accounts for every request: received and stray rejections equal
      answers plus what is still queued. */
  lemma {:induction false} RunsAreBalanced(maxAlloc: nat, es: seq<Event>, r: Request)
    ensures var c := NewConn(true, maxAlloc);
            Run(c, es).Running? ==>
              Answers(c, es, r) + B(r in Queued(Run(c, es).c)) == Receipts(c, es, r) + StrayCount(c, es, r)
    decreases |es|
  {
    if es != [] {
      RunsAreBalanced(maxAlloc, es[..|es| - 1], r);
      RunsAreRight(true, maxAlloc, es[..|es| - 1]);
      var o := Run(NewConn(true, maxAlloc), es[..|es| - 1]);
      if o.Running? {
        NextBalanced(o.c, es[|es| - 1], r);
        assert Balanced(o.c, es[|es| - 1], r);
      }
    }
  }

  lemma {:induction false} ReadsSucceed(c: Conn, es: seq<Event>, r: Request)
    requires FinishRead(false) !in es
    ensures StrayCount(c, es, r) == 0
    decreases |es|
  {
    if es != [] {
      ReadsSucceed(c, es[..|es| - 1], r);
    }
  }

  lemma {:induction false} ReadsNeverPanic(fast: bool, maxAlloc: nat, es: seq<Event>)
    requires FinishRead(false) !in es
    ensures Run(NewConn(fast, maxAlloc), es).Running?
    decreases |es|
  {
    if es != [] {
      ReadsNeverPanic(fast, maxAlloc, es[..|es| - 1]);
      RunsAreRight(fast, maxAlloc, es[..|es| - 1]);
      NextRight(Run(NewConn(fast, maxAlloc), es[..|es| - 1]).c, es[|es| - 1]);
    }
  }

  /** While storage reads succeed nothing panics, and on a fast connection each request received is
      answered by exactly one PIECE or REJECT or is still queued. */
  lemma AnsweredExactlyOnce(maxAlloc: nat, es: seq<Event>, r: Request)
    requires FinishRead(false) !in es
    ensures var c := NewConn(true, maxAlloc);
            Run(c, es).Running? && Receipts(c, es, r) == Answers(c, es, r) + B(r in Queued(Run(c, es).c))
  {
    ReadsNeverPanic(true, maxAlloc, es);
    RunsAreBalanced(maxAlloc, es, r);
    ReadsSucceed(NewConn(true, maxAlloc), es, r);
  }

  // ---- Two faults --------------------------------------------------------------------------------

  lemma AllocNotStuck(c: Conn, r: Request)
    requires WaitForDataAlloc(c, r).Running?
    ensures !Stuck(WaitForDataAlloc(c, r).c)
  {
    assert Bytes({}) == 0;
  }

  lemma ServerNotStuck(c: Conn, e: Event)
    requires Right(c) && !Stuck(c) && (e.Pick? || e.Stop? || e.Wake? || e.FinishRead?) && Next(c, e).Running?
    ensures !Stuck(Next(c, e).c)
  {
    if !Idle(c, e) {
      match e
      case Pick(r) => AllocNotStuck(c, r);
      case Wake =>
        if c.server.signalled {
          AllocNotStuck(c, c.server.r);
        }
      case _ =>
    }
  }

  lemma FreeingSignals(c: Conn, r: Request)
    requires Right(c) && !Stuck(c)
    ensures !Stuck(Forgotten(c, r))
    ensures r in c.ready ==> !Stuck(SendChunk(c, r).c)
  {
    assert Bytes({}) == 0;
    BytesAfter(c.ready, r);
  }

  /** The wakeup is lost exactly when a peer without the fast extension is choked while the server
      sleeps: the buffered data goes, and nobody is told. */
  lemma StuckWhen(c: Conn, e: Event)
    requires Right(c) && !Stuck(c) && Next(c, e).Running?
    ensures Stuck(Next(c, e).c) <==>
              e == SendChoke && !c.fast && !c.choking && !c.closed && c.server.Waiting? && !c.server.signalled
  {
    if !Idle(c, e) {
      match e
      case PeerRequest(r, k) => FreeingSignals(c, r);
      case PeerCancel(r) => FreeingSignals(c, r);
      case SendPiece(r) => FreeingSignals(c, r);
      case Pick(_) => ServerNotStuck(c, e);
      case Stop => ServerNotStuck(c, e);
      case Wake => ServerNotStuck(c, e);
      case FinishRead(_) => ServerNotStuck(c, e);
      case _ =>
    }
  }

  /** From then on no data is buffered and nothing is sent until the connection closes. */
  lemma StuckForGood(c: Conn, e: Event)
    requires Right(c) && Stuck(c) && !c.closed && !c.fast
    ensures Next(c, e).Running?
    ensures Next(c, e).c.closed || (Stuck(Next(c, e).c) && Next(c, e).answer == Silent)
  {
  }

  const FIRST := Request(0, 0, 2)
  const SECOND := Request(0, 2, 2)
  const FINE := Check(false, true, false)

  lemma Extend(c0: Conn, es: seq<Event>, c: Conn, e: Event) returns (es': seq<Event>, c': Conn)
    requires Run(c0, es).Running? && Run(c0, es).c == c && Next(c, e).Running?
    ensures Run(c0, es').Running? && Run(c0, es').c == c' && Next(c, e).c == c'
  {
    es', c' := es + [e], Next(c, e).c;
    assert es'[..|es'| - 1] == es;
  }

  // A first request is being read.
  lemma OneRequest(fast: bool) returns (es: seq<Event>)
    ensures var o := Run(NewConn(fast, 3), es);
            o.Running? && o.c == Conn(fast, 3, false, false, false, {FIRST}, {}, Reading(FIRST))
  {
    var c := NewConn(fast, 3);
    es, c := Extend(NewConn(fast, 3), [], c, SendUnchoke);
    es, c := Extend(NewConn(fast, 3), es, c, PeerRequest(FIRST, FINE));
    assert c == Conn(fast, 3, false, false, false, {FIRST}, {}, Looking);
    assert Bytes({}) == 0;
    es, c := Extend(NewConn(fast, 3), es, c, Pick(FIRST));
  }

  // It is ready, and a second waits for its memory.
  lemma TwoRequests() returns (es: seq<Event>)
    ensures var o := Run(NewConn(false, 3), es);
            o.Running? && o.c == Conn(false, 3, false, false, false, {SECOND}, {FIRST}, Waiting(SECOND, false))
  {
    es := OneRequest(false);
    var c := Run(NewConn(false, 3), es).c;
    es, c := Extend(NewConn(false, 3), es, c, FinishRead(true));
    assert c == Conn(false, 3, false, false, false, {}, {FIRST}, Looking);
    es, c := Extend(NewConn(false, 3), es, c, PeerRequest(SECOND, FINE));
    assert c == Conn(false, 3, false, false, false, {SECOND}, {FIRST}, Looking);
    BytesAfter({}, FIRST);
    assert {} + {FIRST} == {FIRST};
    es, c := Extend(NewConn(false, 3), es, c, Pick(SECOND));
  }

  /** The lost wakeup can be reached. */
  lemma LosesWakeup() returns (es: seq<Event>)
    ensures var o := Run(NewConn(false, 3), es); o.Running? && Stuck(o.c) && !o.c.closed
  {
    es := TwoRequests();
    var c: Conn;
    es, c := Extend(NewConn(false, 3), es, Run(NewConn(false, 3), es).c, SendChoke);
  }

  /** So can the panic. */
  lemma PanicsAfterClose() returns (es: seq<Event>)
    ensures Run(NewConn(true, 3), es) == Panicked
  {
    es := OneRequest(true);
    var c := Run(NewConn(true, 3), es).c;
    es, c := Extend(NewConn(true, 3), es, c, CloseTorrent);
    var es' := es + [FinishRead(false)];
    assert es'[..|es'| - 1] == es;
    es := es';
  }

  // ---- The connection ----------------------------------------------------------------------------

  // ---- The writer's turn -------------------------------------------------------------------------

  // May we upload at all, do we have everything, has the peer something we want, and how much data it
  // has sent us.
  datatype Policy = Policy(refuses: bool, seeding: bool, wanted: bool, bytesRead: nat)

  // How far uploads may run ahead of downloads.
  const UPLOAD_AHEAD := 102400
  // Lengths on the wire of CHOKE and UNCHOKE, and of a PIECE without its data.
  const CHOKE_LEN := 5
  const PIECE_HEADER_LEN := 13

  predicate UploadAllowed(y: Policy, written: int) {
    !y.refuses && (y.seeding || (y.wanted && written < y.bytesRead + UPLOAD_AHEAD))
  }

  // Why the turn ended: the policy forbids more, nothing is ready, the limiter imposes a delay, the
  // write buffer is full, or the panic over a chunk the limiter could never let through.
  datatype End = Choked | Emptied | Delayed(r: Request) | Full | Burst(r: Request)

  // What has been sent in this turn, the last chunk outermost.
  datatype Sent = Nothing | And(before: Sent, r: Request)

  function Lengths(sent: Sent): nat { if sent.Nothing? then 0 else Lengths(sent.before) + sent.r.length }

  function Size(sent: Sent): nat { if sent.Nothing? then 0 else Size(sent.before) + 1 }

  // The same on the wire.
  function Wire(sent: Sent): nat { PIECE_HEADER_LEN * Size(sent) + Lengths(sent) }

  predicate Has(sent: Sent, r: Request) { sent.And? && (sent.r == r || Has(sent.before, r)) }

  // Each chunk went out while the policy and the limiter allowed it.
  ghost predicate Permitted(may: nat -> bool, sent: Sent, granted: nat -> nat) {
    sent.And? ==>
      && Permitted(may, sent.before, granted)
      && may(Lengths(sent.before))
      && Lengths(sent) <= granted(Size(sent.before))
  }

  // Whether more may go out after so many bytes of this turn, `written` having gone out before it.
  function Allows(y: Policy, written: nat): nat -> bool { n => UploadAllowed(y, written + n) }

  /** The policy in plain numbers. Nothing goes out that may not, nor to a peer that has nothing for us
      unless we have everything; and without that, data goes out only while less than 100 KiB ahead of
      what the peer has sent. More may go out exactly if none of these forbids it. */
  lemma PermittedInNumbers(y: Policy, written: nat, sent: Sent, granted: nat -> nat)
    requires Permitted(Allows(y, written), sent, granted)
    ensures y.refuses || (!y.seeding && !y.wanted) ==> sent.Nothing?
    ensures !y.seeding && sent.And? ==> written + Lengths(sent) < y.bytesRead + 100 * 1024 + sent.r.length
    ensures sent.And? ==> Lengths(sent) <= granted(Size(sent) - 1)
    ensures Allows(y, written)(Lengths(sent)) <==>
              !y.refuses && (y.seeding || (y.wanted && written + Lengths(sent) < y.bytesRead + 100 * 1024))
  {
    var n := Lengths(sent);
    assert Allows(y, written)(n) == UploadAllowed(y, written + n);
    if sent.And? {
      var m := Lengths(sent.before);
      assert Allows(y, written)(m) == UploadAllowed(y, written + m);
    }
  }

  // What was ready has been sent or is still ready.
  ghost predicate Kept(before: set<Request>, ready: set<Request>, sent: Sent) {
    forall r :: r in before <==> r in ready || Has(sent, r)
  }

  lemma KeptMore(before: set<Request>, ready: set<Request>, sent: Sent, r: Request)
    requires Kept(before, ready, sent) && r in ready
    ensures Kept(before, ready - {r}, And(sent, r)) && |ready - {r}| < |ready|
  {
    forall q ensures q in before <==> q in ready - {r} || Has(And(sent, r), q) {
    }
  }

  // What an end without a choke means.
  ghost predicate EndRight(end: End, ready: set<Request>, sent: Sent, burst: nat, granted: nat -> nat, buffered: nat) {
    && (end == Emptied ==> ready == {})
    && (end.Delayed? ==> end.r in ready && Lengths(sent) + end.r.length > granted(Size(sent)))
    && (end.Burst? ==> end.r in ready && end.r.length > burst)
    && (end == Full ==> buffered >= HIGH_WATER)
  }

  // Requests longer than the limiter's burst are turned away on arrival.
  ghost predicate Judged(es: seq<Event>, burst: nat) {
    forall e <- es :: e.PeerRequest? && e.r.length > burst ==> e.check.tooLong
  }

  // What the server does takes nothing new into the queue.
  lemma ServerQueue(c: Conn, q: Request, r: Request)
    ensures GiveUp(c, q).Running? ==> (r in Queued(GiveUp(c, q).c) ==> r in Queued(c))
    ensures ReadFailed(c, q).Running? ==> (r in Queued(ReadFailed(c, q).c) ==> r in Queued(c))
    ensures r in Queued(ReadDone(c, q)) ==> r in Queued(c)
  {
  }

  lemma QueuedAfter(c: Conn, e: Event, r: Request)
    requires Next(c, e).Running? && r in Queued(Next(c, e).c)
    ensures r in Queued(c) || (e.PeerRequest? && e.r == r && !e.check.tooLong)
  {
    if !Idle(c, e) {
      match e
      case Pick(q) => AllocQueue(c, q, r);
      case Wake =>
        AllocQueue(c, c.server.r, r);
        ServerQueue(c, c.server.r, r);
      case FinishRead(_) => ServerQueue(c, c.server.r, r);
      case PeerRequest(q, k) => RequestQueue(c, q, k, r);
      case _ =>
    }
  }

  lemma AllocQueue(c: Conn, q: Request, r: Request)
    ensures WaitForDataAlloc(c, q).Running? ==> (r in Queued(WaitForDataAlloc(c, q).c) ==> r in Queued(c))
  {
    ServerQueue(c, q, r);
  }

  lemma RequestQueue(c: Conn, q: Request, k: Check, r: Request)
    requires OnReadRequest(c, q, k).Running? && r in Queued(OnReadRequest(c, q, k).c)
    ensures r in Queued(c) || (q == r && !k.tooLong)
  {
  }

  /** So the writer never meets one: no queued request is longer than the burst, and its panic is out of
      reach in every run. */
  lemma {:induction false} QueuedFit(fast: bool, maxAlloc: nat, es: seq<Event>, burst: nat, r: Request)
    requires Judged(es, burst) && Run(NewConn(fast, maxAlloc), es).Running?
    requires r in Queued(Run(NewConn(fast, maxAlloc), es).c)
    ensures r.length <= burst
    decreases |es|
  {
    if es != [] {
      var before := es[..|es| - 1];
      RunsAreRight(fast, maxAlloc, before);
      var c := Run(NewConn(fast, maxAlloc), before).c;
      QueuedAfter(c, es[|es| - 1], r);
      if r in Queued(c) {
        QueuedFit(fast, maxAlloc, before, burst, r);
      }
    }
  }

  class PeerConn {
    const fast: bool
    const maxAlloc: nat
    var choking: bool
    var closed: bool
    var torrentClosed: bool
    var unread: set<Request>
    var ready: map<Request, seq<nat>>
    var server: Server

    ghost function State(): Conn
      reads this
    {
      Conn(fast, maxAlloc, choking, closed, torrentClosed, unread, ready.Keys, server)
    }

    // Buffered data has the length that was asked for.
    ghost predicate Measured()
      reads this
    {
      forall r <- ready :: |ready[r]| == r.length
    }

    ghost predicate Valid()
      reads this
    {
      Right(State()) && Measured()
    }

    constructor (fast: bool, maxAlloc: nat)
      ensures Valid() && State() == NewConn(fast, maxAlloc)
    {
      this.fast, this.maxAlloc := fast, maxAlloc;
      choking, closed, torrentClosed := true, false, false;
      unread, ready, server := {}, map[], Stopped;
      new;
      RunsAreRight(fast, maxAlloc, []);
      assert State() == NewConn(fast, maxAlloc);
    }

    predicate HavePeerRequest(r: Request)
      reads this
    {
      r in unread || r in ready
    }

    method DeletePeerRequest(r: Request)
      requires Measured()
      modifies this`unread, this`ready, this`server
      ensures Measured() && State() == Forgotten(old(State()), r)
    {
      unread := unread - {r};
      if r in ready {
        var b := ready[r];
        ready := ready - {r};
        if |b| > 0 && server.Waiting? {
          server := server.(signalled := true);
        }
      }
      assert ready.Keys == old(ready.Keys) - {r};
    }

    method SendChoke()
      requires Measured()
      modifies this`choking, this`unread, this`ready
      ensures Measured() && State() == Choke(old(State()))
      ensures fast || old(choking) ==> ready == old(ready)
    {
      if !choking {
        choking := true;
        if !fast {
          unread, ready := {}, map[];
        }
      }
    }

    method BestReject(r: Request) returns (answer: Answer)
      requires Measured()
      modifies this`choking, this`unread, this`ready, this`server
      ensures Measured() && Running(State(), answer) == UseBestReject(old(State()), r)
    {
      if fast {
        DeletePeerRequest(r);
        answer := To(r);
      } else {
        SendChoke();
        answer := Silent;
      }
    }

    method JudgeRequest(r: Request, k: Check) returns (v: Verdict)
      ensures v == Judge(State(), r, k)
    {
      if HavePeerRequest(r) {
        v := if fast then Disconnect else Ignore;
      } else if choking || |unread| + |ready.Keys| >= LOCAL_CLIENT_REQQ {
        v := if fast then Refuse else Ignore;
      } else if k.tooLong {
        v := if fast then Refuse else Disconnect;
      } else if !k.have || k.overflows {
        v := Disconnect;
      } else {
        v := Accept;
      }
    }

    method ReceiveRequest(r: Request, k: Check) returns (answer: Answer)
      requires Valid() && !closed
      modifies this`closed, this`unread, this`ready, this`server
      ensures Valid() && Running(State(), answer) == OnReadRequest(old(State()), r, k)
    {
      ghost var s := State();
      PeerRequestRight(s, r, k);
      var v := JudgeRequest(r, k);
      answer := Silent;
      match v {
        case Ignore =>
        case Refuse =>
          DeletePeerRequest(r);
          answer := To(r);
        case Disconnect =>
          closed := true;
        case Accept =>
          Enqueue(r);
      }
      assert State() == OnReadRequest(s, r, k).c;
    }

    method Enqueue(r: Request)
      modifies this`unread, this`server
      ensures State() == Accepted(old(State()), r)
    {
      unread := unread + {r};
      if server.Stopped? {
        server := Looking;
      }
    }

    method ReceiveCancel(r: Request) returns (answer: Answer)
      requires Valid() && !closed
      modifies this`unread, this`ready, this`server
      ensures Valid() && Running(State(), answer) == OnPeerSentCancel(old(State()), r)
    {
      ForgetRight(State(), r);
      answer := Silent;
      if HavePeerRequest(r) {
        DeletePeerRequest(r);
        answer := if fast then To(r) else Silent;
      }
    }

    method DataBuffered() returns (n: nat)
      ensures n == Bytes(ready.Keys)
    {
      n := 0;
      var todo := ready.Keys;
      while todo != {}
        invariant todo <= ready.Keys && n + Bytes(todo) == Bytes(ready.Keys)
        decreases |todo|
      {
        var r :| r in todo;
        BytesWithout(todo, r);
        n := n + r.length;
        todo := todo - {r};
      }
    }

    // The start of serving a request, up to where the lock is released or the request given up.
    method Serve(r: Request) returns (answer: Answer)
      requires Valid() && r !in ready
      modifies this`choking, this`unread, this`ready, this`server
      ensures Valid() && Running(State(), answer) == WaitForDataAlloc(old(State()), r)
    {
      ghost var s := State();
      AllocRight(s, r);
      answer := Silent;
      if r.length > maxAlloc {
        if r in unread {
          answer := BestReject(r);
        }
        server := Looking;
      } else {
        var buffered := DataBuffered();
        server := if buffered + r.length <= maxAlloc then Reading(r) else Waiting(r, false);
      }
      assert Running(State(), answer) == WaitForDataAlloc(s, r);
    }

    // The rest of serving it, once the data was read and the lock taken again.
    method FinishServing(data: seq<nat>)
      requires Valid() && server.Reading? && |data| == server.r.length
      modifies this`unread, this`ready, this`server
      ensures Valid() && State() == ReadDone(old(State()), old(server).r) && old(server).r !in unread
    {
      ghost var s := State();
      var r := server.r;
      ReadDoneRight(s, r);
      if r in unread {
        unread := unread - {r};
        ready := ready[r := data];
        assert ready.Keys == s.ready + {r};
      }
      server := Looking;
      assert State() == ReadDone(s, r);
    }

    method FailServing() returns (panicked: bool, answer: Answer)
      requires Valid() && server.Reading?
      modifies this`choking, this`unread, this`ready, this`server
      ensures panicked <==> torrentClosed && old(server).r in old(unread)
      ensures !panicked ==> Valid() && Running(State(), answer) == ReadFailed(old(State()), old(server).r)
    {
      ghost var s := State();
      var r := server.r;
      ReadFailedRight(s, r);
      answer := Silent;
      if !torrentClosed {
        answer := BestReject(r);
      }
      panicked := r in unread;
      server := Looking;
      assert !panicked ==> Running(State(), answer) == ReadFailed(s, r);
    }

    method Send(r: Request) returns (data: seq<nat>)
      requires Valid() && r in ready
      modifies this`ready, this`server
      ensures Valid() && Running(State(), To(r)) == SendChunk(old(State()), r)
      ensures data == old(ready)[r] && |data| == r.length
      ensures ready.Keys == old(ready.Keys) - {r} && unread == old(unread) && choking == old(choking)
    {
      ghost var s := State();
      SendRight(s, r);
      data := ready[r];
      ready := ready - {r};
      assert ready.Keys == s.ready - {r};
      if |data| > 0 && server.Waiting? {
        server := server.(signalled := true);
      }
      assert Running(State(), To(r)) == SendChunk(s, r);
    }

    /** The writer's turn: unchoke, and send as long as the policy, the rate limiter and the write
        buffer allow; choke when the policy no longer does. `may` is what the policy `Allows`, and
        `granted(k)` the bytes the limiter has let through by the k-th reservation. */
    method Upload(may: nat -> bool, burst: nat, granted: nat -> nat, buffered: nat)
      returns (end: End, sent: Sent, buffered': nat)
      requires Valid()
      modifies this`choking, this`unread, this`ready, this`server
      ensures Valid() && Permitted(may, sent, granted)
      ensures sent.Nothing? && end == Choked ==> State() == Choke(old(State()))
      ensures end == Choked ==> !may(Lengths(sent))
      ensures end != Choked && end != Full ==> may(Lengths(sent))
      // Without a choke nothing is lost: what was ready is sent or still ready.
      ensures end != Choked || fast ==> unread == old(unread) && Kept(old(ready.Keys), ready.Keys, sent)
      ensures end == Choked <==> choking
      ensures end == Choked && !fast ==> unread == {} && ready == map[]
      ensures EndRight(end, ready.Keys, sent, burst, granted, buffered')
      ensures end != Choked ==> buffered' == buffered + Wire(sent) + if old(choking) then CHOKE_LEN else 0
    {
      end, sent, buffered' := Choked, Nothing, buffered;
      if !may(Lengths(sent)) {
        StopSending();
        return;
      }
      end, sent, buffered' := SendWhile(may, burst, granted, buffered);
      if end == Choked {
        StopSending();
      }
    }

    // Sends until the turn ends, up to the choke that ends it when the policy does.
    method SendWhile(may: nat -> bool, burst: nat, granted: nat -> nat, buffered: nat)
      returns (end: End, sent: Sent, buffered': nat)
      requires Valid() && may(Lengths(Nothing))
      modifies this`choking, this`ready, this`server
      ensures Valid() && !choking && Permitted(may, sent, granted) && Kept(old(ready.Keys), ready.Keys, sent)
      ensures end == Choked ==> sent.And? && !may(Lengths(sent))
      ensures end != Choked && end != Full ==> may(Lengths(sent))
      ensures EndRight(end, ready.Keys, sent, burst, granted, buffered')
      ensures buffered' == buffered + Wire(sent) + if old(choking) then CHOKE_LEN else 0
    {
      ghost var ready0 := ready.Keys;
      end, sent, buffered' := SendNext(may, Nothing, burst, granted, buffered, ready0);
      if end != Choked {
        return;
      }
      while may(Lengths(sent))
        invariant Valid() && !choking && Permitted(may, sent, granted) && Kept(ready0, ready.Keys, sent)
        invariant end == Choked && sent.And?
        invariant buffered' == buffered + Wire(sent) + if old(choking) then CHOKE_LEN else 0
        decreases |ready.Keys|
      {
        end, sent, buffered' := SendNext(may, sent, burst, granted, buffered', ready0);
        if end != Choked {
          return;
        }
      }
    }

    method StopSending()
      requires Valid()
      modifies this`choking, this`unread, this`ready
      ensures Valid() && State() == Choke(old(State())) && choking
      ensures if fast then unread == old(unread) && ready == old(ready) else unread == {} && ready == map[]
    {
      ChokeRight(State());
      if !choking {
        SendChoke();
      }
    }

    // Unchokes the peer if need be and sends one chunk, unless that has to stop; `Choked` stands for
    // going on.
    method SendNext(ghost may: nat -> bool, sent: Sent, burst: nat, granted: nat -> nat,
                    buffered: nat, ghost before: set<Request>)
      returns (end: End, sent': Sent, buffered': nat)
      requires Valid() && Permitted(may, sent, granted) && may(Lengths(sent))
      requires Kept(before, ready.Keys, sent)
      modifies this`choking, this`ready, this`server
      ensures Valid() && !choking && Permitted(may, sent', granted) && Kept(before, ready.Keys, sent')
      ensures EndRight(end, ready.Keys, sent', burst, granted, buffered')
      ensures end == Choked ==> sent'.And? && |ready.Keys| < |old(ready.Keys)|
      ensures buffered' - Wire(sent') == buffered - Wire(sent) + if old(choking) then CHOKE_LEN else 0
      ensures end != Choked && end != Full ==> sent' == sent
    {
      end, sent', buffered' := Choked, sent, buffered;
      if choking {
        Unchoke();
        buffered' := buffered' + CHOKE_LEN;
        if buffered' >= HIGH_WATER {
          end := Full;
          return;
        }
      }
      if ready == map[] {
        end := Emptied;
        return;
      }
      var r :| r in ready;
      if r.length > burst {
        end := Burst(r);
        return;
      }
      if Lengths(sent) + r.length > granted(Size(sent)) {
        end := Delayed(r);
        return;
      }
      KeptMore(before, ready.Keys, sent, r);
      var data := Send(r);
      sent' := And(sent, r);
      buffered' := buffered' + PIECE_HEADER_LEN + |data|;
      if buffered' >= HIGH_WATER {
        end := Full;
      }
    }

    method Unchoke()
      requires Valid()
      modifies this`choking
      ensures Valid() && State() == old(State()).(choking := false)
    {
      choking := false;
    }
  }
}
