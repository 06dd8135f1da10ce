/** Reference-counted broadcast messages, from the broadcast to the last completed write.

    A `message` is a handle to a shared, counted block.  `channel::send` copies one handle for
    every member session and posts it to that session; the session moves it into its write queue
    and destroys it when the write completes, when the socket is already closed, or when the
    session itself is destroyed.  This module follows the counts over all interleavings.
 */
module Broadcast {
  import opened Wrappers
  import Q = WriteQueue

  /** sizeof(impl): a buffer descriptor (pointer and length) and an atomic counter. */
  const IMPL_SIZE: nat := 24

  /** Blocks are named by the order of their allocation. */
  type Buf = nat

  /** A live block: its reference count and the length of the copied text behind its header. */
  datatype Impl = Impl(count: nat, size: nat)

  /** A deallocation: which block, and the size passed to the allocator, in units of `impl`. */
  datatype Block = Block(buf: Buf, units: nat)

  /** `units[b]` is the number of units obtained for block `b`. */
  datatype Heap = Heap(live: map<Buf, Impl>, units: seq<nat>, freed: multiset<Block>)

  // ---------------------------------------------------------------------------
  // message: construct, copy, destroy
  // ---------------------------------------------------------------------------

  function Units(implSize: nat, n: nat): nat
    requires implSize > 0
  {
    (2 * implSize + n - 1) / implSize
  }

  /** The allocation formula is the least number of `impl`-sized units that holds the header and the text. */
  lemma UnitsFitExactly(implSize: nat, n: nat, u: nat)
    requires implSize > 0
    ensures implSize + n <= u * implSize <==> Units(implSize, n) <= u
  {
    var x := 2 * implSize + n - 1;
    var d := x / implSize;
    assert x == d * implSize + x % implSize;
    if d <= u {
      assert d * implSize <= u * implSize;
    } else {
      assert (u + 1) * implSize <= d * implSize;
      assert (u + 1) * implSize == u * implSize + implSize;
    }
  }

  function Construct(h: Heap, n: nat): Heap {
    Heap(h.live[|h.units| := Impl(1, n)], h.units + [Units(IMPL_SIZE, n)], h.freed)
  }

  /** Copying a handle increments the count; `None` is an access to a block that is not live. */
  function Copy(h: Heap, b: Buf): Option<Heap> {
    if b !in h.live then None
    else Some(h.(live := h.live[b := h.live[b].(count := h.live[b].count + 1)]))
  }

  function Destroy(h: Heap, b: Buf): Option<Heap> {
    if b !in h.live || h.live[b].count == 0 then None
    else
      var p := h.live[b].(count := h.live[b].count - 1);
      if p.count == 0 then
        Some(h.(live := h.live - {b}, freed := h.freed + multiset{Block(b, Units(IMPL_SIZE, p.size))}))
      else Some(h.(live := h.live[b := p]))
  }

  function DestroyAll(h: Heap, s: seq<Buf>): Option<Heap>
    decreases |s|
  {
    if s == [] then Some(h)
    else match Destroy(h, s[0])
      case None => None
      case Some(h') => DestroyAll(h', s[1..])
  }

  /** The heap agrees with the multiset of all handles: a block is live exactly while some handle
      refers to it, its count is the number of handles, and a block that is no longer live was
      given back exactly once, with the size it was allocated with. */
  ghost predicate Agrees(h: Heap, handles: multiset<Buf>) {
    && (forall b :: b in handles ==> b in h.live)
    && (forall b :: b in h.live ==> h.live[b].count == handles[b] > 0)
    && (forall b :: b in h.live ==> b < |h.units| && h.units[b] == Units(IMPL_SIZE, h.live[b].size))
    && (forall b: Buf, u: nat :: h.freed[Block(b, u)] ==
                       if b < |h.units| && b !in h.live && u == h.units[b] then 1 else 0)
  }

  lemma ConstructAgrees(h: Heap, handles: multiset<Buf>, n: nat)
    requires Agrees(h, handles)
    ensures |h.units| !in h.live
    ensures Agrees(Construct(h, n), handles + multiset{|h.units|})
  {
  }

  lemma CopyAgrees(h: Heap, handles: multiset<Buf>, b: Buf)
    requires Agrees(h, handles) && b in handles
    ensures Copy(h, b).Some? && Agrees(Copy(h, b).value, handles + multiset{b})
  {
  }

  lemma DestroyAgrees(h: Heap, handles: multiset<Buf>, b: Buf)
    requires Agrees(h, handles) && b in handles
    ensures Destroy(h, b).Some? && Agrees(Destroy(h, b).value, handles - multiset{b})
  {
  }

  lemma {:induction false} DestroyAllAgrees(h: Heap, handles: multiset<Buf>, s: seq<Buf>)
    requires Agrees(h, handles) && multiset(s) <= handles
    ensures DestroyAll(h, s).Some? && Agrees(DestroyAll(h, s).value, handles - multiset(s))
    decreases |s|
  {
    if s == [] {
      assert handles - multiset(s) == handles;
    } else {
      assert s == [s[0]] + s[1..];
      DestroyAgrees(h, handles, s[0]);
      DestroyAllAgrees(Destroy(h, s[0]).value, handles - multiset{s[0]}, s[1..]);
      assert handles - multiset{s[0]} - multiset(s[1..]) == handles - multiset(s);
    }
  }

  // ---------------------------------------------------------------------------
  // The system: local handles, posted sends, and session queues
  // ---------------------------------------------------------------------------

  /** `posted` are the handles bound into do_send handlers that have not run; `sent` and
      `dropped` record everything posted to the session and everything discarded on a closed socket. */
  datatype Session = Session(
    posted: seq<Buf>,
    queue: Q.Queue<Buf>,
    gone: bool,
    sent: multiset<Buf>,
    dropped: multiset<Buf>)

  datatype System = System(heap: Heap, locals: multiset<Buf>, sessions: seq<Session>)

  datatype SessionEvent =
    | RunSend(k: nat)               // the k-th posted do_send runs
    | Written(k: nat, ok: bool)     // the k-th outstanding write completes
    | CloseSocket
    | Release                       // the last owner of the session lets go; see `FailedQueueStaysLive`

  datatype Event =
    | Connect                       // a session is created
    | Make(n: nat)                  // a message is constructed from n bytes
    | CopyLocal(b: Buf)             // a handle is copied, as an argument passed by value
    | DropLocal(b: Buf)             // a local handle is destroyed
    | Post(b: Buf, i: nat)          // a local handle is moved into a do_send posted to session i
    | At(i: nat, e: SessionEvent)

  /** A session's new state with the handles it destroys; or the event cannot occur; or the handler
      indexes outside its queue. */
  datatype SessionOutcome = Next(se: Session, destroyed: seq<Buf>) | NoSuchEvent | BadIndex

  datatype Outcome = State(s: System) | Impossible | Undefined

  const START := System(Heap(map[], [], multiset{}), multiset{}, [])

  function NewSession(): Session {
    Session([], Q.Fresh(), false, multiset{}, multiset{})
  }

  function PostTo(se: Session, b: Buf): Session {
    se.(posted := se.posted + [b], sent := se.sent + multiset{b})
  }

  /** do_send: the posted handle is moved into the queue, or destroyed when the socket is closed. */
  function DoSend(se: Session, k: nat): SessionOutcome
    requires k < |se.posted|
  {
    var b := se.posted[k];
    var se1 := se.(posted := se.posted[..k] + se.posted[k + 1..]);
    if se.queue.open then Next(se1.(queue := Q.Accept(se.queue, b)), [])
    else Next(se1.(dropped := se.dropped + multiset{b}), [b])
  }

  /** on_write: after a successful write the handle at the captured index is destroyed. */
  function OnWrite(se: Session, k: nat, ok: bool): SessionOutcome
    requires k < |se.queue.writes|
  {
    match Q.Step(se.queue, Q.Complete(k, ok))
    case Impossible => NoSuchEvent
    case Undefined => BadIndex
    case State(q') =>
      Next(se.(queue := q'), if ok then [se.queue.mq[se.queue.writes[k].idx]] else [])
  }

  /** A destroyed session destroys its queue; only its deliveries stay on record. */
  function Gone(se: Session): Session {
    var d := se.queue.delivered;
    se.(gone := true, dropped := se.dropped + multiset(se.queue.mq), queue := Q.Queue([], false, [], false, d, d, d))
  }

  function SessionStep(se: Session, e: SessionEvent): SessionOutcome {
    match e
    case RunSend(k) => if k < |se.posted| then DoSend(se, k) else NoSuchEvent
    case Written(k, ok) => if k < |se.queue.writes| then OnWrite(se, k, ok) else NoSuchEvent
    case CloseSocket => Next(se.(queue := se.queue.(open := false)), [])
    case Release =>
      // every posted handler and every outstanding write owns the session
      if se.posted == [] && se.queue.writes == [] then Next(Gone(se), se.queue.mq) else NoSuchEvent
  }

  function Settle(h: Option<Heap>, locals: multiset<Buf>, sessions: seq<Session>): Outcome {
    match h
    case None => Undefined
    case Some(h') => State(System(h', locals, sessions))
  }

  function Step(s: System, e: Event): Outcome {
    match e
    case Connect => State(System(s.heap, s.locals, s.sessions + [NewSession()]))
    case Make(n) => State(System(Construct(s.heap, n), s.locals + multiset{|s.heap.units|}, s.sessions))
    case CopyLocal(b) =>
      if b !in s.locals then Impossible
      else Settle(Copy(s.heap, b), s.locals + multiset{b}, s.sessions)
    case DropLocal(b) =>
      if b !in s.locals then Impossible
      else Settle(Destroy(s.heap, b), s.locals - multiset{b}, s.sessions)
    case Post(b, i) =>
      if b !in s.locals || i >= |s.sessions| || s.sessions[i].gone then Impossible
      else State(System(s.heap, s.locals - multiset{b}, s.sessions[i := PostTo(s.sessions[i], b)]))
    case At(i, se) =>
      if i >= |s.sessions| then Impossible
      else match SessionStep(s.sessions[i], se)
        case NoSuchEvent => Impossible
        case BadIndex => Undefined
        case Next(se', destroyed) => Settle(DestroyAll(s.heap, destroyed), s.locals, s.sessions[i := se'])
  }

  function Run(s: System, es: seq<Event>): Outcome
    decreases |es|
  {
    if es == [] then State(s)
    else match Step(s, es[0])
      case State(s') => Run(s', es[1..])
      case Impossible => Impossible
      case Undefined => Undefined
  }

  // ---------------------------------------------------------------------------
  // Invariant over all interleavings
  // ---------------------------------------------------------------------------

  function Held(se: Session): multiset<Buf> {
    multiset(se.posted) + multiset(se.queue.mq)
  }

  function Total(hs: seq<multiset<Buf>>): multiset<Buf>
    decreases |hs|
  {
    if hs == [] then multiset{} else Total(hs[..|hs| - 1]) + hs[|hs| - 1]
  }

  function HeldBySession(ss: seq<Session>): (hs: seq<multiset<Buf>>)
    ensures |hs| == |ss| && forall i :: 0 <= i < |ss| ==> hs[i] == Held(ss[i])
  {
    seq(|ss|, i requires 0 <= i < |ss| => Held(ss[i]))
  }

  function HeldBy(ss: seq<Session>): multiset<Buf> {
    Total(HeldBySession(ss))
  }

  /** Every handle in the system: in local variables, in posted handlers, and in queues. */
  function Handles(s: System): multiset<Buf> {
    s.locals + HeldBy(s.sessions)
  }

  /** Everything posted to a session is still posted, or dropped, or was accepted by its queue. */
  ghost predicate SessionInv(se: Session) {
    && Q.Inv(se.queue) && Q.Conserved(se.queue)
    && se.sent == multiset(se.posted) + se.dropped + multiset(se.queue.accepted)
    && (se.gone ==> se.posted == [] && se.queue.mq == [])
  }

  ghost predicate SessionsInv(ss: seq<Session>) {
    forall i :: 0 <= i < |ss| ==> SessionInv(ss[i])
  }

  ghost predicate Inv(s: System) {
    Agrees(s.heap, Handles(s)) && SessionsInv(s.sessions)
  }

  lemma {:induction false} TotalUpdateAt(hs: seq<multiset<Buf>>, i: nat, h: multiset<Buf>, b: Buf)
    requires i < |hs|
    ensures Total(hs[i := h])[b] + hs[i][b] == Total(hs)[b] + h[b]
    ensures hs[i][b] <= Total(hs)[b]
    decreases |hs|
  {
    var n := |hs| - 1;
    if i == n {
      assert hs[i := h][..n] == hs[..n];
    } else {
      assert hs[i := h][..n] == hs[..n][i := h];
      TotalUpdateAt(hs[..n], i, h, b);
    }
  }

  lemma HeldByUpdateAt(ss: seq<Session>, i: nat, se: Session, b: Buf)
    requires i < |ss|
    ensures HeldBy(ss[i := se])[b] + Held(ss[i])[b] == HeldBy(ss)[b] + Held(se)[b]
    ensures Held(ss[i])[b] <= HeldBy(ss)[b]
  {
    TotalUpdateAt(HeldBySession(ss), i, Held(se), b);
    assert HeldBySession(ss[i := se]) == HeldBySession(ss)[i := Held(se)];
  }

  lemma HandlesUpdate(s: System, i: nat, se: Session, h: Heap, out: multiset<Buf>)
    requires i < |s.sessions| && Held(s.sessions[i]) == Held(se) + out
    ensures out <= Handles(s)
    ensures Handles(System(h, s.locals, s.sessions[i := se])) == Handles(s) - out
  {
    var s' := System(h, s.locals, s.sessions[i := se]);
    forall b: Buf
      ensures Handles(s')[b] + out[b] == Handles(s)[b]
    {
      HeldByUpdateAt(s.sessions, i, se, b);
    }
  }

  lemma SplitAt<T>(s: seq<T>, k: nat)
    requires k < |s|
    ensures multiset(s) == multiset(s[..k] + s[k + 1..]) + multiset{s[k]}
  {
    assert s == s[..k] + [s[k]] + s[k + 1..];
  }

  lemma MoveOne(p: multiset<Buf>, d: multiset<Buf>, a: multiset<Buf>, b: Buf)
    ensures (p + multiset{b}) + d + a == p + (d + multiset{b}) + a
    ensures (p + multiset{b}) + d + a == p + d + (a + multiset{b})
  {
  }

  lemma DoSendKeepsInv(se: Session, k: nat)
    requires SessionInv(se) && k < |se.posted|
    ensures DoSend(se, k).Next? && SessionInv(DoSend(se, k).se)
    ensures Held(se) == Held(DoSend(se, k).se) + multiset(DoSend(se, k).destroyed)
  {
    var b := se.posted[k];
    var posted := se.posted[..k] + se.posted[k + 1..];
    SplitAt(se.posted, k);
    MoveOne(multiset(posted), se.dropped, multiset(se.queue.accepted), b);
    if se.queue.open {
      var q' := Q.Accept(se.queue, b);
      Q.SendKeepsInv(se.queue, b);
      Q.StepConserves(se.queue, Q.Send(b));
      assert multiset(q'.accepted) == multiset(se.queue.accepted) + multiset{b};
      assert multiset(q'.mq) == multiset(se.queue.mq) + multiset{b};
    }
  }

  lemma OnWriteKeepsInv(se: Session, k: nat, ok: bool)
    requires SessionInv(se) && k < |se.queue.writes|
    ensures OnWrite(se, k, ok).Next? && SessionInv(OnWrite(se, k, ok).se)
    ensures Held(se) == Held(OnWrite(se, k, ok).se) + multiset(OnWrite(se, k, ok).destroyed)
  {
    var e := Q.Complete(k, ok);
    Q.StepKeepsInv(se.queue, e);
    Q.StepConserves(se.queue, e);
    if ok {
      Q.FinishTakesOne(se.queue);
      assert multiset([se.queue.writes[0].msg]) == multiset{se.queue.writes[0].msg};
    } else {
      Q.FailKeepsInv(se.queue);
    }
  }

  /** A session never indexes outside its queue, keeps its invariant, and destroys exactly the handles it gives up. */
  lemma SessionStepKeepsInv(se: Session, e: SessionEvent)
    requires SessionInv(se)
    ensures SessionStep(se, e) != BadIndex
    ensures SessionStep(se, e).Next? ==> SessionInv(SessionStep(se, e).se)
    ensures SessionStep(se, e).Next? ==>
      Held(se) == Held(SessionStep(se, e).se) + multiset(SessionStep(se, e).destroyed)
  {
    match e
    case RunSend(k) => if k < |se.posted| { DoSendKeepsInv(se, k); }
    case Written(k, ok) => if k < |se.queue.writes| { OnWriteKeepsInv(se, k, ok); }
    case CloseSocket =>
    case Release =>
  }

  lemma PostedKeepsInv(se: Session, b: Buf)
    requires SessionInv(se) && !se.gone
    ensures SessionInv(PostTo(se, b))
  {
    MoveOne(multiset(se.posted), se.dropped, multiset(se.queue.accepted), b);
    assert multiset(se.posted + [b]) == multiset(se.posted) + multiset{b};
  }

  lemma ReplaceKeepsSessions(ss: seq<Session>, i: nat, se: Session)
    requires SessionsInv(ss) && i < |ss| && SessionInv(se)
    ensures SessionsInv(ss[i := se])
  {
  }

  lemma PostKeepsInv(s: System, b: Buf, i: nat)
    requires Inv(s) && b in s.locals && i < |s.sessions| && !s.sessions[i].gone
    ensures Inv(System(s.heap, s.locals - multiset{b}, s.sessions[i := PostTo(s.sessions[i], b)]))
  {
    var se := PostTo(s.sessions[i], b);
    var s' := System(s.heap, s.locals - multiset{b}, s.sessions[i := se]);
    PostKeepsHandles(s, b, i);
    PostedKeepsInv(s.sessions[i], b);
    ReplaceKeepsSessions(s.sessions, i, se);
    assert Agrees(s'.heap, Handles(s'));
  }

  lemma PostKeepsHandles(s: System, b: Buf, i: nat)
    requires b in s.locals && i < |s.sessions|
    ensures Handles(System(s.heap, s.locals - multiset{b}, s.sessions[i := PostTo(s.sessions[i], b)])) == Handles(s)
  {
    var se := PostTo(s.sessions[i], b);
    var s' := System(s.heap, s.locals - multiset{b}, s.sessions[i := se]);
    assert Held(se) == Held(s.sessions[i]) + multiset{b};
    forall c: Buf
      ensures Handles(s')[c] == Handles(s)[c]
    {
      HeldByUpdateAt(s.sessions, i, se, c);
    }
  }

  lemma AtKeepsInv(s: System, i: nat, se': Session, destroyed: seq<Buf>)
    requires Inv(s) && i < |s.sessions| && SessionInv(se')
    requires Held(s.sessions[i]) == Held(se') + multiset(destroyed)
    ensures DestroyAll(s.heap, destroyed).Some?
    ensures Inv(System(DestroyAll(s.heap, destroyed).value, s.locals, s.sessions[i := se']))
  {
    HandlesUpdate(s, i, se', s.heap, multiset(destroyed));
    DestroyAllAgrees(s.heap, Handles(s), destroyed);
    var h' := DestroyAll(s.heap, destroyed).value;
    HandlesUpdate(s, i, se', h', multiset(destroyed));
    ReplaceKeepsSessions(s.sessions, i, se');
  }

  lemma LocalKeepsInv(s: System, h: Heap, locals: multiset<Buf>, handles: multiset<Buf>)
    requires Inv(s) && Agrees(h, handles) && handles == locals + HeldBy(s.sessions)
    ensures Inv(System(h, locals, s.sessions))
  {
    assert Handles(System(h, locals, s.sessions)) == handles;
  }

  lemma AddLocal(s: System, h: Heap, b: Buf)
    requires Inv(s) && Agrees(h, Handles(s) + multiset{b})
    ensures Inv(System(h, s.locals + multiset{b}, s.sessions))
  {
    assert Handles(s) + multiset{b} == s.locals + multiset{b} + HeldBy(s.sessions);
    LocalKeepsInv(s, h, s.locals + multiset{b}, Handles(s) + multiset{b});
  }

  lemma RemoveLocal(s: System, h: Heap, b: Buf)
    requires Inv(s) && b in s.locals && Agrees(h, Handles(s) - multiset{b})
    ensures Inv(System(h, s.locals - multiset{b}, s.sessions))
  {
    assert Handles(s) - multiset{b} == s.locals - multiset{b} + HeldBy(s.sessions);
    LocalKeepsInv(s, h, s.locals - multiset{b}, Handles(s) - multiset{b});
  }

  lemma ConnectKeepsInv(s: System)
    requires Inv(s)
    ensures Inv(System(s.heap, s.locals, s.sessions + [NewSession()]))
  {
    var s' := System(s.heap, s.locals, s.sessions + [NewSession()]);
    NobodyHeld(s.sessions);
    assert Handles(s') == Handles(s);
    assert SessionInv(NewSession());
  }

  lemma NobodyHeld(ss: seq<Session>)
    ensures HeldBy(ss + [NewSession()]) == HeldBy(ss)
  {
    var hs := HeldBySession(ss + [NewSession()]);
    assert Held(NewSession()) == multiset{};
    assert hs[..|ss|] == HeldBySession(ss);
  }

  lemma AtStepKeepsInv(s: System, i: nat, e: SessionEvent)
    requires Inv(s) && Step(s, At(i, e)) != Impossible
    ensures Step(s, At(i, e)).State? && Inv(Step(s, At(i, e)).s)
  {
    SessionStepKeepsInv(s.sessions[i], e);
    var o := SessionStep(s.sessions[i], e);
    AtKeepsInv(s, i, o.se, o.destroyed);
    AtStepIs(s, i, e, o.se, o.destroyed);
  }

  lemma AtStepIs(s: System, i: nat, e: SessionEvent, se': Session, destroyed: seq<Buf>)
    requires i < |s.sessions| && SessionStep(s.sessions[i], e) == Next(se', destroyed)
    requires DestroyAll(s.heap, destroyed).Some?
    ensures Step(s, At(i, e)) == State(System(DestroyAll(s.heap, destroyed).value, s.locals, s.sessions[i := se']))
  {
  }

  lemma StepKeepsInv(s: System, e: Event)
    requires Inv(s)
    ensures Step(s, e) != Undefined
    ensures Step(s, e).State? ==> Inv(Step(s, e).s)
  {
    if Step(s, e) != Impossible {
      match e
      case Connect =>
        ConnectKeepsInv(s);
        assert Step(s, e) == State(System(s.heap, s.locals, s.sessions + [NewSession()]));
      case Make(n) =>
        ConstructAgrees(s.heap, Handles(s), n);
        AddLocal(s, Construct(s.heap, n), |s.heap.units|);
        assert Step(s, e) == State(System(Construct(s.heap, n), s.locals + multiset{|s.heap.units|}, s.sessions));
      case CopyLocal(b) =>
        CopyAgrees(s.heap, Handles(s), b);
        AddLocal(s, Copy(s.heap, b).value, b);
        assert Step(s, e) == State(System(Copy(s.heap, b).value, s.locals + multiset{b}, s.sessions));
      case DropLocal(b) =>
        DestroyAgrees(s.heap, Handles(s), b);
        RemoveLocal(s, Destroy(s.heap, b).value, b);
        assert Step(s, e) == State(System(Destroy(s.heap, b).value, s.locals - multiset{b}, s.sessions));
      case Post(b, i) =>
        PostKeepsInv(s, b, i);
        assert Step(s, e) == State(System(s.heap, s.locals - multiset{b}, s.sessions[i := PostTo(s.sessions[i], b)]));
      case At(i, se) => AtStepKeepsInv(s, i, se);
    }
  }

  lemma {:induction false} RunKeepsInv(s: System, es: seq<Event>)
    requires Inv(s)
    ensures Run(s, es) != Undefined
    ensures Run(s, es).State? ==> Inv(Run(s, es).s)
    decreases |es|
  {
    if es != [] {
      StepKeepsInv(s, es[0]);
      if Step(s, es[0]).State? {
        RunKeepsInv(Step(s, es[0]).s, es[1..]);
      }
    }
  }

  /** Main result.  Over every interleaving: no handler touches a block that is not live; a live
      block's count is the number of handles to it; a block no longer live was given back exactly
      once and with its own size; and the block of an outstanding write is live. */
  lemma CountsAreHandles(es: seq<Event>)
    ensures Run(START, es) != Undefined
    ensures Run(START, es).State? ==> var s := Run(START, es).s;
      && (forall b :: b in s.heap.live <==> b in Handles(s))
      && (forall b :: b in s.heap.live ==> s.heap.live[b].count == Handles(s)[b])
      && (forall b: Buf, u: nat :: s.heap.freed[Block(b, u)] ==
                         if b < |s.heap.units| && b !in s.heap.live && u == s.heap.units[b] then 1 else 0)
      && (forall i, k :: 0 <= i < |s.sessions| && 0 <= k < |s.sessions[i].queue.writes| ==>
                         s.sessions[i].queue.writes[k].msg in s.heap.live)
  {
    StartInv();
    RunKeepsInv(START, es);
    if Run(START, es).State? {
      var s := Run(START, es).s;
      forall i, k | 0 <= i < |s.sessions| && 0 <= k < |s.sessions[i].queue.writes|
        ensures s.sessions[i].queue.writes[k].msg in s.heap.live
      {
        WriteIsLive(s, i, k);
      }
    }
  }

  lemma StartInv()
    ensures Inv(START)
  {
  }

  lemma WriteIsHeld(se: Session, k: nat)
    requires SessionInv(se) && k < |se.queue.writes|
    ensures Held(se)[se.queue.writes[k].msg] > 0
  {
    assert se.queue.writes[k].msg in se.queue.mq;
  }

  lemma WriteIsLive(s: System, i: nat, k: nat)
    requires Inv(s) && i < |s.sessions| && k < |s.sessions[i].queue.writes|
    ensures var msg := s.sessions[i].queue.writes[k].msg;
      msg in s.sessions[i].queue.mq && msg in s.heap.live
  {
    var msg := s.sessions[i].queue.writes[k].msg;
    WriteIsHeld(s.sessions[i], k);
    HeldByUpdateAt(s.sessions, i, s.sessions[i], msg);
    assert msg in Handles(s);
  }

  /** Exactly-once delivery: what was posted to a session is what was delivered to it, plus what is
      queued or still posted, plus what was discarded because its socket or the session was gone. */
  lemma SentIsAccountedFor(es: seq<Event>, i: nat)
    requires Run(START, es).State? && i < |Run(START, es).s.sessions|
    ensures var se := Run(START, es).s.sessions[i];
      se.sent == multiset(se.queue.delivered) + multiset(se.queue.mq) + multiset(se.posted) + se.dropped
  {
    StartInv();
    RunKeepsInv(START, es);
    var s := Run(START, es).s;
    assert SessionInv(s.sessions[i]);
  }

  lemma {:induction false} TotalOfNothing(hs: seq<multiset<Buf>>)
    requires forall i :: 0 <= i < |hs| ==> hs[i] == multiset{}
    ensures Total(hs) == multiset{}
    decreases |hs|
  {
    if hs != [] {
      TotalOfNothing(hs[..|hs| - 1]);
    }
  }

  /** No leak: once no local handle, posted send or queue entry is left, every block that was ever
      allocated has been given back, once. */
  lemma QuiescentFreesEverything(es: seq<Event>)
    requires Run(START, es).State? && Run(START, es).s.locals == multiset{}
    requires forall i :: 0 <= i < |Run(START, es).s.sessions| ==>
               Run(START, es).s.sessions[i].posted == [] && Run(START, es).s.sessions[i].queue.mq == []
    ensures var h := Run(START, es).s.heap;
      h.live == map[] && forall b :: 0 <= b < |h.units| ==> h.freed[Block(b, h.units[b])] == 1
  {
    StartInv();
    RunKeepsInv(START, es);
    var s := Run(START, es).s;
    TotalOfNothing(HeldBySession(s.sessions));
    assert Handles(s) == multiset{};
    assert forall b :: b in s.heap.live ==> b in Handles(s);
    assert s.heap.live.Keys == {};
  }

  /** Nothing has been discarded: the socket is open. */
  ghost predicate Intact(se: Session) {
    se.queue.open && !se.gone && se.dropped == multiset{}
  }

  lemma SessionStaysIntact(se: Session, e: SessionEvent)
    requires Intact(se) && e != CloseSocket && e != Release && SessionStep(se, e).Next?
    ensures Intact(SessionStep(se, e).se)
  {
  }

  lemma StepStaysIntact(s: System, e: Event, i: nat)
    requires i < |s.sessions| ==> Intact(s.sessions[i])
    requires e != At(i, CloseSocket) && e != At(i, Release) && Step(s, e).State?
    ensures i < |Step(s, e).s.sessions| ==> Intact(Step(s, e).s.sessions[i])
  {
    if e.At? {
      AtChangesOne(s, e.i, e.e);
      if e.i == i {
        SessionStaysIntact(s.sessions[i], e.e);
      }
    }
  }

  lemma {:induction false} RunStaysIntact(s: System, es: seq<Event>, i: nat)
    requires i < |s.sessions| ==> Intact(s.sessions[i])
    requires At(i, CloseSocket) !in es && At(i, Release) !in es && Run(s, es).State?
    ensures i < |Run(s, es).s.sessions| ==> Intact(Run(s, es).s.sessions[i])
    decreases |es|
  {
    if es != [] {
      assert es[0] in es && forall e :: e in es[1..] ==> e in es;
      StepStaysIntact(s, es[0], i);
      RunStaysIntact(Step(s, es[0]).s, es[1..], i);
    }
  }

  /** Main result on delivery: until its socket is closed a session loses nothing.  Everything posted to it has
      been delivered, or is queued or still posted. */
  lemma NothingIsLost(es: seq<Event>, i: nat)
    requires Run(START, es).State? && i < |Run(START, es).s.sessions|
    requires At(i, CloseSocket) !in es && At(i, Release) !in es
    ensures var se := Run(START, es).s.sessions[i];
      && se.dropped == multiset{}
      && se.sent == multiset(se.queue.delivered) + multiset(se.queue.mq) + multiset(se.posted)
  {
    RunStaysIntact(START, es, i);
    SentIsAccountedFor(es, i);
  }

  /** The socket of `later` is closed, and its queue holds nothing that `se` did not hold. */
  ghost predicate OnlyShrinks(se: Session, later: Session) {
    !later.queue.open && multiset(later.queue.mq) <= multiset(se.queue.mq)
  }

  lemma ClosedSessionShrinks(se: Session, e: SessionEvent)
    requires SessionInv(se) && !se.queue.open && SessionStep(se, e).Next?
    ensures OnlyShrinks(se, SessionStep(se, e).se)
    ensures e.RunSend? ==> SessionStep(se, e).se.queue == se.queue
  {
    match e
    case Written(k, ok) =>
      if ok { Q.FinishTakesOne(se.queue); } else { Q.FailKeepsInv(se.queue); }
    case _ =>
  }

  lemma ClosedStepShrinks(s: System, e: Event, i: nat)
    requires i < |s.sessions| && SessionInv(s.sessions[i]) && !s.sessions[i].queue.open && Step(s, e).State?
    ensures i < |Step(s, e).s.sessions| && OnlyShrinks(s.sessions[i], Step(s, e).s.sessions[i])
  {
    if e.At? {
      AtChangesOne(s, e.i, e.e);
      if e.i == i {
        ClosedSessionShrinks(s.sessions[i], e.e);
      }
    } else {
      QueuesUnchanged(s, e, i);
    }
  }

  /** Once its socket is closed a session takes nothing more into its queue, in every continuation. */
  lemma {:induction false} ClosedTakesNothing(s: System, es: seq<Event>, i: nat)
    requires Inv(s) && i < |s.sessions| && !s.sessions[i].queue.open && Run(s, es).State?
    ensures i < |Run(s, es).s.sessions| && OnlyShrinks(s.sessions[i], Run(s, es).s.sessions[i])
    decreases |es|
  {
    if es != [] {
      StepKeepsInv(s, es[0]);
      ClosedStepShrinks(s, es[0], i);
      ClosedTakesNothing(Step(s, es[0]).s, es[1..], i);
    }
  }

  /** `later` still holds everything that was queued at the failed session `se`. */
  ghost predicate StillQueued(se: Session, later: Session) {
    later.queue.failed && se.queue.mq <= later.queue.mq
  }

  lemma SessionStaysQueued(se: Session, e: SessionEvent)
    requires SessionInv(se) && se.queue.failed && !e.Release? && SessionStep(se, e).Next?
    ensures StillQueued(se, SessionStep(se, e).se)
  {
  }

  /** An event at a session changes no other session. */
  lemma AtChangesOne(s: System, j: nat, e: SessionEvent)
    requires Step(s, At(j, e)).State?
    ensures j < |s.sessions| && SessionStep(s.sessions[j], e).Next?
    ensures Step(s, At(j, e)).s.sessions == s.sessions[j := SessionStep(s.sessions[j], e).se]
  {
  }

  /** Any other event leaves the queues as they are. */
  lemma QueuesUnchanged(s: System, e: Event, i: nat)
    requires i < |s.sessions| && !e.At? && Step(s, e).State?
    ensures i < |Step(s, e).s.sessions| && Step(s, e).s.sessions[i].queue == s.sessions[i].queue
  {
  }

  lemma StepStaysQueued(s: System, e: Event, i: nat)
    requires i < |s.sessions| && SessionInv(s.sessions[i]) && s.sessions[i].queue.failed
    requires e != At(i, Release) && Step(s, e).State?
    ensures i < |Step(s, e).s.sessions| && StillQueued(s.sessions[i], Step(s, e).s.sessions[i])
  {
    if e.At? {
      AtChangesOne(s, e.i, e.e);
      if e.i == i {
        SessionStaysQueued(s.sessions[i], e.e);
      }
    } else {
      QueuesUnchanged(s, e, i);
    }
  }

  lemma {:induction false} RunStaysQueued(s: System, es: seq<Event>, i: nat)
    requires Inv(s) && i < |s.sessions| && s.sessions[i].queue.failed && At(i, Release) !in es && Run(s, es).State?
    ensures i < |Run(s, es).s.sessions| && StillQueued(s.sessions[i], Run(s, es).s.sessions[i])
    decreases |es|
  {
    if es != [] {
      StepKeepsInv(s, es[0]);
      StepStaysQueued(s, es[0], i);
      assert forall e :: e in es[1..] ==> e in es;
      RunStaysQueued(Step(s, es[0]).s, es[1..], i);
    }
  }

  /** After a failed write nothing but the end of the session frees what it has queued: until then every
      queued block is live in every continuation. */
  lemma FailedQueueStaysLive(es: seq<Event>, more: seq<Event>, i: nat, b: Buf)
    requires Run(START, es).State? && i < |Run(START, es).s.sessions|
    requires var se := Run(START, es).s.sessions[i]; se.queue.failed && b in se.queue.mq
    requires At(i, Release) !in more && Run(Run(START, es).s, more).State?
    ensures b in Run(Run(START, es).s, more).s.heap.live
  {
    var s := Run(START, es).s;
    StartInv();
    RunKeepsInv(START, es);
    RunKeepsInv(s, more);
    RunStaysQueued(s, more, i);
    var s' := Run(s, more).s;
    assert b in s'.sessions[i].queue.mq;
    QueuedIsLive(s', i, b);
  }

  lemma QueuedIsLive(s: System, i: nat, b: Buf)
    requires Inv(s) && i < |s.sessions| && b in s.sessions[i].queue.mq
    ensures b in s.heap.live
  {
    HeldByUpdateAt(s.sessions, i, s.sessions[i], b);
    assert b in Held(s.sessions[i]);
    assert b in Handles(s);
  }

  // ---------------------------------------------------------------------------
  // channel::send
  // ---------------------------------------------------------------------------

  /** The worker process as broadcasts see it: its counted blocks, local handles and sessions. */
  class Lounge {
    var heap: Heap
    var locals: multiset<Buf>
    var sessions: seq<Session>

    function Contents(): System
      reads this
    {
      System(heap, locals, sessions)
    }

    constructor ()
      ensures Contents() == START
    {
      heap, locals, sessions := START.heap, START.locals, START.sessions;
    }

    method MakeMessage(n: nat) returns (m: Buf)
      requires Inv(Contents())
      modifies this
      ensures Inv(Contents()) && State(Contents()) == Step(old(Contents()), Make(n))
      ensures m !in old(heap.live) && m in locals && m in heap.live && heap.live[m] == Impl(1, n)
    {
      StepKeepsInv(Contents(), Make(n));
      m := |heap.units|;
      heap := heap.(live := heap.live[m := Impl(1, n)], units := heap.units + [Units(IMPL_SIZE, n)]);
      locals := locals + multiset{m};
    }

    /** The copy constructor of a handle. */
    method CopyMessage(m: Buf)
      requires Copy(heap, m).Some?
      modifies this`heap
      ensures Some(heap) == Copy(old(heap), m)
    {
      heap := heap.(live := heap.live[m := heap.live[m].(count := heap.live[m].count + 1)]);
    }

    /** Sending to one member: the argument is a copy of the handle, which is moved into the posted handler. */
    method SendTo(m: Buf, i: nat)
      requires Inv(Contents()) && m in locals && i < |sessions| && !sessions[i].gone
      modifies this
      ensures Inv(Contents()) && locals == old(locals)
      ensures sessions == old(sessions)[i := PostTo(old(sessions[i]), m)]
      ensures Some(heap) == Copy(old(heap), m)
    {
      ghost var s := Contents();
      CopyAgrees(heap, Handles(s), m);
      CopyMessage(m);
      PostMessage(m, i);
      SentKeepsInv(s, Contents(), m, i);
    }

    /** The handle is moved into a send posted to session `i`. */
    method PostMessage(m: Buf, i: nat)
      requires i < |sessions|
      modifies this`sessions
      ensures sessions == old(sessions)[i := PostTo(old(sessions[i]), m)]
    {
      var se := sessions[i];
      sessions := sessions[i := se.(posted := se.posted + [m], sent := se.sent + multiset{m})];
    }

    /** The loop body: a member is sent the message unless its session is gone. */
    method SendUnlessGone(m: Buf, i: nat)
      requires Inv(Contents()) && m in locals && i < |sessions|
      modifies this
      ensures Inv(Contents()) && locals == old(locals) && OnlyChanged(old(heap), heap, m)
      ensures sessions == Sent(old(sessions), i, m)
    {
      if !sessions[i].gone {
        ghost var h := heap;
        SendTo(m, i);
        CopyOnlyChanges(h, m);
      }
    }

    /** The loop over the members. */
    method SendToAll(m: Buf, members: seq<nat>)
      requires Inv(Contents()) && m in locals && Members(members, |sessions|)
      modifies this
      ensures Inv(Contents()) && locals == old(locals) && OnlyChanged(old(heap), heap, m)
      ensures FannedOut(old(sessions), sessions, members, m)
    {
      FannedOutToNone(sessions, m);
      OnlyChangedNot(heap, m);
      for p := 0 to |members|
        invariant Inv(Contents()) && locals == old(locals) && OnlyChanged(old(heap), heap, m)
        invariant FannedOut(old(sessions), sessions, members[..p], m)
      {
        ghost var ss, h := sessions, heap;
        SendUnlessGone(m, members[p]);
        OnlyChangedTwice(old(heap), h, heap, m);
        FannedOutStep(old(sessions), ss, sessions, members, p, m);
      }
      assert members[..|members|] == members;
    }

    /** The message is passed by value: this call owns one local handle and destroys it at the end.
        `members` is the channel's set of sessions in iteration order; sessions that are gone are skipped. */
    method ChannelSend(m: Buf, members: seq<nat>)
      requires Inv(Contents()) && m in locals && Members(members, |sessions|)
      modifies this
      ensures Inv(Contents()) && locals == old(locals) - multiset{m} && OnlyChanged(old(heap), heap, m)
      ensures FannedOut(old(sessions), sessions, members, m)
    {
      SendToAll(m, members);
      ghost var h := heap;
      DestroyMessage(m);
      DestroyOnlyChanges(h, m);
      OnlyChangedTwice(old(heap), h, heap, m);
    }

    /** The destructor of a local handle. */
    method DestroyMessage(m: Buf)
      requires Inv(Contents()) && m in locals
      modifies this`heap, this`locals
      ensures Inv(Contents()) && locals == old(locals) - multiset{m}
      ensures Some(heap) == Destroy(old(heap), m)
    {
      DestroyAgrees(heap, Handles(Contents()), m);
      RemoveLocal(Contents(), Destroy(heap, m).value, m);
      ghost var s' := System(Destroy(heap, m).value, locals - multiset{m}, sessions);
      var left := heap.live[m].(count := heap.live[m].count - 1);
      if left.count == 0 {
        heap := heap.(live := heap.live - {m}, freed := heap.freed + multiset{Block(m, Units(IMPL_SIZE, left.size))});
      } else {
        heap := heap.(live := heap.live[m := left]);
      }
      locals := locals - multiset{m};
      assert Contents() == s';
    }
  }

  /** One more handle to `m` posted to session `i`, unless that one is gone. */
  function Sent(ss: seq<Session>, i: nat, m: Buf): seq<Session>
    requires i < |ss|
  {
    if ss[i].gone then ss else ss[i := PostTo(ss[i], m)]
  }

  /** A set of the `n` sessions, in the order in which it is iterated. */
  ghost predicate Members(members: seq<nat>, n: nat) {
    && (forall p :: 0 <= p < |members| ==> members[p] < n)
    && (forall p, r :: 0 <= p < r < |members| ==> members[p] != members[r])
  }

  /** Every listed session that is not gone has one more handle to `m` posted, and nothing else has changed. */
  ghost predicate FannedOut(ss: seq<Session>, ss': seq<Session>, members: seq<nat>, m: Buf) {
    && |ss'| == |ss|
    && (forall i :: 0 <= i < |ss| ==>
          ss'[i] == if i in members && !ss[i].gone then PostTo(ss[i], m) else ss[i])
  }

  ghost predicate OnlyChanged(h: Heap, h': Heap, m: Buf) {
    && h'.units == h.units
    && (forall b :: b != m ==> (b in h'.live <==> b in h.live))
    && (forall b :: b != m && b in h.live && b in h'.live ==> h'.live[b] == h.live[b])
    && (forall b: Buf, u: nat :: b != m ==> h'.freed[Block(b, u)] == h.freed[Block(b, u)])
  }

  lemma CopyOnlyChanges(h: Heap, m: Buf)
    requires Copy(h, m).Some?
    ensures OnlyChanged(h, Copy(h, m).value, m)
  {
  }

  lemma DestroyOnlyChanges(h: Heap, m: Buf)
    requires Destroy(h, m).Some?
    ensures OnlyChanged(h, Destroy(h, m).value, m)
  {
  }

  lemma OnlyChangedNot(h: Heap, m: Buf)
    ensures OnlyChanged(h, h, m)
  {
  }

  lemma FannedOutToNone(ss: seq<Session>, m: Buf)
    ensures FannedOut(ss, ss, [], m)
  {
  }

  lemma OnlyChangedTwice(h0: Heap, h1: Heap, h2: Heap, m: Buf)
    requires OnlyChanged(h0, h1, m) && OnlyChanged(h1, h2, m)
    ensures OnlyChanged(h0, h2, m)
  {
  }

  lemma FannedOutStep(ss: seq<Session>, ss1: seq<Session>, ss2: seq<Session>, members: seq<nat>, p: nat, m: Buf)
    requires p < |members| && Members(members, |ss|)
    requires FannedOut(ss, ss1, members[..p], m)
    requires ss2 == Sent(ss1, members[p], m)
    ensures FannedOut(ss, ss2, members[..p + 1], m)
  {
    assert members[..p + 1] == members[..p] + [members[p]];
    assert members[p] !in members[..p];
  }

  /** `s'` is what sending `m` to session `i` leaves. */
  lemma SentKeepsInv(s: System, s': System, m: Buf, i: nat)
    requires Inv(s) && m in s.locals && i < |s.sessions| && !s.sessions[i].gone
    requires Some(s'.heap) == Copy(s.heap, m) && s'.locals == s.locals
    requires s'.sessions == s.sessions[i := PostTo(s.sessions[i], m)]
    ensures Inv(s')
  {
    CopyAndPostKeepsInv(s, m, i);
    assert s' == System(Copy(s.heap, m).value, s.locals, s.sessions[i := PostTo(s.sessions[i], m)]);
  }

  lemma CopyAndPostKeepsInv(s: System, m: Buf, i: nat)
    requires Inv(s) && m in s.locals && i < |s.sessions| && !s.sessions[i].gone
    ensures Copy(s.heap, m).Some?
    ensures Inv(System(Copy(s.heap, m).value, s.locals, s.sessions[i := PostTo(s.sessions[i], m)]))
  {
    CopyAgrees(s.heap, Handles(s), m);
    var h := Copy(s.heap, m).value;
    AddLocal(s, h, m);
    var s1 := System(h, s.locals + multiset{m}, s.sessions);
    var s2 := System(h, s1.locals - multiset{m}, s.sessions[i := PostTo(s.sessions[i], m)]);
    assert s1.locals - multiset{m} == s.locals;
    assert s2 == System(h, s.locals, s.sessions[i := PostTo(s.sessions[i], m)]);
    PostKeepsInv(s1, m, i);
  }
}
