/** The outgoing message queue of one WebSocket session.

    A session keeps its messages in a vector and has at most one asynchronous write outstanding.
    The message being written is named by the index captured when the write was started, and a
    finished message is removed by swapping it with the last one.  The vector is therefore not a
    FIFO queue; the last part of this module says exactly when it nevertheless behaves like one.
 */
module WriteQueue {

  /** An asynchronous write the stream has not completed: the captured index and the message given to it. */
  datatype Write<T> = Write(idx: nat, msg: T)

  /** A session's queue, the state of its stream, and the history of messages that were
      accepted by `do_send`, handed to the stream, and written completely. */
  datatype Queue<T> = Queue(
    mq: seq<T>,
    open: bool,
    writes: seq<Write<T>>,
    failed: bool,
    accepted: seq<T>,
    started: seq<T>,
    delivered: seq<T>)

  datatype Event<T> =
    | Send(m: T)                    // a posted do_send runs
    | Close                         // the socket is closed
    | Complete(k: nat, ok: bool)    // the k-th outstanding write completes

  datatype Outcome<T> =
    | State(q: Queue<T>)
    | Impossible    // the environment has no such event to deliver
    | Undefined     // the handler indexes outside the vector

  function Fresh<T>(): Queue<T> {
    Queue([], true, [], false, [], [], [])
  }

  /** The sequence without position `i`, whose place is taken by the last element. */
  function RemoveSwap<T>(s: seq<T>, i: nat): (r: seq<T>)
    requires i < |s|
    ensures |r| == |s| - 1
    ensures forall j :: 0 <= j < |r| ==> r[j] == if j == i then s[|s| - 1] else s[j]
  {
    var last := |s| - 1;
    if i == last then s[..last] else s[..i] + [s[last]] + s[i + 1..last]
  }

  lemma RemoveSwapTakesOne<T>(s: seq<T>, i: nat)
    requires i < |s|
    ensures multiset(RemoveSwap(s, i)) + multiset{s[i]} == multiset(s)
  {
    var last := |s| - 1;
    if i == last {
      assert s == s[..last] + [s[i]];
    } else {
      assert s == s[..i] + [s[i]] + s[i + 1..last] + [s[last]];
    }
  }

  function StartWrite<T>(q: Queue<T>): Queue<T>
    requires q.mq != []
  {
    var last := |q.mq| - 1;
    q.(writes := q.writes + [Write(last, q.mq[last])], started := q.started + [q.mq[last]])
  }

  function Accept<T>(q: Queue<T>, m: T): Queue<T> {
    if !q.open then q
    else
      var q1 := q.(mq := q.mq + [m], accepted := q.accepted + [m]);
      if q.mq == [] then StartWrite(q1) else q1
  }

  function Finish<T>(q: Queue<T>, k: nat, ok: bool): Queue<T>
    requires k < |q.writes|
    requires ok ==> q.writes[k].idx < |q.mq|
  {
    var w := q.writes[k];
    var rest := q.writes[..k] + q.writes[k + 1..];
    if !ok then q.(writes := rest, failed := true)
    else
      var q1 := q.(writes := rest, mq := RemoveSwap(q.mq, w.idx), delivered := q.delivered + [w.msg]);
      if q1.mq != [] then StartWrite(q1) else q1
  }

  function Step<T>(q: Queue<T>, e: Event<T>): Outcome<T> {
    match e
    case Send(m) => State(Accept(q, m))
    case Close => State(q.(open := false))
    case Complete(k, ok) =>
      if k >= |q.writes| then Impossible
      else if q.mq == [] || (ok && q.writes[k].idx >= |q.mq|) then Undefined
      else State(Finish(q, k, ok))
  }

  /** The outcome of a whole history of events on a new session. */
  function Run<T>(es: seq<Event<T>>): Outcome<T>
    decreases |es|
  {
    if es == [] then State(Fresh())
    else
      var before := Run(es[..|es| - 1]);
      if before.State? then Step(before.q, es[|es| - 1]) else before
  }

  // ---------------------------------------------------------------------------
  // One outstanding write; nothing lost, nothing duplicated
  // ---------------------------------------------------------------------------

  ghost predicate Inv<T>(q: Queue<T>) {
    && |q.writes| <= 1
    && (!q.failed ==> (|q.writes| == 1 <==> q.mq != []))
    && (q.failed ==> q.writes == [] && q.mq != [])
    && (q.writes != [] ==> q.writes[0].idx < |q.mq| && q.mq[q.writes[0].idx] == q.writes[0].msg)
    && q.delivered <= q.started
    && |q.started| == |q.delivered| + (if q.mq == [] then 0 else 1)
    && (q.writes != [] ==> q.started == q.delivered + [q.writes[0].msg])
  }

  /** Every accepted message has been delivered once or is queued once. */
  ghost predicate Conserved<T>(q: Queue<T>) {
    multiset(q.accepted) == multiset(q.delivered) + multiset(q.mq)
  }

  /** What a successful completion of the only outstanding write leaves behind. */
  lemma FinishOnlyWrite<T>(q: Queue<T>)
    requires Inv(q) && q.writes != []
    ensures Step(q, Complete(0, true)).State?
    ensures var r := RemoveSwap(q.mq, q.writes[0].idx);
      Step(q, Complete(0, true)).q ==
      if r == [] then q.(mq := [], writes := [], delivered := q.started)
      else q.(mq := r, writes := [Write(|r| - 1, r[|r| - 1])], delivered := q.started,
              started := q.started + [r[|r| - 1]])
  {
    assert q.writes[..0] + q.writes[1..] == [];
  }

  lemma FinishKeepsInv<T>(q: Queue<T>)
    requires Inv(q) && q.writes != []
    ensures Step(q, Complete(0, true)).State? && Inv(Step(q, Complete(0, true)).q)
  {
    FinishOnlyWrite(q);
  }

  lemma FailKeepsInv<T>(q: Queue<T>)
    requires Inv(q) && q.writes != []
    ensures Step(q, Complete(0, false)).State?
    ensures Step(q, Complete(0, false)).q == q.(writes := [], failed := true)
    ensures Inv(Step(q, Complete(0, false)).q)
  {
    assert q.writes[..0] + q.writes[1..] == [];
  }

  lemma SendKeepsInv<T>(q: Queue<T>, m: T)
    requires Inv(q)
    ensures Inv(Accept(q, m))
  {
    assert q.mq == [] ==> q.mq + [m] == [m];
    assert q.mq == [] ==> q.writes == [] && q.started == q.delivered;
  }

  /** Every event the environment can deliver is handled without leaving the vector, and keeps `Inv`. */
  lemma StepKeepsInv<T>(q: Queue<T>, e: Event<T>)
    requires Inv(q)
    ensures Step(q, e) != Undefined
    ensures Step(q, e).State? ==> Inv(Step(q, e).q)
  {
    match e
    case Send(m) => SendKeepsInv(q, m);
    case Close =>
    case Complete(k, ok) =>
      if k < |q.writes| {
        if ok { FinishKeepsInv(q); } else { FailKeepsInv(q); }
      }
  }

  /** The same for every history: no run is undefined and every reached state satisfies `Inv`. */
  lemma {:induction false} EveryRunKeepsInv<T>(es: seq<Event<T>>)
    ensures Run(es) != Undefined
    ensures Run(es).State? ==> Inv(Run(es).q)
    decreases |es|
  {
    if es != [] {
      EveryRunKeepsInv(es[..|es| - 1]);
      if Run(es[..|es| - 1]).State? {
        StepKeepsInv(Run(es[..|es| - 1]).q, es[|es| - 1]);
      }
    }
  }

  /** A successful completion takes exactly the written message out of the queue. */
  lemma FinishTakesOne<T>(q: Queue<T>)
    requires Inv(q) && q.writes != []
    ensures Step(q, Complete(0, true)).State?
    ensures var q' := Step(q, Complete(0, true)).q;
      && q'.accepted == q.accepted && q'.delivered == q.started
      && multiset(q'.mq) + multiset{q.writes[0].msg} == multiset(q.mq)
  {
    FinishOnlyWrite(q);
    RemoveSwapTakesOne(q.mq, q.writes[0].idx);
  }

  lemma FinishConserves<T>(q: Queue<T>)
    requires Inv(q) && Conserved(q) && q.writes != []
    ensures Conserved(Step(q, Complete(0, true)).q)
  {
    FinishTakesOne(q);
    assert multiset(q.started) == multiset(q.delivered) + multiset{q.writes[0].msg};
  }

  lemma StepConserves<T>(q: Queue<T>, e: Event<T>)
    requires Inv(q) && Conserved(q) && Step(q, e).State?
    ensures Conserved(Step(q, e).q)
  {
    match e
    case Send(m) =>
    case Close =>
    case Complete(k, ok) =>
      if ok { FinishConserves(q); } else { FailKeepsInv(q); }
  }

  /** In every reached state the accepted messages are exactly those delivered plus those queued. */
  lemma {:induction false} EveryRunConserves<T>(es: seq<Event<T>>)
    requires Run(es).State?
    ensures multiset(Run(es).q.accepted) == multiset(Run(es).q.delivered) + multiset(Run(es).q.mq)
    decreases |es|
  {
    if es != [] {
      var pre := es[..|es| - 1];
      EveryRunConserves(pre);
      EveryRunKeepsInv(pre);
      StepConserves(Run(pre).q, es[|es| - 1]);
    }
  }

  predicate Closed<T>(es: seq<Event<T>>) {
    exists i :: 0 <= i < |es| && es[i].Close?
  }

  /** The messages sent before the socket was closed, in order. */
  function SentWhileOpen<T>(es: seq<Event<T>>): seq<T>
    decreases |es|
  {
    if es == [] then []
    else
      var pre, last := es[..|es| - 1], es[|es| - 1];
      SentWhileOpen(pre) + if last.Send? && !Closed(pre) then [last.m] else []
  }

  lemma ClosedSnoc<T>(es: seq<Event<T>>)
    requires es != []
    ensures Closed(es) <==> Closed(es[..|es| - 1]) || es[|es| - 1].Close?
  {
    var pre := es[..|es| - 1];
    if Closed(pre) {
      var i :| 0 <= i < |pre| && pre[i].Close?;
      assert es[i].Close?;
    }
    if Closed(es) {
      var i :| 0 <= i < |es| && es[i].Close?;
      assert i < |pre| ==> pre[i].Close?;
    }
  }

  lemma StepAccepts<T>(q: Queue<T>, e: Event<T>)
    requires Step(q, e).State?
    ensures Step(q, e).q.accepted == q.accepted + if e.Send? && q.open then [e.m] else []
    ensures Step(q, e).q.open <==> q.open && !e.Close?
  {
  }

  lemma {:induction false} AcceptedHistory<T>(es: seq<Event<T>>)
    requires Run(es).State?
    ensures Run(es).q.accepted == SentWhileOpen(es) && (Run(es).q.open <==> !Closed(es))
    decreases |es|
  {
    if es != [] {
      var pre, last := es[..|es| - 1], es[|es| - 1];
      AcceptedHistory(pre);
      StepAccepts(Run(pre).q, last);
      ClosedSnoc(es);
    }
  }

  /** In every reached state what was accepted is everything sent before the socket was closed and nothing
      sent after it, in order; and so that is what is delivered or queued. */
  lemma AcceptedIs<T>(es: seq<Event<T>>)
    requires Run(es).State?
    ensures Run(es).q.accepted == SentWhileOpen(es) && (Run(es).q.open <==> !Closed(es))
    ensures multiset(SentWhileOpen(es)) == multiset(Run(es).q.delivered) + multiset(Run(es).q.mq)
  {
    EveryRunConserves(es);
    AcceptedHistory(es);
  }

  /** After a failed write: no write is ever started again, nothing is delivered and nothing leaves the queue. */
  lemma FailureIsFinal<T>(q: Queue<T>, e: Event<T>)
    requires Inv(q) && q.failed && Step(q, e).State?
    ensures var q' := Step(q, e).q;
      q'.failed && q'.writes == [] && q.mq <= q'.mq && q'.delivered == q.delivered && q'.started == q.started
  {
    assert q.writes == [];
  }

  lemma {:induction false} FailureIsFinalForever<T>(es: seq<Event<T>>, more: seq<Event<T>>)
    requires Run(es).State? && Run(es).q.failed && Run(es + more).State?
    ensures var (q, q') := (Run(es).q, Run(es + more).q);
      q'.failed && q'.writes == [] && q.mq <= q'.mq && q'.delivered == q.delivered && q'.started == q.started
    decreases |more|
  {
    EveryRunKeepsInv(es);
    if more == [] {
      assert es + more == es;
    } else {
      var n := |more| - 1;
      assert (es + more)[..|es + more| - 1] == es + more[..n];
      FailureIsFinalForever(es, more[..n]);
      EveryRunKeepsInv(es + more[..n]);
      FailureIsFinal(Run(es + more[..n]).q, more[n]);
    }
  }

  // ---------------------------------------------------------------------------
  // Draining
  // ---------------------------------------------------------------------------

  function Reverse<T>(s: seq<T>): (r: seq<T>)
    ensures |r| == |s|
    ensures forall i :: 0 <= i < |s| ==> r[i] == s[|s| - 1 - i]
  {
    if s == [] then [] else [s[|s| - 1]] + Reverse(s[..|s| - 1])
  }

  function Completions<T>(n: nat): seq<Event<T>> {
    seq(n, _ => Complete(0, true))
  }

  /** The order in which a queue with no new sends is written: the message in flight,
      then what is left after its removal, from the back to the front. */
  function DrainOrder<T>(q: Queue<T>): seq<T>
    requires q.writes != [] && q.writes[0].idx < |q.mq|
  {
    [q.mq[q.writes[0].idx]] + Reverse(RemoveSwap(q.mq, q.writes[0].idx))
  }

  lemma FinishLast<T>(q: Queue<T>)
    requires Inv(q) && q.writes != [] && q.writes[0].idx == |q.mq| - 1
    ensures Step(q, Complete(0, true)).State?
    ensures var q' := Step(q, Complete(0, true)).q;
      && q'.mq == q.mq[..|q.mq| - 1] && q'.delivered == q.delivered + [q.mq[|q.mq| - 1]]
      && q'.accepted == q.accepted && q'.failed == q.failed
      && (q'.mq != [] ==> q'.writes != [] && q'.writes[0].idx == |q'.mq| - 1)
  {
    FinishOnlyWrite(q);
  }

  /** After `n` successful completions with nothing sent in between, exactly `n` messages have left the
      queue, and they are the first `n` of `DrainOrder`. */
  lemma {:induction false} DrainStep<T>(es: seq<Event<T>>, n: nat)
    requires Run(es).State? && Run(es).q.writes != []
    requires n <= |Run(es).q.mq|
    ensures Run(es).q.writes[0].idx < |Run(es).q.mq|
    ensures Run(es + Completions(n)).State? && Drained(Run(es).q, Run(es + Completions(n)).q, n)
    decreases n
  {
    EveryRunKeepsInv(es);
    if n == 0 {
      assert es + Completions(0) == es;
    } else {
      DrainStep(es, n - 1);
      EveryRunKeepsInv(es + Completions(n - 1));
      DrainOne(Run(es).q, Run(es + Completions(n - 1)).q, n);
      assert es + Completions(n) == es + Completions(n - 1) + [Complete(0, true)];
      RunSnoc(es + Completions(n - 1), Complete(0, true));
    }
  }

  lemma RunSnoc<T>(es: seq<Event<T>>, e: Event<T>)
    requires Run(es).State?
    ensures Run(es + [e]) == Step(Run(es).q, e)
  {
    assert (es + [e])[..|es|] == es;
  }

  /** `q'` is what is left of `q` after its first `n` messages have been written. */
  ghost predicate Drained<T>(q: Queue<T>, q': Queue<T>, n: nat)
    requires q.writes != [] && q.writes[0].idx < |q.mq| && n <= |q.mq|
  {
    && |q'.mq| == |q.mq| - n
    && q'.delivered == q.delivered + DrainOrder(q)[..n]
    && q'.accepted == q.accepted && !q'.failed
    && (n == 0 ==> q' == q)
    && (0 < n < |q.mq| ==> q'.mq == RemoveSwap(q.mq, q.writes[0].idx)[..|q.mq| - n])
    && (0 < n < |q.mq| ==> q'.writes != [] && q'.writes[0].idx == |q'.mq| - 1)
  }

  lemma DrainOne<T>(q: Queue<T>, q1: Queue<T>, n: nat)
    requires Inv(q) && Inv(q1) && q.writes != [] && 0 < n <= |q.mq|
    requires Drained(q, q1, n - 1)
    ensures Step(q1, Complete(0, true)).State? && Drained(q, Step(q1, Complete(0, true)).q, n)
  {
    if n == 1 {
      DrainFirst(q);
    } else {
      DrainNext(q, q1, n);
    }
  }

  lemma DrainFirst<T>(q: Queue<T>)
    requires Inv(q) && q.writes != []
    ensures Step(q, Complete(0, true)).State? && Drained(q, Step(q, Complete(0, true)).q, 1)
  {
    FinishOnlyWrite(q);
    var r := RemoveSwap(q.mq, q.writes[0].idx);
    assert DrainOrder(q)[..1] == [q.writes[0].msg];
    assert r[..|q.mq| - 1] == r;
  }

  lemma DrainNext<T>(q: Queue<T>, q1: Queue<T>, n: nat)
    requires Inv(q) && Inv(q1) && q.writes != [] && 1 < n <= |q.mq|
    requires Drained(q, q1, n - 1)
    ensures Step(q1, Complete(0, true)).State? && Drained(q, Step(q1, Complete(0, true)).q, n)
  {
    var r := RemoveSwap(q.mq, q.writes[0].idx);
    FromTheBack(q.mq[q.writes[0].idx], r, n);
    FinishLast(q1);
  }

  /** The next message in a drain order is the last of those left. */
  lemma FromTheBack<T>(first: T, r: seq<T>, n: nat)
    requires 1 < n <= |r| + 1
    ensures var left := r[..|r| + 2 - n]; var order := [first] + Reverse(r);
      order[..n] == order[..n - 1] + [left[|left| - 1]] && left[..|left| - 1] == r[..|r| + 1 - n]
  {
    var order := [first] + Reverse(r);
    assert order[n - 1] == Reverse(r)[n - 2] == r[|r| + 1 - n];
  }

  /** A queue of n messages drains in exactly n successful completions, in `DrainOrder`. */
  lemma DrainsCompletely<T>(es: seq<Event<T>>)
    requires Run(es).State? && Run(es).q.writes != []
    ensures Run(es).q.writes[0].idx < |Run(es).q.mq|
    ensures var q := Run(es).q;
      && (forall n :: 0 <= n < |q.mq| ==> Run(es + Completions(n)).State? && Run(es + Completions(n)).q.mq != [])
      && Run(es + Completions(|q.mq|)).State?
      && var q' := Run(es + Completions(|q.mq|)).q;
      && q'.mq == [] && q'.writes == []
      && q'.delivered == q.delivered + DrainOrder(q)
      && multiset(q'.delivered) == multiset(q.accepted)
  {
    EveryRunKeepsInv(es);
    var q := Run(es).q;
    forall n | 0 <= n <= |q.mq|
      ensures Run(es + Completions(n)).State? && |Run(es + Completions(n)).q.mq| == |q.mq| - n
    {
      DrainStep(es, n);
    }
    DrainStep(es, |q.mq|);
    EveryRunKeepsInv(es + Completions(|q.mq|));
    EveryRunConserves(es + Completions(|q.mq|));
    assert DrainOrder(q)[..|q.mq|] == DrainOrder(q);
  }

  // ---------------------------------------------------------------------------
  // When delivery order is send order
  // ---------------------------------------------------------------------------

  /** At most one message waits behind the one in flight; or two do and the one in flight is at the front. */
  predicate Gentle<T>(q: Queue<T>) {
    |q.mq| <= 2 || (|q.mq| == 3 && q.writes != [] && q.writes[0].idx == 0)
  }

  /** `p` holds of every state a run goes through. */
  predicate Always<T>(es: seq<Event<T>>, p: Queue<T> -> bool)
    decreases |es|
  {
    && (Run(es).State? ==> p(Run(es).q))
    && (es != [] ==> Always(es[..|es| - 1], p))
  }

  ghost predicate Distinct<T>(s: seq<T>) {
    forall i, j :: 0 <= i < j < |s| ==> s[i] != s[j]
  }

  /** The messages still queued, in the order in which they were accepted, while nothing has been reordered. */
  function Pending<T>(q: Queue<T>): seq<T>
    requires q.writes != [] && q.writes[0].idx < |q.mq|
  {
    if q.writes[0].idx == 1 then [q.mq[1], q.mq[0]] + q.mq[2..] else q.mq
  }

  /** In order so far: what was accepted is what was delivered followed by what is pending. */
  ghost predicate InOrder<T>(q: Queue<T>) {
    if q.mq == [] then q.accepted == q.delivered
    else
      && q.writes != []
      && (q.writes[0].idx == 0 || (q.writes[0].idx == 1 && |q.mq| >= 2))
      && q.accepted == q.delivered + Pending(q)
  }

  /** Some message has been handed to the stream before an older one. */
  ghost predicate OutOfOrder<T>(q: Queue<T>) {
    exists i :: 0 <= i < |q.started| && i < |q.accepted| && q.started[i] != q.accepted[i]
  }

  lemma SendKeepsOrder<T>(q: Queue<T>, m: T)
    requires Inv(q) && !q.failed && InOrder(q)
    ensures InOrder(Accept(q, m)) && (!Gentle(q) ==> !Gentle(Accept(q, m)))
  {
    if q.open && q.mq != [] {
      assert Pending(Accept(q, m)) == Pending(q) + [m];
    }
  }

  lemma GentleCompletion<T>(q: Queue<T>)
    requires Inv(q) && q.writes != [] && InOrder(q) && Gentle(q)
    ensures Step(q, Complete(0, true)).State? && InOrder(Step(q, Complete(0, true)).q)
  {
    FinishOnlyWrite(q);
    var r := RemoveSwap(q.mq, q.writes[0].idx);
    assert q.accepted == q.started + Pending(q)[1..] by {
      assert Pending(q)[0] == q.writes[0].msg;
    }
    if |q.mq| == 1 {
      assert Pending(q)[1..] == [];
    } else if |q.mq| == 2 {
      assert Pending(q)[1..] == r;
    } else {
      assert r == [q.mq[2], q.mq[1]];
      assert Pending(q)[1..] == [r[1], r[0]] + r[2..];
    }
  }

  /** From an ungentle state the next successful completion hands a message to the stream before an older one. */
  lemma UngentleCompletion<T>(q: Queue<T>)
    requires Inv(q) && q.writes != [] && InOrder(q) && !Gentle(q) && Distinct(q.accepted)
    ensures Step(q, Complete(0, true)).State? && OutOfOrder(Step(q, Complete(0, true)).q)
  {
    FinishOnlyWrite(q);
    var q' := Step(q, Complete(0, true)).q;
    var last := |q'.mq| - 1;
    var i := |q.delivered| + 1;
    // The message started next is pending, but is not the oldest pending one.
    var j := if q.writes[0].idx == 1 && |q.mq| == 3 then 2 else last;
    assert 2 <= j < |Pending(q)| && q'.started[i] == Pending(q)[j];
    assert q.accepted[|q.delivered| + j] == Pending(q)[j];
    assert q.accepted[i] == Pending(q)[1];
    assert q'.accepted[i] != q'.started[i];
  }

  lemma HistoriesGrow<T>(q: Queue<T>, e: Event<T>)
    requires Step(q, e).State?
    ensures q.accepted <= Step(q, e).q.accepted
    ensures q.started <= Step(q, e).q.started
    ensures q.failed ==> Step(q, e).q.failed
  {
  }

  lemma OutOfOrderIsFinal<T>(q: Queue<T>, e: Event<T>)
    requires OutOfOrder(q) && Step(q, e).State?
    ensures OutOfOrder(Step(q, e).q)
  {
    HistoriesGrow(q, e);
    var i :| 0 <= i < |q.started| && i < |q.accepted| && q.started[i] != q.accepted[i];
    var q' := Step(q, e).q;
    assert q'.started[i] == q.started[i] && q'.accepted[i] == q.accepted[i];
  }

  lemma InOrderIsNotOutOfOrder<T>(q: Queue<T>)
    requires Inv(q) && !q.failed && InOrder(q)
    ensures !OutOfOrder(q)
  {
    if q.mq != [] {
      assert q.started == q.delivered + [Pending(q)[0]];
    }
  }

  /** Where a queue stands with respect to order, given whether it has always been gentle:
      in order; or in order but about to go wrong; or out of order. */
  ghost predicate OrderStatus<T>(q: Queue<T>, gentleSoFar: bool) {
    if gentleSoFar then InOrder(q) else (InOrder(q) && !Gentle(q)) || OutOfOrder(q)
  }

  lemma OrderStep<T>(q: Queue<T>, e: Event<T>, gentleSoFar: bool)
    requires Inv(q) && !q.failed && Distinct(q.accepted) && OrderStatus(q, gentleSoFar)
    requires gentleSoFar ==> Gentle(q)
    requires Step(q, e).State? && !Step(q, e).q.failed
    ensures OrderStatus(Step(q, e).q, gentleSoFar && Gentle(Step(q, e).q))
  {
    if OutOfOrder(q) {
      OutOfOrderIsFinal(q, e);
      if gentleSoFar { InOrderIsNotOutOfOrder(q); }
    } else {
      match e
      case Send(m) => SendKeepsOrder(q, m);
      case Close =>
      case Complete(k, ok) =>
        if gentleSoFar { GentleCompletion(q); } else { UngentleCompletion(q); }
    }
  }

  /** Along a run that has not failed: in order while always gentle; once ungentle, the queue
      stays ungentle until it goes out of order, and then stays out of order. */
  lemma {:induction false} OrderAlongRun<T>(es: seq<Event<T>>)
    requires Run(es).State? && !Run(es).q.failed && Distinct(Run(es).q.accepted)
    ensures OrderStatus(Run(es).q, Always(es, Gentle))
    ensures Always(es, Gentle) ==> Gentle(Run(es).q)
    decreases |es|
  {
    if es != [] {
      var n := |es| - 1;
      var pre := es[..n];
      var p := Run(pre).q;
      HistoriesGrow(p, es[n]);
      assert Distinct(p.accepted) by {
        assert forall i :: 0 <= i < |p.accepted| ==> p.accepted[i] == Run(es).q.accepted[i];
      }
      OrderAlongRun(pre);
      EveryRunKeepsInv(pre);
      OrderStep(p, es[n], Always(pre, Gentle));
    }
  }

  /** While every state is gentle the queue stays in order, whatever the messages. */
  lemma {:induction false} GentleKeepsOrder<T>(es: seq<Event<T>>)
    requires Run(es).State? && !Run(es).q.failed && Always(es, Gentle)
    ensures InOrder(Run(es).q)
    decreases |es|
  {
    if es != [] {
      var n := |es| - 1;
      var pre := es[..n];
      HistoriesGrow(Run(pre).q, es[n]);
      GentleKeepsOrder(pre);
      EveryRunKeepsInv(pre);
      match es[n]
      case Send(m) => SendKeepsOrder(Run(pre).q, m);
      case Close =>
      case Complete(k, ok) => GentleCompletion(Run(pre).q);
    }
  }

  /** Main result on order.  For a run that ends with everything written, delivery order is send order if
      every state on the way was `Gentle`; and, when the messages can be told apart, only if. */
  lemma FifoIffAlwaysGentle<T>(es: seq<Event<T>>)
    requires Run(es).State? && Run(es).q.mq == []
    ensures Always(es, Gentle) ==> Run(es).q.delivered == Run(es).q.accepted
    ensures Distinct(Run(es).q.accepted) ==> (Run(es).q.delivered == Run(es).q.accepted <==> Always(es, Gentle))
  {
    EveryRunKeepsInv(es);
    if Always(es, Gentle) {
      GentleKeepsOrder(es);
    }
    if Distinct(Run(es).q.accepted) {
      OrderAlongRun(es);
    }
  }

  lemma {:induction false} AlwaysMonotone<T>(es: seq<Event<T>>, p: Queue<T> -> bool, r: Queue<T> -> bool)
    requires Always(es, p) && forall q: Queue<T> :: p(q) ==> r(q)
    ensures Always(es, r)
    decreases |es|
  {
    if es != [] {
      AlwaysMonotone(es[..|es| - 1], p, r);
    }
  }

  predicate OneWaiting<T>(q: Queue<T>) {
    |q.mq| <= 2
  }

  /** In particular, with never more than one message waiting behind the one in flight, delivery is FIFO. */
  lemma FifoWithOneWaiting<T>(es: seq<Event<T>>)
    requires Run(es).State? && Run(es).q.mq == [] && Always(es, OneWaiting)
    ensures Run(es).q.delivered == Run(es).q.accepted
  {
    AlwaysMonotone(es, OneWaiting<T>, Gentle<T>);
    FifoIffAlwaysGentle(es);
  }

  /** The queue is not FIFO: four messages sent at once are written 1, 3, 2, 4. */
  lemma NotFifo()
    ensures var es := [Send(1), Send(2), Send(3), Send(4)] + Completions(4);
      Run(es).State? && Run(es).q.accepted == [1, 2, 3, 4] && Run(es).q.delivered == [1, 3, 2, 4]
  {
    var e0: seq<Event<int>> := [];
    var e2 := [Send(1)] + [Send(2)];
    var e4 := e2 + [Send(3)] + [Send(4)];
    RunSnoc(e0, Send(1));
    assert e0 + [Send(1)] == [Send(1)];
    RunSnoc([Send(1)], Send(2));
    RunSnoc(e2, Send(3));
    RunSnoc(e2 + [Send(3)], Send(4));
    assert e4 == [Send(1), Send(2), Send(3), Send(4)];
    var q := Run(e4).q;
    assert q == Queue([1, 2, 3, 4], true, [Write(0, 1)], false, [1, 2, 3, 4], [1], []);
    DrainsCompletely(e4);
    DrainStep(e4, 4);
    DrainOrderOfFour(q);
  }

  lemma DrainOrderOfFour(q: Queue<int>)
    requires q.mq == [1, 2, 3, 4] && q.writes == [Write(0, 1)]
    ensures DrainOrder(q)[..4] == [1, 3, 2, 4]
  {
    var r := RemoveSwap(q.mq, 0);
    assert r == [4, 2, 3];
    assert Reverse(r) == [3, 2, 4];
  }

  // ---------------------------------------------------------------------------
  // The session object
  // ---------------------------------------------------------------------------

  /** A session's queue as the session updates it.  `writes` stands for the operations pending in
      the stream; the remaining ghost fields record what has happened. */
  class WsSession<T> {
    var mq: seq<T>
    var open: bool
    ghost var writes: seq<Write<T>>
    ghost var failed: bool
    ghost var accepted: seq<T>
    ghost var started: seq<T>
    ghost var delivered: seq<T>

    ghost function Contents(): Queue<T>
      reads this
    {
      Queue(mq, open, writes, failed, accepted, started, delivered)
    }

    constructor ()
      ensures Contents() == Fresh()
    {
      mq, open, writes, failed, accepted, started, delivered := [], true, [], false, [], [], [];
    }

    method DoSend(m: T)
      modifies this
      ensures Contents() == Accept(old(Contents()), m)
    {
      if !open {
        return;
      }
      mq := mq + [m];
      accepted := accepted + [m];
      if |mq| == 1 {
        DoWrite();
      }
    }

    method DoStop()
      modifies this`open
      ensures State(Contents()) == Step(old(Contents()), Close)
    {
      open := false;
    }

    method DoWrite()
      requires mq != []
      modifies this`writes, this`started
      ensures Contents() == StartWrite(old(Contents()))
    {
      var back := mq[|mq| - 1];
      writes := writes + [Write(|mq| - 1, back)];
      started := started + [back];
    }

    /** The completion handler of the `k`-th outstanding write, called with the index bound to it. */
    method OnWrite(ghost k: nat, idx: nat, ok: bool)
      requires Inv(Contents())
      requires k < |writes| && writes[k].idx == idx
      modifies this
      ensures Contents() == Finish(old(Contents()), k, ok)
      ensures Inv(Contents())
    {
      ghost var q := Contents();
      StepKeepsInv(q, Complete(k, ok));
      ghost var msg := writes[k].msg;
      writes := writes[..k] + writes[k + 1..];
      if !ok {
        failed := true;
        return;
      }
      delivered := delivered + [msg];
      var last := |mq| - 1;
      if idx != last {
        mq := mq[idx := mq[last]][last := mq[idx]];
      }
      mq := mq[..last];
      assert mq == RemoveSwap(q.mq, idx);
      assert Contents() == q.(writes := writes, mq := RemoveSwap(q.mq, idx), delivered := q.delivered + [msg]);
      if mq != [] {
        DoWrite();
      }
    }
  }
}
