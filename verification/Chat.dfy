/** Chat requests: from a JSON-RPC message through channel lookup and the channel's handlers to the reply.

    Every session has its own user.  Sending a notice to a channel is one `Broadcast` event with the
    set of sessions reached; `Broadcast.dfy` and `WriteQueue.dfy` say what becomes of it.

    A request to play at the blackjack table is posted to the table's strand together with the caller's
    user and session objects, which are moved into the posted handler.  What is left behind is a user
    with the empty name and a session without user or connection.
 */
module Chat {
  import opened Rpc
  import opened Wrappers
  import ChannelList

  /** A session, which also identifies its user. */
  type Sid = nat

  datatype Kind = System | Room | Table

  /** A channel with the sessions that have joined it. */
  datatype Channel = Channel(cid: nat, name: string, kind: Kind, members: set<Sid>)

  /** The names of the users (a user not listed has the empty name), the list of channels, and the
      sessions whose objects have been moved into a handler of the table. */
  datatype Lounge = Lounge(names: map<Sid, string>, v: seq<Option<Channel>>, moved: set<Sid>)

  datatype Notice = Notice(cid: nat, verb: string, channel: string, user: string, text: string)

  /** A response: a result, or an error; an error's id is left out when the request's id is negative. */
  datatype Response = Result(id: int) | Error(givenId: Option<int>, code: int, text: string)

  datatype Event =
    | Broadcast(to: set<Sid>, notice: Notice)
    | Direct(who: Sid, notice: Notice)
    | Reply(session: Sid, response: Response)
    | ShutdownAsked(seconds: int)
    | StopAsked

  /** How a handler ends: by completing the call, by an rpc_error, by posting the call to the
      table's strand, or by an exception of another type. */
  datatype Handled =
    | Completed(l: Lounge, sent: seq<Event>)
    | Failed(l: Lounge, sent: seq<Event>, code: int, text: string)
    | Posted(l: Lounge)
    | Escaped

  /** The state and events after a request; or the exception that leaves the request loop. */
  datatype Outcome = Next(l: Lounge, sent: seq<Event>) | Terminated

  function NameOf(l: Lounge, sid: Sid): string {
    if sid in l.names then l.names[sid] else ""
  }

  function Lookup(l: Lounge, cid: nat): Option<Channel> {
    ChannelList.At(l.v, cid)
  }

  function WithMembers(l: Lounge, cid: nat, members: set<Sid>): Lounge
    requires Lookup(l, cid).Some?
  {
    l.(v := l.v[cid := Some(l.v[cid].value.(members := members))])
  }

  /** The members that a notice reaches: a session that has been moved from passes nothing on. */
  function Reached(l: Lounge, members: set<Sid>): set<Sid> {
    members - l.moved
  }

  /** The user and the session of `sid` have been moved into a handler of the table. */
  function GoneToTable(l: Lounge, sid: Sid): Lounge {
    l.(names := l.names[sid := ""], moved := l.moved + {sid})
  }

  // ---------------------------------------------------------------------------
  // Channel handlers
  // ---------------------------------------------------------------------------

  /** channel::insert: false when the session had joined already; otherwise everybody, including the
      newcomer, is told. */
  function InsertMember(l: Lounge, cid: nat, sid: Sid): (Lounge, seq<Event>, bool)
    requires Lookup(l, cid).Some?
  {
    var c := l.v[cid].value;
    if sid in c.members then (l, [], false)
    else
      (WithMembers(l, cid, c.members + {sid}),
       [Broadcast(Reached(l, c.members + {sid}), Notice(c.cid, "join", c.name, NameOf(l, sid), ""))], true)
  }

  /** channel::erase: the remaining members are told, and the leaver. */
  function EraseMember(l: Lounge, cid: nat, sid: Sid): (Lounge, seq<Event>, bool)
    requires Lookup(l, cid).Some?
  {
    var c := l.v[cid].value;
    if sid !in c.members then (l, [], false)
    else
      var notice := Notice(c.cid, "leave", c.name, NameOf(l, sid), "");
      (WithMembers(l, cid, c.members - {sid}),
       [Broadcast(Reached(l, c.members - {sid}), notice), Direct(sid, notice)], true)
  }

  function DoJoin(l: Lounge, cid: nat, sid: Sid): Handled
    requires Lookup(l, cid).Some?
  {
    if NameOf(l, sid) == "" then Failed(l, [], INVALID_PARAMS, "1")
    else
      var (l', sent, inserted) := InsertMember(l, cid, sid);
      if inserted then Completed(l', sent) else Failed(l', sent, INVALID_PARAMS, "Already in channel")
  }

  function DoLeave(l: Lounge, cid: nat, sid: Sid): Handled
    requires Lookup(l, cid).Some?
  {
    var (l', sent, erased) := EraseMember(l, cid, sid);
    if erased then Completed(l', sent) else Failed(l', sent, INVALID_PARAMS, "Not in channel")
  }

  /** checked_string(params, key): the text, or the error it fails with. */
  datatype Checked = Text(s: string) | Wrong(text: string)

  function CheckedString(params: Json, key: string): Checked {
    if !params.Obj? then Wrong("expected object")
    else if key !in params.fields then Wrong("key '" + key + "' not found")
    else if !params.fields[key].Str? then Wrong("expected string")
    else Text(params.fields[key].s)
  }

  function DoSay(l: Lounge, cid: nat, sid: Sid, params: Json): Handled
    requires Lookup(l, cid).Some?
  {
    var c := l.v[cid].value;
    if NameOf(l, sid) == "" then Failed(l, [], INVALID_PARAMS, "1")
    else if sid !in c.members then Failed(l, [], INVALID_PARAMS, "not in channel")
    else
      match CheckedString(params, "message")
      case Wrong(text) => Failed(l, [], INVALID_PARAMS, text)
      case Text(s) => Completed(l, [Broadcast(Reached(l, c.members), Notice(c.cid, "say", c.name, NameOf(l, sid), s))])
  }

  function DoIdentify(l: Lounge, cid: nat, sid: Sid, params: Json): Handled
    requires Lookup(l, cid).Some?
  {
    match CheckedString(params, "name")
    case Wrong(text) => Failed(l, [], INVALID_PARAMS, text)
    case Text(name) =>
      if |name| > 20 then Failed(l, [], INVALID_PARAMS, "Invalid \"name\": too long")
      else if NameOf(l, sid) != "" then Failed(l, [], INVALID_PARAMS, "Identity is already set")
      else
        var (l', sent, _) := InsertMember(l.(names := l.names[sid := name]), cid, sid);
        Completed(l', sent)
  }

  const METHOD_NOT_FOUND_TEXT := "The method does not exist or is not available"

  function TableMethods(): set<string> {
    {"play", "watch", "bet", "start", "hit", "stand"}
  }

  /** channel::dispatch and the on_dispatch of the three kinds of channel. */
  function DispatchTo(l: Lounge, cid: nat, sid: Sid, call: Call): Handled
    requires Lookup(l, cid).Some?
  {
    var notFound := Failed(l, [], METHOD_NOT_FOUND, METHOD_NOT_FOUND_TEXT);
    if call.name == "join" then DoJoin(l, cid, sid)
    else if call.name == "leave" then DoLeave(l, cid, sid)
    else
      match l.v[cid].value.kind
      case System =>
        if call.name == "identify" then DoIdentify(l, cid, sid, call.params)
        else if call.name == "shutdown" then Completed(l, [ShutdownAsked(30)])
        else if call.name == "stop" then Completed(l, [StopAsked])
        else notFound
      case Room =>
        if call.name == "say" || call.name == "slash" then DoSay(l, cid, sid, call.params) else notFound
      case Table =>
        if call.name in TableMethods() then Posted(GoneToTable(l, sid)) else notFound
  }

  /** channel_list_impl::dispatch */
  function Dispatch(l: Lounge, sid: Sid, call: Call): Handled {
    if !call.params.Obj? then Failed(l, [], INVALID_PARAMS, "expected object")
    else if "cid" !in call.params.fields then Failed(l, [], INVALID_PARAMS, "key 'cid' not found")
    else if !call.params.fields["cid"].Num? then Escaped
    else
      var cid := ToSize(call.params.fields["cid"].n);
      if Lookup(l, cid).None? then Failed(l, [], INVALID_PARAMS, "Unknown cid") else DispatchTo(l, cid, sid, call)
  }

  // ---------------------------------------------------------------------------
  // The request loop
  // ---------------------------------------------------------------------------

  /** rpc_call::complete: nothing is sent without an id. */
  function Success(sid: Sid, call: Call): seq<Event> {
    match call.id
    case None => []
    case Some(id) => [Reply(sid, Result(id))]
  }

  function Failure(sid: Sid, call: Call, code: int, text: string): seq<Event> {
    match call.id
    case None => []
    case Some(id) => [Reply(sid, Error(if id >= 0 then Some(id) else None, code, text))]
  }

  /** The parts of the environment that requests depend on: reading a version, and the text of an error code. */
  datatype Env = Env(stof: string -> VersionText, errorText: int -> string)

  /** One turn of the request loop with the message `jv` from session `sid`.  Before a call is dispatched
      the session's user is looked up; a session that has been moved from has none, which ends the program. */
  function Handle(env: Env, l: Lounge, sid: Sid, jv: Json): Outcome {
    match Extraction(env.stof, jv)
    case Throws => Terminated
    case Extracted(call, Some(code)) => Next(l, Failure(sid, call, INVALID_REQUEST, env.errorText(code)))
    case Extracted(call, None) =>
      if sid in l.moved then Terminated
      else match Dispatch(l, sid, call)
      case Completed(l', sent) => Next(l', sent + Success(sid, call))
      case Failed(l', sent, code, text) => Next(l', sent + Failure(sid, call, code, text))
      case Posted(l') => Next(l', [])
      case Escaped => Terminated
  }

  /** A message from a session. */
  datatype Message = Message(sid: Sid, jv: Json)

  function Run(env: Env, l: Lounge, ms: seq<Message>): Outcome
    decreases |ms|
  {
    if ms == [] then Next(l, [])
    else
      match Run(env, l, ms[..|ms| - 1])
      case Terminated => Terminated
      case Next(l1, sent) =>
        match Handle(env, l1, ms[|ms| - 1].sid, ms[|ms| - 1].jv)
        case Terminated => Terminated
        case Next(l2, more) => Next(l2, sent + more)
  }

  // ---------------------------------------------------------------------------
  // Exactly one reply
  // ---------------------------------------------------------------------------

  function CountReplies(sent: seq<Event>, sid: Sid): nat {
    if sent == [] then 0 else (if sent[0].Reply? && sent[0].session == sid then 1 else 0) + CountReplies(sent[1..], sid)
  }

  lemma {:induction false} CountRepliesConcat(a: seq<Event>, b: seq<Event>, sid: Sid)
    ensures CountReplies(a + b, sid) == CountReplies(a, sid) + CountReplies(b, sid)
    decreases |a|
  {
    if a == [] {
      assert a + b == b;
    } else {
      assert (a + b)[1..] == a[1..] + b;
      CountRepliesConcat(a[1..], b, sid);
    }
  }

  /** A well-typed request: its cid, if it has one, is a number too.  (The id may also be true or false;
      the library converts these to `int`, but not to the unsigned type of a cid.) */
  predicate GoodRequest(env: Env, jv: Json) {
    && WellTyped(env.stof, jv)
    && (Member(jv, "params").Obj? && "cid" in Member(jv, "params").fields ==>
          Member(jv, "params").fields["cid"].Num?)
  }

  /** The call names a table as its channel, and a method of the table. */
  predicate CallsTable(l: Lounge, call: Call) {
    && call.params.Obj? && "cid" in call.params.fields && call.params.fields["cid"].Num?
    && var c := Lookup(l, ToSize(call.params.fields["cid"].n));
    && c.Some? && c.value.kind == Table
    && call.name in TableMethods()
  }

  /** Nothing is wrong with the message, and its call is one for a table. */
  predicate ForTable(env: Env, l: Lounge, jv: Json) {
    var e := Extraction(env.stof, jv);
    e.Extracted? && e.error == None && CallsTable(l, e.call)
  }

  /** Exactly such calls are posted to the table's strand, to be answered from there; whoever makes them. */
  lemma PostedIff(l: Lounge, sid: Sid, call: Call)
    ensures Dispatch(l, sid, call).Posted? <==> CallsTable(l, call)
  {
  }

  ghost predicate NoReplies(sent: seq<Event>) {
    forall i :: 0 <= i < |sent| ==> !sent[i].Reply?
  }

  lemma {:induction false} NoRepliesCount(sent: seq<Event>, to: Sid)
    requires NoReplies(sent)
    ensures CountReplies(sent, to) == 0
  {
    if sent != [] {
      NoRepliesCount(sent[1..], to);
    }
  }

  /** Handlers only send notices; the reply is sent by the loop. */
  lemma HandlersDoNotReply(l: Lounge, sid: Sid, call: Call, to: Sid)
    ensures var h := Dispatch(l, sid, call);
      h.Completed? || h.Failed? ==> CountReplies(h.sent, to) == 0
  {
    var h := Dispatch(l, sid, call);
    if h.Completed? || h.Failed? {
      assert NoReplies(h.sent);
      NoRepliesCount(h.sent, to);
    }
  }

  /** The one reply to a good request: the result with its id, or an error that carries the id when it is
      not negative. */
  predicate Answers(env: Env, jv: Json, response: Response)
    requires WellTyped(env.stof, jv)
  {
    var id := IdOf(jv);
    match response
    case Result(i) => i == id && RejectedWith(env.stof, jv) == None
    case Error(i, code, text) =>
      && i == (if id >= 0 then Some(id) else None)
      && (RejectedWith(env.stof, jv).Some? ==>
            code == INVALID_REQUEST && text == env.errorText(RejectedWith(env.stof, jv).value))
  }

  lemma RepliesWhenRejected(env: Env, l: Lounge, sid: Sid, jv: Json, to: Sid)
    requires Handle(env, l, sid, jv).Next? && Extraction(env.stof, jv).error.Some?
    ensures CountReplies(Handle(env, l, sid, jv).sent, to) == if to == sid && jv.Obj? then 1 else 0
  {
  }

  /** After the handler's notices at most one reply is sent. */
  lemma RepliesAfterHandler(notices: seq<Event>, reply: seq<Event>, to: Sid)
    requires CountReplies(notices, to) == 0 && |reply| == 1 && reply[0].Reply?
    ensures CountReplies(notices + reply, to) == if reply[0].session == to then 1 else 0
  {
    CountRepliesConcat(notices, reply, to);
    assert reply[1..] == [];
  }

  lemma RepliesWhenHandled(env: Env, l: Lounge, sid: Sid, jv: Json, to: Sid)
    requires Extraction(env.stof, jv).Extracted? && Extraction(env.stof, jv).error == None && sid !in l.moved
    requires var h := Dispatch(l, sid, Extraction(env.stof, jv).call); h.Completed? || h.Failed?
    ensures Handle(env, l, sid, jv).Next?
    ensures CountReplies(Handle(env, l, sid, jv).sent, to) == if to == sid then 1 else 0
  {
    var call := Extraction(env.stof, jv).call;
    var h := Dispatch(l, sid, call);
    HandlersDoNotReply(l, sid, call, to);
    var reply := if h.Completed? then Success(sid, call) else Failure(sid, call, h.code, h.text);
    RepliesAfterHandler(h.sent, reply, to);
    assert Handle(env, l, sid, jv).sent == h.sent + reply;
  }

  /** For any message at all, unless it ends the loop: an object not for the table gets one reply, which goes
      to its session; anything else gets none. */
  lemma RepliesIff(env: Env, l: Lounge, sid: Sid, jv: Json, to: Sid)
    requires Handle(env, l, sid, jv).Next?
    ensures CountReplies(Handle(env, l, sid, jv).sent, to) ==
      if to == sid && jv.Obj? && !ForTable(env, l, jv) then 1 else 0
  {
    var e := Extraction(env.stof, jv);
    if e.error.Some? {
      RepliesWhenRejected(env, l, sid, jv, to);
    } else {
      PostedIff(l, sid, e.call);
      if !ForTable(env, l, jv) {
        RepliesWhenHandled(env, l, sid, jv, to);
      }
    }
  }

  /** The handler of a good call completes it, fails it, or posts it: nothing escapes. */
  lemma GoodCallReturns(env: Env, l: Lounge, sid: Sid, jv: Json)
    requires GoodRequest(env, jv) && !ForTable(env, l, jv)
    ensures var e := Extraction(env.stof, jv);
      e.Extracted? && (e.error == None ==> Dispatch(l, sid, e.call).Completed? || Dispatch(l, sid, e.call).Failed?)
  {
    ExtractionOfWellTyped(env.stof, jv);
    PostedIff(l, sid, Extraction(env.stof, jv).call);
  }

  /** What is sent ends with the reply. */
  ghost predicate EndsWithReply(o: Outcome, sid: Sid, response: Response) {
    o.Next? && o.sent != [] && o.sent[|o.sent| - 1] == Reply(sid, response)
  }

  lemma EndsWhenHandled(env: Env, l: Lounge, sid: Sid, jv: Json)
    requires Extraction(env.stof, jv).Extracted? && Extraction(env.stof, jv).error == None && sid !in l.moved
    requires Extraction(env.stof, jv).call.id.Some?
    requires var h := Dispatch(l, sid, Extraction(env.stof, jv).call); h.Completed? || h.Failed?
    ensures var call := Extraction(env.stof, jv).call; var h := Dispatch(l, sid, call); var id := call.id.value;
      EndsWithReply(Handle(env, l, sid, jv), sid,
        if h.Completed? then Result(id) else Error(if id >= 0 then Some(id) else None, h.code, h.text))
  {
  }

  lemma EndsWhenRejected(env: Env, l: Lounge, sid: Sid, jv: Json)
    requires Extraction(env.stof, jv).Extracted? && Extraction(env.stof, jv).error.Some?
    requires Extraction(env.stof, jv).call.id.Some?
    ensures var e := Extraction(env.stof, jv); var id := e.call.id.value;
      EndsWithReply(Handle(env, l, sid, jv), sid,
        Error(if id >= 0 then Some(id) else None, INVALID_REQUEST, env.errorText(e.error.value)))
  {
  }

  /** Every good request that is not for the table gets exactly one reply, as the last thing sent: on
      success and on every error path.  Nobody else is sent a reply. */
  lemma OneReply(env: Env, l: Lounge, sid: Sid, jv: Json)
    requires GoodRequest(env, jv) && !ForTable(env, l, jv) && sid !in l.moved
    ensures var o := Handle(env, l, sid, jv);
      && (exists response :: EndsWithReply(o, sid, response) && Answers(env, jv, response))
      && (forall to :: CountReplies(o.sent, to) == if to == sid then 1 else 0)
  {
    GoodCallReturns(env, l, sid, jv);
    ExtractionOfWellTyped(env.stof, jv);
    if Extraction(env.stof, jv).error == None {
      EndsWhenHandled(env, l, sid, jv);
    } else {
      EndsWhenRejected(env, l, sid, jv);
    }
    forall to
      ensures CountReplies(Handle(env, l, sid, jv).sent, to) == if to == sid then 1 else 0
    {
      RepliesIff(env, l, sid, jv, to);
    }
  }

  /** Exactly which messages end the program: those on which extraction throws; and, when extraction finds
      nothing wrong, those from a session that has been moved and those with a cid that is not a number. */
  lemma EndsIff(env: Env, l: Lounge, sid: Sid, jv: Json)
    ensures Handle(env, l, sid, jv) == Terminated <==>
      || Extraction(env.stof, jv).Throws?
      || (Extraction(env.stof, jv).error == None &&
            (sid in l.moved ||
              (Member(jv, "params").Obj? && "cid" in Member(jv, "params").fields &&
                !Member(jv, "params").fields["cid"].Num?)))
  {
    var e := Extraction(env.stof, jv);
    if e.Extracted? && e.error == None {
      assert e.call.params == Member(jv, "params");
    }
  }

  function CountRequests(ms: seq<Message>, sid: Sid): nat
    decreases |ms|
  {
    if ms == [] then 0
    else CountRequests(ms[..|ms| - 1], sid) + (if ms[|ms| - 1].sid == sid then 1 else 0)
  }

  /** Channels stay what they are, apart from their members. */
  ghost predicate SameChannels(l: Lounge, l': Lounge) {
    && |l'.v| == |l.v|
    && (forall cid :: 0 <= cid < |l.v| ==>
          && (l'.v[cid].Some? <==> l.v[cid].Some?)
          && (l.v[cid].Some? ==> l'.v[cid].value.(members := {}) == l.v[cid].value.(members := {})))
  }

  lemma DispatchKeepsChannels(l: Lounge, sid: Sid, call: Call)
    ensures var h := Dispatch(l, sid, call);
      !h.Escaped? ==> SameChannels(l, h.l)
  {
  }

  lemma HandleKeepsChannels(env: Env, l: Lounge, sid: Sid, jv: Json)
    requires Handle(env, l, sid, jv).Next?
    ensures SameChannels(l, Handle(env, l, sid, jv).l)
  {
    var e := Extraction(env.stof, jv);
    if e.error == None {
      DispatchKeepsChannels(l, sid, e.call);
    }
  }

  /** Whether a message is for the table does not change over a run. */
  lemma ForTableStays(env: Env, l: Lounge, l': Lounge, jv: Json)
    requires SameChannels(l, l')
    ensures ForTable(env, l', jv) <==> ForTable(env, l, jv)
  {
    var e := Extraction(env.stof, jv);
    if e.Extracted? && e.call.params.Obj? && "cid" in e.call.params.fields && e.call.params.fields["cid"].Num? {
      var cid := ToSize(e.call.params.fields["cid"].n);
      if cid < |l.v| && l.v[cid].Some? {
        assert l'.v[cid].value.(members := {}).kind == l.v[cid].value.(members := {}).kind;
      }
    }
  }

  /** Good requests, none of them for the table and none from a session that has been moved to it. */
  ghost predicate GoodMessages(env: Env, l: Lounge, ms: seq<Message>) {
    forall i :: 0 <= i < |ms| ==>
      GoodRequest(env, ms[i].jv) && !ForTable(env, l, ms[i].jv) && ms[i].sid !in l.moved
  }

  /** Main result on replies: over any run of good requests, from sessions that have not been to the table
      before, each session is sent exactly as many replies as it made requests. */
  lemma {:induction false} RepliesMatchRequests(env: Env, l: Lounge, ms: seq<Message>, sid: Sid)
    requires GoodMessages(env, l, ms)
    ensures var o := Run(env, l, ms);
      o.Next? && o.l.moved == l.moved && SameChannels(l, o.l) && CountReplies(o.sent, sid) == CountRequests(ms, sid)
    decreases |ms|
  {
    if ms != [] {
      var pre, last := ms[..|ms| - 1], ms[|ms| - 1];
      RepliesMatchRequests(env, l, pre, sid);
      var l1 := Run(env, l, pre).l;
      ForTableStays(env, l, l1, last.jv);
      OneReply(env, l1, last.sid, last.jv);
      HandleMoves(env, l1, last.sid, last.jv);
      HandleKeepsChannels(env, l1, last.sid, last.jv);
      CountRepliesConcat(Run(env, l, pre).sent, Handle(env, l1, last.sid, last.jv).sent, sid);
    }
  }

  // ---------------------------------------------------------------------------
  // Names and membership
  // ---------------------------------------------------------------------------

  /** Names have at most 20 characters and are empty for moved users; a member of a channel other than
      System has a name unless it has been moved; channels are filed under their cids. */
  ghost predicate Inv(l: Lounge) {
    && (forall sid :: sid in l.names ==> |l.names[sid]| <= 20)
    && (forall sid :: sid in l.moved ==> NameOf(l, sid) == "")
    && (forall cid :: 0 <= cid < |l.v| && l.v[cid].Some? ==> l.v[cid].value.cid == cid && Named(l, l.v[cid].value))
  }

  ghost predicate Named(l: Lounge, c: Channel) {
    c.kind == System || forall sid :: sid in c.members ==> NameOf(l, sid) != "" || sid in l.moved
  }

  /** A name, once set, stays until its user is moved; and channels stay what they are. */
  ghost predicate NamesKept(l: Lounge, l': Lounge) {
    && l.moved <= l'.moved
    && (forall sid :: sid !in l'.moved && NameOf(l, sid) != "" ==> NameOf(l', sid) == NameOf(l, sid))
    && SameChannels(l, l')
  }

  lemma JoinKeepsInv(l: Lounge, cid: nat, sid: Sid)
    requires Inv(l) && Lookup(l, cid).Some? && (NameOf(l, sid) != "" || l.v[cid].value.kind == System)
    ensures Inv(InsertMember(l, cid, sid).0) && NamesKept(l, InsertMember(l, cid, sid).0)
  {
  }

  lemma LeaveKeepsInv(l: Lounge, cid: nat, sid: Sid)
    requires Inv(l) && Lookup(l, cid).Some?
    ensures Inv(EraseMember(l, cid, sid).0) && NamesKept(l, EraseMember(l, cid, sid).0)
  {
  }

  lemma IdentifyKeepsInv(l: Lounge, cid: nat, sid: Sid, name: string)
    requires Inv(l) && Lookup(l, cid).Some? && l.v[cid].value.kind == System
    requires NameOf(l, sid) == "" && |name| <= 20 && sid !in l.moved
    ensures var l1 := l.(names := l.names[sid := name]);
      Inv(InsertMember(l1, cid, sid).0) && NamesKept(l, InsertMember(l1, cid, sid).0)
  {
    var l1 := l.(names := l.names[sid := name]);
    assert Inv(l1);
    JoinKeepsInv(l1, cid, sid);
  }

  lemma TableKeepsInv(l: Lounge, sid: Sid)
    requires Inv(l)
    ensures Inv(GoneToTable(l, sid)) && NamesKept(l, GoneToTable(l, sid))
  {
    var l' := GoneToTable(l, sid);
    assert forall s :: s != sid ==> NameOf(l', s) == NameOf(l, s);
  }

  ghost predicate Keeps(l: Lounge, l': Lounge) {
    Inv(l') && NamesKept(l, l')
  }

  /** The state a handler leaves; one that lets an exception escape leaves none. */
  function After(l: Lounge, h: Handled): Lounge {
    if h.Escaped? then l else h.l
  }

  lemma HandlerKeepsInv(l: Lounge, cid: nat, sid: Sid, call: Call)
    requires Inv(l) && Lookup(l, cid).Some? && sid !in l.moved
    ensures Keeps(l, After(l, DispatchTo(l, cid, sid, call)))
  {
    var l' := After(l, DispatchTo(l, cid, sid, call));
    if l' != l {
      if call.name == "join" {
        JoinKeepsInv(l, cid, sid);
        assert l' == InsertMember(l, cid, sid).0;
      } else if call.name == "leave" {
        LeaveKeepsInv(l, cid, sid);
        assert l' == EraseMember(l, cid, sid).0;
      } else if l.v[cid].value.kind == Table {
        TableKeepsInv(l, sid);
      } else {
        var name := CheckedString(call.params, "name").s;
        IdentifyKeepsInv(l, cid, sid, name);
        assert l' == InsertMember(l.(names := l.names[sid := name]), cid, sid).0;
      }
    }
  }

  lemma HandleKeepsInv(env: Env, l: Lounge, sid: Sid, jv: Json)
    requires Inv(l) && Handle(env, l, sid, jv).Next?
    ensures Keeps(l, Handle(env, l, sid, jv).l)
  {
    var e := Extraction(env.stof, jv);
    var l' := Handle(env, l, sid, jv).l;
    if l' != l {
      var cid := ToSize(e.call.params.fields["cid"].n);
      HandlerKeepsInv(l, cid, sid, e.call);
      assert l' == After(l, DispatchTo(l, cid, sid, e.call));
    }
  }

  /** The senders of the messages chosen by `p`. */
  function Senders(ms: seq<Message>, p: Message -> bool): set<Sid> {
    set i | 0 <= i < |ms| && p(ms[i]) :: ms[i].sid
  }

  /** The sessions with a message for the table, judged by the messages and the channels at the start alone. */
  function Players(env: Env, l: Lounge, ms: seq<Message>): set<Sid> {
    Senders(ms, (m: Message) => ForTable(env, l, m.jv))
  }

  lemma SendersSnoc(ms: seq<Message>, p: Message -> bool)
    requires ms != []
    ensures var pre, last := ms[..|ms| - 1], ms[|ms| - 1];
      Senders(ms, p) == Senders(pre, p) + if p(last) then {last.sid} else {}
  {
    var pre, last := ms[..|ms| - 1], ms[|ms| - 1];
    forall s | s in Senders(pre, p)
      ensures s in Senders(ms, p)
    {
      var i :| 0 <= i < |pre| && p(pre[i]) && pre[i].sid == s;
      assert ms[i] == pre[i];
    }
    forall s | s in Senders(ms, p)
      ensures s in Senders(pre, p) || (p(last) && s == last.sid)
    {
      var i :| 0 <= i < |ms| && p(ms[i]) && ms[i].sid == s;
      assert i < |pre| ==> pre[i] == ms[i];
    }
  }

  lemma DispatchMoves(l: Lounge, sid: Sid, call: Call)
    ensures var h := Dispatch(l, sid, call);
      !h.Escaped? ==> h.l.moved == l.moved + if h.Posted? then {sid} else {}
  {
  }

  /** A message moves exactly the user whose request is for the table. */
  lemma HandleMoves(env: Env, l: Lounge, sid: Sid, jv: Json)
    requires Handle(env, l, sid, jv).Next?
    ensures Handle(env, l, sid, jv).l.moved == l.moved + if ForTable(env, l, jv) then {sid} else {}
  {
    var e := Extraction(env.stof, jv);
    if e.error == None {
      PostedIff(l, sid, e.call);
      DispatchMoves(l, sid, e.call);
    }
  }

  /** Main result on users, over all runs of any messages: a non-empty name has at most 20 characters; it
      changes only to the empty one, and does so exactly when its user makes a request for the table; a
      member of a channel other than System lacks a name exactly when it has made such a request. */
  lemma {:induction false} NamesAndMembers(env: Env, l: Lounge, ms: seq<Message>)
    requires Inv(l) && Run(env, l, ms).Next?
    ensures Inv(Run(env, l, ms).l) && NamesKept(l, Run(env, l, ms).l)
    ensures Run(env, l, ms).l.moved == l.moved + Players(env, l, ms)
    decreases |ms|
  {
    if ms != [] {
      var pre, last := ms[..|ms| - 1], ms[|ms| - 1];
      NamesAndMembers(env, l, pre);
      var l1 := Run(env, l, pre).l;
      HandleKeepsInv(env, l1, last.sid, last.jv);
      HandleMoves(env, l1, last.sid, last.jv);
      ForTableStays(env, l, l1, last.jv);
      SendersSnoc(ms, (m: Message) => ForTable(env, l, m.jv));
    }
  }

  lemma NameKeptIff(env: Env, l: Lounge, ms: seq<Message>, sid: Sid)
    requires Inv(l) && Run(env, l, ms).Next? && NameOf(l, sid) != ""
    ensures var l' := Run(env, l, ms).l;
      if sid in Players(env, l, ms) then NameOf(l', sid) == "" else NameOf(l', sid) == NameOf(l, sid)
  {
    NamesAndMembers(env, l, ms);
  }

  lemma NamelessMemberIff(env: Env, l: Lounge, ms: seq<Message>, cid: nat, sid: Sid)
    requires Inv(l) && Run(env, l, ms).Next? && Lookup(Run(env, l, ms).l, cid).Some?
    requires var c := Lookup(Run(env, l, ms).l, cid).value; c.kind != System && sid in c.members
    ensures NameOf(Run(env, l, ms).l, sid) == "" <==> sid in l.moved || sid in Players(env, l, ms)
  {
    NamesAndMembers(env, l, ms);
    assert Named(Run(env, l, ms).l, Lookup(Run(env, l, ms).l, cid).value);
  }

  /** The state in which a worker starts: no names, nobody moved, and empty channels, each filed under its cid. */
  ghost predicate Opened(l: Lounge) {
    && l.names == map[] && l.moved == {}
    && forall cid :: 0 <= cid < |l.v| && l.v[cid].Some? ==> l.v[cid].value.cid == cid && l.v[cid].value.members == {}
  }

  lemma OpenedInv(l: Lounge)
    requires Opened(l)
    ensures Inv(l)
  {
  }

  /** So, from the start of a worker, over every run: names have at most 20 characters, and a member of a channel
      other than System lacks one exactly when it has sent a message for the table. */
  lemma NamesFromStart(env: Env, l: Lounge, ms: seq<Message>, sid: Sid)
    requires Opened(l) && Run(env, l, ms).Next?
    ensures var l' := Run(env, l, ms).l;
      && |NameOf(l', sid)| <= 20
      && (forall cid :: 0 <= cid < |l'.v| && l'.v[cid].Some? && l'.v[cid].value.kind != System
                        && sid in l'.v[cid].value.members ==>
            (NameOf(l', sid) == "" <==> sid in Players(env, l, ms)))
  {
    OpenedInv(l);
    NamesAndMembers(env, l, ms);
    var l' := Run(env, l, ms).l;
    forall cid | 0 <= cid < |l'.v| && l'.v[cid].Some? && l'.v[cid].value.kind != System
                 && sid in l'.v[cid].value.members
      ensures NameOf(l', sid) == "" <==> sid in Players(env, l, ms)
    {
      assert Lookup(l', cid) == l'.v[cid];
      NamelessMemberIff(env, l, ms, cid, sid);
    }
  }

  function Request(name: string, cid: int): Json {
    Obj(map["id" := Num(1), "jsonrpc" := Str("2.0"), "method" := Str(name), "params" := Obj(map["cid" := Num(cid)])])
  }

  lemma PlayMoves(env: Env, l: Lounge, sid: Sid, cid: nat)
    requires env.stof("2.0") == Two && sid !in l.moved && cid < 0x1_0000_0000
    requires Lookup(l, cid).Some? && l.v[cid].value.kind == Table
    ensures Handle(env, l, sid, Request("play", cid)) == Next(GoneToTable(l, sid), [])
  {
    assert Extraction(env.stof, Request("play", cid)) ==
           Extracted(Call(Some(1), 2, "play", Obj(map["cid" := Num(cid)])), None);
  }

  lemma MovedEnds(env: Env, l: Lounge, sid: Sid, name: string, cid: nat)
    requires env.stof("2.0") == Two && sid in l.moved
    ensures Handle(env, l, sid, Request(name, cid)) == Terminated
  {
  }

  /** It does happen: a user plays at the table, has no name any more, and ends the program with the next
      request, whatever it asks for. */
  lemma NameLost(env: Env, l: Lounge, sid: Sid, cid: nat, name: string, cid2: nat)
    requires env.stof("2.0") == Two && sid !in l.moved && cid < 0x1_0000_0000
    requires Lookup(l, cid).Some? && l.v[cid].value.kind == Table
    ensures var play, next := Message(sid, Request("play", cid)), Message(sid, Request(name, cid2));
      && Run(env, l, [play]) == Next(GoneToTable(l, sid), [])
      && NameOf(GoneToTable(l, sid), sid) == ""
      && Run(env, l, [play, next]) == Terminated
  {
    var play, next := Message(sid, Request("play", cid)), Message(sid, Request(name, cid2));
    PlayMoves(env, l, sid, cid);
    MovedEnds(env, GoneToTable(l, sid), sid, name, cid2);
    assert [play][..0] == [] && [play, next][..1] == [play];
  }

  // ---------------------------------------------------------------------------
  // What each request does
  // ---------------------------------------------------------------------------

  /** A request with nothing wrong, for `verb` on the channel `cid`. */
  predicate Asks(env: Env, jv: Json, verb: string, cid: nat) {
    var e := Extraction(env.stof, jv);
    && e.Extracted? && e.error == None
    && Member(jv, "method") == Str(verb) && Member(jv, "params").Obj?
    && "cid" in Member(jv, "params").fields && Member(jv, "params").fields["cid"].Num?
    && ToSize(Member(jv, "params").fields["cid"].n) == cid
  }

  /** The parameter `key` of a request, if it has one. */
  function Param(jv: Json, key: string): Option<Json>
    requires jv.Obj? && Member(jv, "params").Obj?
  {
    if key in Member(jv, "params").fields then Some(Member(jv, "params").fields[key]) else None
  }

  /** The reply that confirms a request, and the one that refuses it. */
  function Confirmed(sid: Sid, jv: Json): Event
    requires jv.Obj? && IsNumeric(Member(jv, "id"))
  {
    Reply(sid, Result(IdOf(jv)))
  }

  function Refused(sid: Sid, jv: Json, code: int, text: string): Event
    requires jv.Obj? && IsNumeric(Member(jv, "id"))
  {
    Reply(sid, Error(if IdOf(jv) >= 0 then Some(IdOf(jv)) else None, code, text))
  }

  lemma AskedCall(env: Env, jv: Json, verb: string, cid: nat)
    requires Asks(env, jv, verb, cid)
    ensures var e := Extraction(env.stof, jv);
      && jv.Obj? && IsNumeric(Member(jv, "id"))
      && e.call.id == Some(IdOf(jv)) && e.call.name == verb && e.call.params == Member(jv, "params")
  {
  }

  /** A say in a room: the speaker must have a name, be in the room and send a text; then everybody in the room who can
      be reached is told, once, who said what and where, and the request is confirmed. */
  lemma SayIs(env: Env, l: Lounge, sid: Sid, jv: Json, verb: string, cid: nat)
    requires verb in {"say", "slash"} && Asks(env, jv, verb, cid) && sid !in l.moved
    requires cid < |l.v| && l.v[cid].Some? && l.v[cid].value.kind == Room
    ensures jv.Obj? && IsNumeric(Member(jv, "id"))
    ensures var c := l.v[cid].value; var text := Param(jv, "message");
      Handle(env, l, sid, jv) == Next(l,
        if NameOf(l, sid) == "" then [Refused(sid, jv, INVALID_PARAMS, "1")]
        else if sid !in c.members then [Refused(sid, jv, INVALID_PARAMS, "not in channel")]
        else if text == None then [Refused(sid, jv, INVALID_PARAMS, "key 'message' not found")]
        else if !text.value.Str? then [Refused(sid, jv, INVALID_PARAMS, "expected string")]
        else [Broadcast(c.members - l.moved, Notice(c.cid, "say", c.name, NameOf(l, sid), text.value.s)),
              Confirmed(sid, jv)])
  {
    AskedCall(env, jv, verb, cid);
    assert "key '" + "message" + "' not found" == "key 'message' not found";
  }

  /** A join: with a name, and not yet in the channel, the session becomes a member, and everybody in the channel,
      with the newcomer, is told. */
  lemma JoinIs(env: Env, l: Lounge, sid: Sid, jv: Json, cid: nat)
    requires Asks(env, jv, "join", cid) && sid !in l.moved && cid < |l.v| && l.v[cid].Some?
    ensures jv.Obj? && IsNumeric(Member(jv, "id"))
    ensures var c := l.v[cid].value; var members := c.members + {sid};
      Handle(env, l, sid, jv) ==
        if NameOf(l, sid) == "" then Next(l, [Refused(sid, jv, INVALID_PARAMS, "1")])
        else if sid in c.members then Next(l, [Refused(sid, jv, INVALID_PARAMS, "Already in channel")])
        else Next(Lounge(l.names, l.v[cid := Some(c.(members := members))], l.moved),
                  [Broadcast(members - l.moved, Notice(c.cid, "join", c.name, NameOf(l, sid), "")), Confirmed(sid, jv)])
  {
    AskedCall(env, jv, "join", cid);
  }

  /** A leave: a member is one no more, and the others and the leaver are told. */
  lemma LeaveIs(env: Env, l: Lounge, sid: Sid, jv: Json, cid: nat)
    requires Asks(env, jv, "leave", cid) && sid !in l.moved && cid < |l.v| && l.v[cid].Some?
    ensures jv.Obj? && IsNumeric(Member(jv, "id"))
    ensures var c := l.v[cid].value; var members := c.members - {sid};
      var notice := Notice(c.cid, "leave", c.name, NameOf(l, sid), "");
      Handle(env, l, sid, jv) ==
        if sid !in c.members then Next(l, [Refused(sid, jv, INVALID_PARAMS, "Not in channel")])
        else Next(Lounge(l.names, l.v[cid := Some(c.(members := members))], l.moved),
                  [Broadcast(members - l.moved, notice), Direct(sid, notice), Confirmed(sid, jv)])
  {
    AskedCall(env, jv, "leave", cid);
  }

  /** An identify on the System channel: a text of at most 20 characters, from a user without a name, becomes the name,
      and the session a member of System, which is told unless it was one. */
  lemma IdentifyIs(env: Env, l: Lounge, sid: Sid, jv: Json, cid: nat)
    requires Asks(env, jv, "identify", cid) && sid !in l.moved
    requires cid < |l.v| && l.v[cid].Some? && l.v[cid].value.kind == System
    ensures jv.Obj? && IsNumeric(Member(jv, "id"))
    ensures var c := l.v[cid].value; var name := Param(jv, "name"); var members := c.members + {sid};
      Handle(env, l, sid, jv) ==
        if name == None then Next(l, [Refused(sid, jv, INVALID_PARAMS, "key 'name' not found")])
        else if !name.value.Str? then Next(l, [Refused(sid, jv, INVALID_PARAMS, "expected string")])
        else if |name.value.s| > 20 then Next(l, [Refused(sid, jv, INVALID_PARAMS, "Invalid \"name\": too long")])
        else if NameOf(l, sid) != "" then Next(l, [Refused(sid, jv, INVALID_PARAMS, "Identity is already set")])
        else Next(Lounge(l.names[sid := name.value.s], l.v[cid := Some(c.(members := members))], l.moved),
                  (if sid in c.members then []
                   else [Broadcast(members - l.moved, Notice(c.cid, "join", c.name, name.value.s, ""))])
                  + [Confirmed(sid, jv)])
  {
    AskedCall(env, jv, "identify", cid);
    assert "key '" + "name" + "' not found" == "key 'name' not found";
    var c := l.v[cid].value;
    if sid in c.members {
      assert c.members + {sid} == c.members && l.v[cid := Some(c)] == l.v;
    }
  }

  /** On the System channel a shutdown asks for thirty seconds, and a stop for a stop. */
  lemma SystemIs(env: Env, l: Lounge, sid: Sid, jv: Json, verb: string, cid: nat)
    requires verb in {"shutdown", "stop"} && Asks(env, jv, verb, cid) && sid !in l.moved
    requires cid < |l.v| && l.v[cid].Some? && l.v[cid].value.kind == System
    ensures jv.Obj? && IsNumeric(Member(jv, "id"))
    ensures Handle(env, l, sid, jv) ==
      Next(l, [if verb == "stop" then StopAsked else ShutdownAsked(30), Confirmed(sid, jv)])
  {
    AskedCall(env, jv, verb, cid);
  }

  /** The methods of a kind of channel, besides joining and leaving. */
  function MethodsOf(kind: Kind): set<string> {
    match kind
    case System => {"identify", "shutdown", "stop"}
    case Room => {"say", "slash"}
    case Table => {"play", "watch", "bet", "start", "hit", "stand"}
  }

  /** A request that nobody handles: the channel does not exist, or does not have the method. */
  lemma UnknownIs(env: Env, l: Lounge, sid: Sid, jv: Json, verb: string, cid: nat)
    requires Asks(env, jv, verb, cid) && sid !in l.moved
    requires cid < |l.v| && l.v[cid].Some? ==> verb !in {"join", "leave"} + MethodsOf(l.v[cid].value.kind)
    ensures jv.Obj? && IsNumeric(Member(jv, "id"))
    ensures Handle(env, l, sid, jv) ==
      Next(l, [if cid < |l.v| && l.v[cid].Some? then Refused(sid, jv, METHOD_NOT_FOUND, METHOD_NOT_FOUND_TEXT)
               else Refused(sid, jv, INVALID_PARAMS, "Unknown cid")])
  {
    AskedCall(env, jv, verb, cid);
  }

  /** A request that names no channel. */
  lemma NoChannelIs(env: Env, l: Lounge, sid: Sid, jv: Json)
    requires Extraction(env.stof, jv).Extracted? && Extraction(env.stof, jv).error == None && sid !in l.moved
    ensures jv.Obj? && IsNumeric(Member(jv, "id"))
    ensures var params := Member(jv, "params");
      && (!params.Obj? ==>
            Handle(env, l, sid, jv) == Next(l, [Refused(sid, jv, INVALID_PARAMS, "expected object")]))
      && (params.Obj? && "cid" !in params.fields ==>
            Handle(env, l, sid, jv) == Next(l, [Refused(sid, jv, INVALID_PARAMS, "key 'cid' not found")]))
  {
    assert Extraction(env.stof, jv).call.params == Member(jv, "params");
  }

  // ---------------------------------------------------------------------------
  // Members and names over a run
  // ---------------------------------------------------------------------------

  predicate IsMember(l: Lounge, cid: nat, sid: Sid) {
    cid < |l.v| && l.v[cid].Some? && sid in l.v[cid].value.members
  }

  /** The message of `sid` was confirmed: what was sent ends with a result for it. */
  predicate Succeeds(env: Env, l: Lounge, m: Message, sid: Sid) {
    var o := Handle(env, l, m.sid, m.jv);
    m.sid == sid && o.Next? && o.sent != [] && o.sent[|o.sent| - 1].Reply? && o.sent[|o.sent| - 1].response.Result?
  }

  /** The message names the channel, and one of the methods. */
  predicate Names(jv: Json, methods: set<string>, cid: nat) {
    && jv.Obj? && Member(jv, "method").Str? && Member(jv, "method").s in methods
    && Member(jv, "params").Obj? && Param(jv, "cid").Some? && Param(jv, "cid").value.Num?
    && ToSize(Param(jv, "cid").value.n) == cid
  }

  /** Whether the last successful join, identify or leave of `sid` on the channel put it in; as at the start if there
      was none. */
  predicate LastPutIn(env: Env, l: Lounge, ms: seq<Message>, cid: nat, sid: Sid)
    decreases |ms|
  {
    if ms == [] then IsMember(l, cid, sid)
    else
      var pre, last := ms[..|ms| - 1], ms[|ms| - 1];
      var decided := Run(env, l, pre).Next? && Succeeds(env, Run(env, l, pre).l, last, sid);
      if decided && Names(last.jv, {"join", "identify"}, cid) then true
      else if decided && Names(last.jv, {"leave"}, cid) then false
      else LastPutIn(env, l, pre, cid, sid)
  }

  predicate CallNames(call: Call, methods: set<string>, cid: nat) {
    && call.name in methods && call.params.Obj? && "cid" in call.params.fields
    && call.params.fields["cid"].Num? && ToSize(call.params.fields["cid"].n) == cid
  }

  /** What a call does to one membership. */
  lemma CallMembers(l: Lounge, sid: Sid, call: Call, cid: nat, who: Sid)
    requires !Dispatch(l, sid, call).Escaped?
    ensures var h := Dispatch(l, sid, call); var mine := h.Completed? && who == sid;
      IsMember(h.l, cid, who) <==>
        if mine && CallNames(call, {"join", "identify"}, cid) then true
        else if mine && CallNames(call, {"leave"}, cid) then false
        else IsMember(l, cid, who)
  {
  }

  /** A request succeeds exactly when its handler completes. */
  lemma SucceedsIff(env: Env, l: Lounge, m: Message, sid: Sid)
    requires Handle(env, l, m.sid, m.jv).Next?
    ensures var e := Extraction(env.stof, m.jv);
      Succeeds(env, l, m, sid) <==> m.sid == sid && e.error == None && Dispatch(l, m.sid, e.call).Completed?
  {
    var e := Extraction(env.stof, m.jv);
    if e.error == None {
      assert e.call.id.Some?;
      var h := Dispatch(l, m.sid, e.call);
      if h.Completed? {
        assert Handle(env, l, m.sid, m.jv).sent == h.sent + Success(m.sid, e.call);
      } else if h.Failed? {
        assert Handle(env, l, m.sid, m.jv).sent == h.sent + Failure(m.sid, e.call, h.code, h.text);
      }
    }
  }

  lemma NamesIff(env: Env, jv: Json, methods: set<string>, cid: nat)
    requires Extraction(env.stof, jv).Extracted? && Extraction(env.stof, jv).error == None
    ensures Names(jv, methods, cid) <==> CallNames(Extraction(env.stof, jv).call, methods, cid)
  {
    var e := Extraction(env.stof, jv);
    assert e.call.name == Member(jv, "method").s && e.call.params == Member(jv, "params");
  }

  /** What a message does to one membership. */
  lemma MessageMembers(env: Env, l: Lounge, m: Message, cid: nat, who: Sid)
    requires Handle(env, l, m.sid, m.jv).Next?
    ensures var decided := Succeeds(env, l, m, who);
      IsMember(Handle(env, l, m.sid, m.jv).l, cid, who) <==>
        if decided && Names(m.jv, {"join", "identify"}, cid) then true
        else if decided && Names(m.jv, {"leave"}, cid) then false
        else IsMember(l, cid, who)
  {
    var e := Extraction(env.stof, m.jv);
    SucceedsIff(env, l, m, who);
    if e.error == None {
      NamesIff(env, m.jv, {"join", "identify"}, cid);
      NamesIff(env, m.jv, {"leave"}, cid);
      CallMembers(l, m.sid, e.call, cid, who);
    }
  }

  /** Main result on members: over any run a session is in a channel exactly if its last successful join, identify or
      leave there put it in. */
  lemma {:induction false} MembersAre(env: Env, l: Lounge, ms: seq<Message>, cid: nat, sid: Sid)
    requires Run(env, l, ms).Next?
    ensures IsMember(Run(env, l, ms).l, cid, sid) <==> LastPutIn(env, l, ms, cid, sid)
    decreases |ms|
  {
    if ms != [] {
      var pre, last := ms[..|ms| - 1], ms[|ms| - 1];
      MembersAre(env, l, pre, cid, sid);
      MessageMembers(env, Run(env, l, pre).l, last, cid, sid);
    }
  }

  /** The name that the last successful identify of `sid` gave, or the empty one after a message for the table; as at
      the start if there was neither. */
  function LastName(env: Env, l: Lounge, ms: seq<Message>, sid: Sid): string
    decreases |ms|
  {
    if ms == [] then NameOf(l, sid)
    else
      var pre, last := ms[..|ms| - 1], ms[|ms| - 1];
      if last.sid == sid && ForTable(env, l, last.jv) then ""
      else if Run(env, l, pre).Next? && Succeeds(env, Run(env, l, pre).l, last, sid) && Identifies(last.jv)
      then Param(last.jv, "name").value.s
      else LastName(env, l, pre, sid)
  }

  predicate Identifies(jv: Json) {
    && jv.Obj? && Member(jv, "method") == Str("identify") && Member(jv, "params").Obj?
    && Param(jv, "name").Some? && Param(jv, "name").value.Str?
  }

  lemma CallName(l: Lounge, sid: Sid, call: Call, who: Sid)
    requires !Dispatch(l, sid, call).Escaped?
    ensures var h := Dispatch(l, sid, call);
      && (h.Completed? && call.name == "identify" ==>
            call.params.Obj? && "name" in call.params.fields && call.params.fields["name"].Str?)
      && NameOf(h.l, who) ==
         if who == sid && h.Posted? then ""
         else if who == sid && h.Completed? && call.name == "identify" then call.params.fields["name"].s
         else NameOf(l, who)
  {
  }

  lemma MessageName(env: Env, l: Lounge, m: Message, who: Sid)
    requires Handle(env, l, m.sid, m.jv).Next?
    ensures NameOf(Handle(env, l, m.sid, m.jv).l, who) ==
      if m.sid == who && ForTable(env, l, m.jv) then ""
      else if Succeeds(env, l, m, who) && Identifies(m.jv) then Param(m.jv, "name").value.s
      else NameOf(l, who)
  {
    var e := Extraction(env.stof, m.jv);
    SucceedsIff(env, l, m, who);
    if e.error == None {
      assert e.call.name == Member(m.jv, "method").s && e.call.params == Member(m.jv, "params");
      PostedIff(l, m.sid, e.call);
      CallName(l, m.sid, e.call, who);
    }
  }

  /** Main result on names: over any run a user's name is the one its last successful identify gave, until it sends a
      message for the table. */
  lemma {:induction false} NamesAre(env: Env, l: Lounge, ms: seq<Message>, sid: Sid)
    requires Run(env, l, ms).Next?
    ensures NameOf(Run(env, l, ms).l, sid) == LastName(env, l, ms, sid) && SameChannels(l, Run(env, l, ms).l)
    decreases |ms|
  {
    if ms != [] {
      var pre, last := ms[..|ms| - 1], ms[|ms| - 1];
      NamesAre(env, l, pre, sid);
      var l1 := Run(env, l, pre).l;
      MessageName(env, l1, last, sid);
      ForTableStays(env, l, l1, last.jv);
      HandleKeepsChannels(env, l1, last.sid, last.jv);
    }
  }

  // ---------------------------------------------------------------------------
  // The handlers as they run
  // ---------------------------------------------------------------------------

  /** How a call to a handler comes back: normally, by an rpc_error, posted to a strand, or by another exception. */
  datatype Return = Normal | Threw(code: int, text: string) | OnStrand | ThrewOther

  /** The handler `h` describes leaves the state `l` and has sent `sent`, and comes back as `r`. */
  predicate Left(h: Handled, r: Return, l: Lounge, sent: seq<Event>) {
    match h
    case Completed(l', sent') => r == Normal && l == l' && sent == sent'
    case Failed(l', sent', code, text) => r == Threw(code, text) && l == l' && sent == sent'
    case Posted(l') => r == OnStrand && l == l' && sent == []
    case Escaped => r == ThrewOther
  }

  /** The channels and users of a worker.  `sent` collects what the current request sends. */
  class Worker {
    var names: map<Sid, string>
    var v: seq<Option<Channel>>
    var moved: set<Sid>
    var sent: seq<Event>

    function Contents(): Lounge
      reads this
    {
      Lounge(names, v, moved)
    }

    constructor (l: Lounge)
      ensures Contents() == l && sent == []
    {
      names, v, moved, sent := l.names, l.v, l.moved, [];
    }

    method InsertSession(cid: nat, sid: Sid) returns (inserted: bool)
      requires Lookup(Contents(), cid).Some? && sent == []
      modifies this`v, this`sent
      ensures (Contents(), sent, inserted) == InsertMember(old(Contents()), cid, sid)
    {
      var c := v[cid].value;
      if sid in c.members {
        return false;
      }
      var joined := c.(members := c.members + {sid});
      v := v[cid := Some(joined)];
      sent := sent + [Broadcast(joined.members - moved, Notice(c.cid, "join", c.name, NameOf(Contents(), sid), ""))];
      assert Contents() == WithMembers(old(Contents()), cid, joined.members);
      assert sent == InsertMember(old(Contents()), cid, sid).1;
      return true;
    }

    method EraseSession(cid: nat, sid: Sid) returns (erased: bool)
      requires Lookup(Contents(), cid).Some? && sent == []
      modifies this`v, this`sent
      ensures (Contents(), sent, erased) == EraseMember(old(Contents()), cid, sid)
    {
      var c := v[cid].value;
      if sid !in c.members {
        return false;
      }
      var remaining := c.(members := c.members - {sid});
      v := v[cid := Some(remaining)];
      var notice := Notice(c.cid, "leave", c.name, NameOf(Contents(), sid), "");
      sent := sent + [Broadcast(remaining.members - moved, notice)];
      sent := sent + [Direct(sid, notice)];
      assert Contents() == WithMembers(old(Contents()), cid, remaining.members);
      assert sent == EraseMember(old(Contents()), cid, sid).1;
      return true;
    }

    method Join(cid: nat, sid: Sid) returns (r: Return)
      requires Lookup(Contents(), cid).Some? && sent == []
      modifies this
      ensures Left(DoJoin(old(Contents()), cid, sid), r, Contents(), sent)
    {
      if NameOf(Contents(), sid) == "" {
        return Threw(INVALID_PARAMS, "1");
      }
      var inserted := InsertSession(cid, sid);
      if !inserted {
        return Threw(INVALID_PARAMS, "Already in channel");
      }
      return Normal;
    }

    method Leave(cid: nat, sid: Sid) returns (r: Return)
      requires Lookup(Contents(), cid).Some? && sent == []
      modifies this
      ensures Left(DoLeave(old(Contents()), cid, sid), r, Contents(), sent)
    {
      var erased := EraseSession(cid, sid);
      if !erased {
        return Threw(INVALID_PARAMS, "Not in channel");
      }
      return Normal;
    }

    method Say(cid: nat, sid: Sid, params: Json) returns (r: Return)
      requires Lookup(Contents(), cid).Some? && sent == []
      modifies this`sent
      ensures Left(DoSay(old(Contents()), cid, sid, params), r, Contents(), sent)
    {
      var c := v[cid].value;
      if NameOf(Contents(), sid) == "" {
        return Threw(INVALID_PARAMS, "1");
      }
      if sid !in c.members {
        return Threw(INVALID_PARAMS, "not in channel");
      }
      var text := CheckedString(params, "message");
      if text.Wrong? {
        return Threw(INVALID_PARAMS, text.text);
      }
      sent := sent + [Broadcast(c.members - moved, Notice(c.cid, "say", c.name, NameOf(Contents(), sid), text.s))];
      return Normal;
    }

    method Identify(cid: nat, sid: Sid, params: Json) returns (r: Return)
      requires Lookup(Contents(), cid).Some? && sent == []
      modifies this
      ensures Left(DoIdentify(old(Contents()), cid, sid, params), r, Contents(), sent)
    {
      var name := CheckedString(params, "name");
      if name.Wrong? {
        return Threw(INVALID_PARAMS, name.text);
      }
      if |name.s| > 20 {
        return Threw(INVALID_PARAMS, "Invalid \"name\": too long");
      }
      if NameOf(Contents(), sid) != "" {
        return Threw(INVALID_PARAMS, "Identity is already set");
      }
      names := names[sid := name.s];
      var _ := InsertSession(cid, sid);
      return Normal;
    }

    /** channel_list_impl::dispatch and channel::dispatch */
    method DispatchCall(sid: Sid, call: Call) returns (r: Return)
      requires sent == []
      modifies this
      ensures Left(Dispatch(old(Contents()), sid, call), r, Contents(), sent)
    {
      if !call.params.Obj? {
        return Threw(INVALID_PARAMS, "expected object");
      }
      if "cid" !in call.params.fields {
        return Threw(INVALID_PARAMS, "key 'cid' not found");
      }
      if !call.params.fields["cid"].Num? {
        return ThrewOther;
      }
      var cid := ToSize(call.params.fields["cid"].n);
      if Lookup(Contents(), cid) == None {
        return Threw(INVALID_PARAMS, "Unknown cid");
      }
      if call.name == "join" {
        r := Join(cid, sid);
        return;
      } else if call.name == "leave" {
        r := Leave(cid, sid);
        return;
      }
      match v[cid].value.kind {
        case System =>
          if call.name == "identify" {
            r := Identify(cid, sid, call.params);
            return;
          } else if call.name == "shutdown" {
            sent := [ShutdownAsked(30)];
            return Normal;
          } else if call.name == "stop" {
            sent := [StopAsked];
            return Normal;
          }
        case Room =>
          if call.name == "say" || call.name == "slash" {
            r := Say(cid, sid, call.params);
            return;
          }
        case Table =>
          if call.name in TableMethods() {
            names, moved := names[sid := ""], moved + {sid};
            return OnStrand;
          }
      }
      return Threw(METHOD_NOT_FOUND, METHOD_NOT_FOUND_TEXT);
    }

    /** One turn of the request loop; false stands for an exception that leaves it. */
    method OnMessage(env: Env, sid: Sid, jv: Json) returns (ok: bool)
      modifies this
      ensures Handle(env, old(Contents()), sid, jv).Next? == ok
      ensures ok ==> Handle(env, old(Contents()), sid, jv) == Next(Contents(), sent)
    {
      sent := [];
      var e := Extract(env.stof, jv);
      if e.Throws? {
        return false;
      }
      var r := if e.error.Some? then Threw(INVALID_REQUEST, env.errorText(e.error.value)) else Normal;
      if r == Normal {
        if sid in moved {
          return false;
        }
        r := DispatchCall(sid, e.call);
      }
      match r {
        case Normal => sent := sent + Success(sid, e.call);
        case Threw(code, text) => sent := sent + Failure(sid, e.call, code, text);
        case OnStrand =>
        case ThrewOther => return false;
      }
      return true;
    }
  }
}
