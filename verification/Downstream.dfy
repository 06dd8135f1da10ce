/** Which downstream session owns which backend connection.

    Identifiers stand for the shared objects: a connection's `current_session_` is its entry in
    `owner`, a session's `id_` and `conn_` are its entry in `sessions`.  Fresh identifiers come from
    the environment.
 */
module Downstream {

  import opened Wrappers

  type Uuid = nat
  type Conn = nat

  /** The nil uuid. */
  const NIL: Uuid := 0

  datatype Session = Session(id: Uuid, conn: Option<Conn>)

  /** `pool[b]` lists the connections to backend b. */
  datatype Backends = Backends(owner: map<Conn, Uuid>, pool: seq<seq<Conn>>, sessions: map<Uuid, Session>)

  /** A request names a session (or none) and a backend; `newId` and `newConn` are what the generators
      would return next. */
  datatype Request = Request(sess: Uuid, backend: int, newId: Uuid, newConn: Conn)

  /** The session and connection that serve a request; or the exception of `get_connection`. */
  datatype Reply = Served(id: Uuid, conn: Conn) | NoSuchBackend(id: Uuid)

  // ---------------------------------------------------------------------------
  // Specification
  // ---------------------------------------------------------------------------

  predicate Usable(owner: map<Conn, Uuid>, c: Conn, s: Uuid) {
    c in owner && (owner[c] == NIL || owner[c] == s)
  }

  /** The first connection of the list that is free or already the session's. */
  function FirstUsable(owner: map<Conn, Uuid>, list: seq<Conn>, s: Uuid): (r: Option<Conn>)
    ensures r.Some? ==> exists k :: 0 <= k < |list| && r.value == list[k] && Usable(owner, list[k], s)
                                    && forall j :: 0 <= j < k ==> !Usable(owner, list[j], s)
  {
    if list == [] then None
    else if Usable(owner, list[0], s) then Some(list[0])
    else FirstUsable(owner, list[1..], s)
  }

  function FindSession(b: Backends, r: Request): Uuid {
    if r.sess in b.sessions then r.sess else if r.sess == NIL then r.newId else r.sess
  }

  /** get_session: the session with that id, or a new one. */
  function WithSession(b: Backends, id: Uuid): Backends {
    if id in b.sessions then b else b.(sessions := b.sessions[id := Session(id, None)])
  }

  function ValidBackend(b: Backends, backend: int): bool {
    0 <= backend < |b.pool|
  }

  /** get_connection and set_connection.  The list searched is a copy of the pool's, so a connection
      made because none was usable does not enter the pool. */
  function Bind(b: Backends, id: Uuid, backend: int, newConn: Conn): (Backends, Conn)
    requires id in b.sessions && ValidBackend(b, backend)
  {
    var found := FirstUsable(b.owner, b.pool[backend], id);
    var c := if found.Some? then found.value else newConn;
    (b.(owner := b.owner[c := id], sessions := b.sessions[id := b.sessions[id].(conn := Some(c))]), c)
  }

  /** The binding part of start_request. */
  function Serve(b: Backends, r: Request): (Backends, Reply) {
    var id := FindSession(b, r);
    var b1 := WithSession(b, id);
    if b1.sessions[id].conn.Some? then (b1, Served(id, b1.sessions[id].conn.value))
    else if !ValidBackend(b1, r.backend) then (b1, NoSuchBackend(id))
    else
      var (b2, c) := Bind(b1, id, r.backend, r.newConn);
      (b2, Served(id, c))
  }

  /** The generators return identifiers not in use. */
  predicate Fresh(b: Backends, r: Request) {
    r.newId != NIL && r.newId !in b.sessions && r.newConn !in b.owner
  }

  /** The state after a run of requests, if the generators were fresh throughout. */
  function Run(b: Backends, rs: seq<Request>): Option<Backends>
    decreases |rs|
  {
    if rs == [] then Some(b)
    else if !Fresh(b, rs[0]) then None
    else Run(Serve(b, rs[0]).0, rs[1..])
  }

  // ---------------------------------------------------------------------------
  // Invariant and properties of whole runs
  // ---------------------------------------------------------------------------

  /** Every session is filed under its own id, and owns the connection it is bound to; pooled connections exist. */
  ghost predicate Inv(b: Backends) {
    && (forall id :: id in b.sessions ==> id != NIL && b.sessions[id].id == id)
    && (forall id :: id in b.sessions && b.sessions[id].conn.Some? ==>
          b.sessions[id].conn.value in b.owner && b.owner[b.sessions[id].conn.value] == id)
    && (forall i, k :: 0 <= i < |b.pool| && 0 <= k < |b.pool[i]| ==> b.pool[i][k] in b.owner)
  }

  lemma ServeKeepsInv(b: Backends, r: Request)
    requires Inv(b) && Fresh(b, r)
    ensures Inv(Serve(b, r).0)
  {
  }

  lemma {:induction false} RunKeepsInv(b: Backends, rs: seq<Request>)
    requires Inv(b) && Run(b, rs).Some?
    ensures Inv(Run(b, rs).value)
    decreases |rs|
  {
    if rs != [] {
      ServeKeepsInv(b, rs[0]);
      RunKeepsInv(Serve(b, rs[0]).0, rs[1..]);
    }
  }

  /** `b'` came later than `b`: sessions stay, and keep their first connection; connections stay, and
      once owned keep their owner; the pool never changes. */
  ghost predicate Extends(b: Backends, b': Backends) {
    && (forall id :: id in b.sessions ==> id in b'.sessions)
    && (forall id :: id in b.sessions && b.sessions[id].conn.Some? ==> b'.sessions[id] == b.sessions[id])
    && (forall c :: c in b.owner ==> c in b'.owner)
    && (forall c :: c in b.owner && b.owner[c] != NIL ==> b'.owner[c] == b.owner[c])
    && b'.pool == b.pool
  }

  lemma ServeExtends(b: Backends, r: Request)
    requires Inv(b) && Fresh(b, r)
    ensures Extends(b, Serve(b, r).0)
  {
  }

  lemma ExtendsTwice(a: Backends, b: Backends, c: Backends)
    requires Extends(a, b) && Extends(b, c)
    ensures Extends(a, c)
  {
    assert forall id :: id in a.sessions && a.sessions[id].conn.Some? ==> b.sessions[id] == a.sessions[id];
  }

  /** A session keeps its first connection forever, and an owned connection its owner. */
  lemma {:induction false} RunExtends(b: Backends, rs: seq<Request>)
    requires Inv(b) && Run(b, rs).Some?
    ensures Extends(b, Run(b, rs).value)
    decreases |rs|
  {
    if rs != [] {
      var b1 := Serve(b, rs[0]).0;
      ServeKeepsInv(b, rs[0]);
      ServeExtends(b, rs[0]);
      RunExtends(b1, rs[1..]);
      ExtendsTwice(b, b1, Run(b1, rs[1..]).value);
    }
  }

  /** Main result.  After any run: no two sessions share a connection. */
  lemma NoSharing(b: Backends, rs: seq<Request>, s: Uuid, t: Uuid)
    requires Inv(b) && Run(b, rs).Some?
    requires s in Run(b, rs).value.sessions && t in Run(b, rs).value.sessions
    requires Run(b, rs).value.sessions[s].conn.Some?
    requires Run(b, rs).value.sessions[s].conn == Run(b, rs).value.sessions[t].conn
    ensures s == t
  {
    RunKeepsInv(b, rs);
  }

  /** One request: it is served by the session it names, whose connection it returns; it fails exactly when
      that session has no connection yet and the backend does not exist; and it claims at most one
      previously free connection, the one it returns. */
  lemma OneRequest(b: Backends, r: Request)
    requires Inv(b) && Fresh(b, r)
    ensures var (b', reply) := Serve(b, r);
      && (r.sess != NIL ==> reply.id == r.sess)
      && (r.sess == NIL ==> reply.id == r.newId && reply.id !in b.sessions)
      && reply.id in b'.sessions
      && (reply.Served? ==> b'.sessions[reply.id].conn == Some(reply.conn) && b'.owner[reply.conn] == reply.id)
      && (reply.NoSuchBackend? <==>
            !ValidBackend(b, r.backend) && (r.sess in b.sessions ==> b.sessions[r.sess].conn.None?))
      && (r.sess in b.sessions && b.sessions[r.sess].conn.Some? ==>
            reply == Served(r.sess, b.sessions[r.sess].conn.value))
      && (reply.Served? && (r.sess in b.sessions ==> b.sessions[r.sess].conn.None?) ==>
            var found := FirstUsable(b.owner, b.pool[r.backend], reply.id);
            reply.conn == if found.Some? then found.value else r.newConn)
      && (forall c :: c in b.owner && b'.owner[c] != b.owner[c] ==>
            b.owner[c] == NIL && reply == Served(reply.id, c) && c in b.pool[r.backend])
      && (forall c :: c in b'.owner && c !in b.owner ==> c == r.newConn && reply == Served(reply.id, c))
  {
  }

  /** A new connection is made exactly when a session is bound and no pooled connection is usable. */
  lemma NewConnectionIff(b: Backends, r: Request)
    requires Inv(b) && Fresh(b, r)
    ensures var (b', reply) := Serve(b, r);
      r.newConn in b'.owner <==>
        && reply.Served? && (reply.id in b.sessions ==> b.sessions[reply.id].conn.None?)
        && forall c :: c in b.pool[r.backend] ==> b.owner[c] != NIL && b.owner[c] != reply.id
  {
    var id := FindSession(b, r);
    if ValidBackend(b, r.backend) {
      NoneUsable(b.owner, b.pool[r.backend], id);
    }
  }

  lemma {:induction false} NoneUsable(owner: map<Conn, Uuid>, list: seq<Conn>, s: Uuid)
    ensures FirstUsable(owner, list, s).None? <==> forall c :: c in list ==> !Usable(owner, c, s)
  {
    if list != [] {
      NoneUsable(owner, list[1..], s);
      assert forall c :: c in list <==> c == list[0] || c in list[1..];
    }
  }

  // ---------------------------------------------------------------------------
  // The pool stays empty
  // ---------------------------------------------------------------------------

  /** The state in which the server is made: no sessions, and an empty list of connections for each backend. */
  function Initial(backends: nat): Backends {
    Backends(map[], seq(backends, _ => []), map[])
  }

  ghost predicate EmptyPool(b: Backends) {
    forall i :: 0 <= i < |b.pool| ==> b.pool[i] == []
  }

  /** A request that binds a session, when the pool is empty, makes the connection. */
  lemma BindsNew(b: Backends, r: Request, id: Uuid)
    requires EmptyPool(b) && (id in b.sessions ==> b.sessions[id].conn.None?)
    requires var b' := Serve(b, r).0; id in b'.sessions && b'.sessions[id].conn.Some?
    ensures Serve(b, r).1 == Served(id, r.newConn) && Serve(b, r).0.sessions[id].conn == Some(r.newConn)
  {
  }

  lemma ServeKeepsPool(b: Backends, r: Request)
    ensures Serve(b, r).0.pool == b.pool
  {
  }

  /** The k-th request of the run was served for the session `id` with a connection made new for it, which is the
      session's at the end. */
  ghost predicate MadeBy(b: Backends, rs: seq<Request>, id: Uuid, k: nat) {
    && k < |rs| && Run(b, rs[..k]).Some? && Fresh(Run(b, rs[..k]).value, rs[k])
    && Serve(Run(b, rs[..k]).value, rs[k]).1 == Served(id, rs[k].newConn)
    && Run(b, rs).Some? && id in Run(b, rs).value.sessions
    && Run(b, rs).value.sessions[id].conn == Some(rs[k].newConn)
  }

  /** The request among `rs` that bound the session `id`. */
  lemma {:induction false} BoundBy(b: Backends, rs: seq<Request>, id: Uuid) returns (k: nat)
    requires Inv(b) && EmptyPool(b) && Run(b, rs).Some?
    requires id in b.sessions ==> b.sessions[id].conn.None?
    requires id in Run(b, rs).value.sessions && Run(b, rs).value.sessions[id].conn.Some?
    ensures MadeBy(b, rs, id, k)
    decreases |rs|
  {
    var b1 := Serve(b, rs[0]).0;
    ServeKeepsInv(b, rs[0]);
    ServeKeepsPool(b, rs[0]);
    if id in b1.sessions && b1.sessions[id].conn.Some? {
      k := 0;
      BindsNew(b, rs[0], id);
      RunExtends(b1, rs[1..]);
      assert rs[..0] == [];
    } else {
      var j := BoundBy(b1, rs[1..], id);
      k := j + 1;
      assert rs[..k][0] == rs[0] && rs[..k][1..] == rs[1..][..j];
    }
  }

  /** The pool is searched in vain for ever: from the state in which the server is made, every session that
      has a connection got one that was made new for one of its own requests. */
  lemma PoolIsNeverUsed(backends: nat, rs: seq<Request>, id: Uuid)
    requires Run(Initial(backends), rs).Some?
    requires var b := Run(Initial(backends), rs).value; id in b.sessions && b.sessions[id].conn.Some?
    ensures EmptyPool(Run(Initial(backends), rs).value)
    ensures exists k :: MadeBy(Initial(backends), rs, id, k)
  {
    var b := Initial(backends);
    RunExtends(b, rs);
    var k := BoundBy(b, rs, id);
  }

  lemma {:induction false} RunKeepsPool(b: Backends, rs: seq<Request>)
    requires Run(b, rs).Some?
    ensures Run(b, rs).value.pool == b.pool
    decreases |rs|
  {
    if rs != [] {
      ServeKeepsPool(b, rs[0]);
      RunKeepsPool(Serve(b, rs[0]).0, rs[1..]);
    }
  }

  /** After any run every backend that the server was made for is served, and a session without a connection is
      refused any other. */
  lemma EveryBackendIsServed(backends: nat, rs: seq<Request>, r: Request)
    requires Run(Initial(backends), rs).Some? && Fresh(Run(Initial(backends), rs).value, r)
    ensures var b := Run(Initial(backends), rs).value; var reply := Serve(b, r).1;
      && (0 <= r.backend < backends ==> reply.Served?)
      && (!(0 <= r.backend < backends) && (r.sess in b.sessions ==> b.sessions[r.sess].conn.None?) ==>
            reply.NoSuchBackend?)
  {
    RunKeepsPool(Initial(backends), rs);
  }

  // ---------------------------------------------------------------------------
  // The objects
  // ---------------------------------------------------------------------------

  class Server {
    var owner: map<Conn, Uuid>
    var pool: seq<seq<Conn>>
    var sessions: map<Uuid, Session>

    function Contents(): Backends
      reads this
    {
      Backends(owner, pool, sessions)
    }

    /** `set_backends`: one empty list for each backend. */
    constructor (backends: nat)
      ensures Contents() == Initial(backends) && Inv(Contents())
    {
      owner, pool, sessions := map[], seq(backends, _ => []), map[];
    }

    method Acquire(c: Conn, s: Uuid) returns (ok: bool)
      requires c in owner
      modifies this`owner
      ensures ok <==> old(owner)[c] == NIL || old(owner)[c] == s
      ensures owner == if ok then old(owner)[c := s] else old(owner)
    {
      if owner[c] == NIL {
        owner := owner[c := s];
        return true;
      }
      if owner[c] == s {
        return true;
      }
      return false;
    }

    method GetSession(sess: Uuid, newId: Uuid) returns (id: Uuid)
      requires newId != NIL && NIL !in sessions && newId !in sessions
      modifies this`sessions
      ensures id == FindSession(old(Contents()), Request(sess, 0, newId, 0))
      ensures Contents() == WithSession(old(Contents()), id)
    {
      if sess in sessions {
        return sess;
      }
      id := if sess == NIL then newId else sess;
      sessions := sessions[id := Session(id, None)];
    }

    /** `None` stands for the exception.  `con` is the copy of the pool's list. */
    method GetConnection(backend: int, sess: Uuid, newConn: Conn) returns (r: Option<Conn>)
      requires Inv(Contents()) && newConn !in owner
      modifies this`owner
      ensures r.None? <==> !ValidBackend(old(Contents()), backend)
      ensures r.None? ==> owner == old(owner)
      ensures r.Some? ==>
        var found := FirstUsable(old(owner), pool[backend], sess);
        r.value == (if found.Some? then found.value else newConn) && owner == old(owner)[r.value := sess]
    {
      if backend < 0 || backend >= |pool| {
        return None;
      }
      var con := pool[backend];
      var i := 0;
      var found := false;
      while i < |con| && !found
        invariant 0 <= i <= |con| && con == pool[backend]
        invariant found ==> i < |con| && owner == old(owner)[con[i] := sess]
        invariant found ==> FirstUsable(old(owner), con, sess) == Some(con[i])
        invariant !found ==> owner == old(owner)
        invariant !found ==> FirstUsable(old(owner), con, sess) == FirstUsable(old(owner), con[i..], sess)
        decreases |con| - i, !found
      {
        found := Acquire(con[i], sess);
        if !found {
          i := i + 1;
        }
      }
      var c;
      if !found {
        c := newConn;
        owner := owner[c := NIL];
        var ok := Acquire(c, sess);
        con := con + [c];
      } else {
        c := con[i];
      }
      owner := owner[c := sess];
      return Some(c);
    }

    method StartRequest(r: Request) returns (reply: Reply)
      requires Inv(Contents()) && Fresh(Contents(), r)
      modifies this
      ensures (Contents(), reply) == Serve(old(Contents()), r)
      ensures Inv(Contents())
    {
      ServeKeepsInv(Contents(), r);
      var id := GetSession(r.sess, r.newId);
      if sessions[id].conn.Some? {
        return Served(id, sessions[id].conn.value);
      }
      var conn := GetConnection(r.backend, id, r.newConn);
      if conn == None {
        return NoSuchBackend(id);
      }
      sessions := sessions[id := sessions[id].(conn := conn)];
      return Served(id, conn.value);
    }
  }
}
