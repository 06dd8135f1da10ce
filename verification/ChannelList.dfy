/** The list of channels: a vector indexed by channel id, with holes. */
module ChannelList {

  import opened Wrappers

  /** The channel for a cid, or nothing. */
  function At<T>(v: seq<Option<T>>, cid: nat): Option<T> {
    if cid >= |v| then None else v[cid]
  }

  /** The vector as a map from cid to channel. */
  function AsMap<T>(v: seq<Option<T>>): map<nat, T> {
    map cid: nat | cid < |v| && v[cid].Some? :: v[cid].value
  }

  datatype Op<T> = Insert(cid: nat, c: T) | Erase(cid: nat)

  /** The vector grown to hold `cid`. */
  function Grown<T>(v: seq<Option<T>>, cid: nat): seq<Option<T>> {
    if cid < |v| then v else v + seq(cid + 1 - |v|, _ => None)
  }

  /** What the asserts in the code demand: insert at a hole, erase within the vector. */
  predicate Allowed<T>(v: seq<Option<T>>, op: Op<T>) {
    match op
    case Insert(cid, _) => At(v, cid).None?
    case Erase(cid) => cid < |v|
  }

  function Apply<T>(v: seq<Option<T>>, op: Op<T>): seq<Option<T>>
    requires Allowed(v, op)
  {
    match op
    case Insert(cid, c) => Grown(v, cid)[cid := Some(c)]
    case Erase(cid) => v[cid := None]
  }

  function ApplyToMap<T>(m: map<nat, T>, op: Op<T>): map<nat, T> {
    match op
    case Insert(cid, c) => m[cid := c]
    case Erase(cid) => m - {cid}
  }

  /** The vector after a sequence of operations, if each was allowed when it was made. */
  function Run<T>(v: seq<Option<T>>, ops: seq<Op<T>>): Option<seq<Option<T>>>
    decreases |ops|
  {
    if ops == [] then Some(v)
    else if !Allowed(v, ops[0]) then None
    else Run(Apply(v, ops[0]), ops[1..])
  }

  function RunOnMap<T>(m: map<nat, T>, ops: seq<Op<T>>): map<nat, T>
    decreases |ops|
  {
    if ops == [] then m else RunOnMap(ApplyToMap(m, ops[0]), ops[1..])
  }

  lemma ApplyIsMapUpdate<T>(v: seq<Option<T>>, op: Op<T>)
    requires Allowed(v, op)
    ensures AsMap(Apply(v, op)) == ApplyToMap(AsMap(v), op)
    ensures |v| <= |Apply(v, op)|
  {
  }

  /** After any inserts and erases, looking a cid up in the vector is looking it up in a plain map. */
  lemma {:induction false} VectorIsMap<T>(v: seq<Option<T>>, ops: seq<Op<T>>, cid: nat)
    requires Run(v, ops).Some?
    ensures var m := RunOnMap(AsMap(v), ops);
      AsMap(Run(v, ops).value) == m && At(Run(v, ops).value, cid) == if cid in m then Some(m[cid]) else None
    decreases |ops|
  {
    if ops != [] {
      ApplyIsMapUpdate(v, ops[0]);
      VectorIsMap(Apply(v, ops[0]), ops[1..], cid);
    }
  }

  class Channels<T> {
    var v: seq<Option<T>>
    var nextCid: nat

    /** Element 0 is unused; cids given out start at 1001. */
    constructor ()
      ensures AsMap(v) == map[] && |v| == 1 && nextCid == 1000
    {
      v, nextCid := [None], 1000;
    }

    method NextCid() returns (cid: nat)
      modifies this`nextCid
      ensures cid == nextCid == old(nextCid) + 1
    {
      nextCid := nextCid + 1;
      cid := nextCid;
    }

    method Lookup(cid: nat) returns (c: Option<T>)
      ensures c == if cid in AsMap(v) then Some(AsMap(v)[cid]) else None
    {
      if cid >= |v| {
        return None;
      }
      c := v[cid];
    }

    method InsertChannel(cid: nat, c: T)
      requires Allowed(v, Insert(cid, c))
      modifies this`v
      ensures v == Apply(old(v), Insert(cid, c)) && AsMap(v) == old(AsMap(v))[cid := c]
    {
      ApplyIsMapUpdate(v, Insert(cid, c));
      if cid + 1 > |v| {
        v := v + seq(cid + 1 - |v|, _ => None);
      }
      v := v[cid := Some(c)];
    }

    method EraseChannel(cid: nat)
      requires Allowed(v, Op<T>.Erase(cid))
      modifies this`v
      ensures v == Apply(old(v), Erase(cid)) && AsMap(v) == old(AsMap(v)) - {cid}
    {
      ApplyIsMapUpdate(v, Op<T>.Erase(cid));
      v := v[cid := None];
    }
  }
}
