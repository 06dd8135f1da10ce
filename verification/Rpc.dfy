/** JSON-RPC requests: what is extracted from a message, and what goes wrong.

    The text of a message has been parsed; numbers are integers.
 */
module Rpc {

  import opened Wrappers

  datatype Json =
    | Null
    | Bool(b: bool)
    | Num(n: int)
    | Str(s: string)
    | Arr(items: seq<Json>)
    | Obj(fields: map<string, Json>)

  const INVALID_REQUEST := -32600
  const METHOD_NOT_FOUND := -32601
  const INVALID_PARAMS := -32602
  const EXPECTED_OBJECT := 1
  const UNKNOWN_VERSION := 3
  const INVALID_NULL_ID := 4
  const EXPECTED_STRUCTURED_PARAMS := 9
  const MISSING_PARAMS := 10
  const EXPECTED_ARRAY_PARAMS := 11

  /** What std::stof makes of the text of the version: nothing (it throws), 1, 2, or another number. */
  datatype VersionText = NotANumber | One | Two | Another

  /** `id` is empty until it has been extracted. */
  datatype Call = Call(id: Option<int>, version: int, name: string, params: Json)

  const EMPTY_CALL := Call(None, 2, "", Null)

  /** The call as far as it was extracted with the error found, if any; or an exception that is not an rpc_error. */
  datatype Extracted = Extracted(call: Call, error: Option<int>) | Throws

  // ---------------------------------------------------------------------------
  // Conversions of the JSON library
  // ---------------------------------------------------------------------------

  /** `jv[key]` on an object: a missing member reads as null. */
  function Member(jv: Json, key: string): Json
    requires jv.Obj?
  {
    if key in jv.fields then jv.fields[key] else Null
  }

  predicate IsNumeric(jv: Json) {
    jv.Num? || jv.Bool?
  }

  function NumberOf(jv: Json): int
    requires IsNumeric(jv)
  {
    if jv.Num? then jv.n else if jv.b then 1 else 0
  }

  /** `get<int>()`: 32 bits, two's complement. */
  function ToInt(n: int): (r: int)
    ensures -0x8000_0000 <= r < 0x8000_0000
    ensures (r - n) % 0x1_0000_0000 == 0
    ensures -0x8000_0000 <= n < 0x8000_0000 ==> r == n
  {
    (n + 0x8000_0000) % 0x1_0000_0000 - 0x8000_0000
  }

  /** `get<size_t>()`: 64 bits, unsigned. */
  function ToSize(n: int): (r: nat)
    ensures r < 0x1_0000_0000_0000_0000
    ensures (r - n) % 0x1_0000_0000_0000_0000 == 0
    ensures 0 <= n < 0x1_0000_0000_0000_0000 ==> r == n
  {
    n % 0x1_0000_0000_0000_0000
  }

  // ---------------------------------------------------------------------------
  // Which requests are good
  // ---------------------------------------------------------------------------

  /** An object with a numeric id, a version that reads as a number, and a string method. */
  predicate WellTyped(stof: string -> VersionText, jv: Json) {
    && jv.Obj?
    && IsNumeric(Member(jv, "id"))
    && Member(jv, "jsonrpc").Str? && stof(Member(jv, "jsonrpc").s) != NotANumber
    && Member(jv, "method").Str?
  }

  function IdOf(jv: Json): int
    requires jv.Obj? && IsNumeric(Member(jv, "id"))
  {
    ToInt(NumberOf(Member(jv, "id")))
  }

  /** The error a well-typed request is rejected with, if any; the first applicable one in this order. */
  function RejectedWith(stof: string -> VersionText, jv: Json): Option<int>
    requires WellTyped(stof, jv)
  {
    var version := stof(Member(jv, "jsonrpc").s);
    var given, params := "params" in jv.fields, Member(jv, "params");
    if version == Another then Some(UNKNOWN_VERSION)
    else if version == Two && IdOf(jv) < 0 then Some(INVALID_NULL_ID)
    else if version == Two && given && !params.Obj? && !params.Arr? then Some(EXPECTED_STRUCTURED_PARAMS)
    else if version == One && !given then Some(MISSING_PARAMS)
    else if version == One && !params.Arr? then Some(EXPECTED_ARRAY_PARAMS)
    else None
  }

  /** What the extracted call holds when nothing is wrong. */
  predicate CallOf(stof: string -> VersionText, jv: Json, call: Call)
    requires WellTyped(stof, jv)
  {
    && call.id == Some(IdOf(jv))
    && call.version == (if stof(Member(jv, "jsonrpc").s) == Two then 2 else 1)
    && call.name == Member(jv, "method").s
    && call.params == Member(jv, "params")
  }

  /** The parameters, given the version. */
  function WithParams(call: Call, fields: map<string, Json>): Extracted {
    if call.version == 2 then
      if "params" !in fields then Extracted(call, None)
      else if !fields["params"].Obj? && !fields["params"].Arr? then Extracted(call, Some(EXPECTED_STRUCTURED_PARAMS))
      else Extracted(call.(params := fields["params"]), None)
    else if "params" !in fields then Extracted(call, Some(MISSING_PARAMS))
    else if !fields["params"].Arr? then Extracted(call, Some(EXPECTED_ARRAY_PARAMS))
    else Extracted(call.(params := fields["params"]), None)
  }

  /** rpc_call::extract on a fresh call. */
  function Extraction(stof: string -> VersionText, jv: Json): Extracted {
    if !jv.Obj? then Extracted(EMPTY_CALL, Some(EXPECTED_OBJECT))
    else if !IsNumeric(Member(jv, "id")) then Throws
    else
      var id := IdOf(jv);
      var text := Member(jv, "jsonrpc");
      if !text.Str? || stof(text.s) == NotANumber then Throws
      else if stof(text.s) == Another then Extracted(EMPTY_CALL.(id := Some(id), version := 1), Some(UNKNOWN_VERSION))
      else
        var call := EMPTY_CALL.(id := Some(id), version := if stof(text.s) == Two then 2 else 1);
        if call.version == 2 && id < 0 then Extracted(call, Some(INVALID_NULL_ID))
        else if !Member(jv, "method").Str? then Throws
        else WithParams(call.(name := Member(jv, "method").s), jv.fields)
  }

  /** A well-typed request keeps its id whatever else is wrong; it is accepted exactly when no error
      applies, and then the call holds the request's parts. */
  lemma ExtractionOfWellTyped(stof: string -> VersionText, jv: Json)
    requires WellTyped(stof, jv)
    ensures var r := Extraction(stof, jv);
      && r.Extracted? && r.call.id == Some(IdOf(jv)) && r.error == RejectedWith(stof, jv)
      && (r.error == None ==> CallOf(stof, jv, r.call))
  {
  }

  /** An exception other than rpc_error escapes exactly for these ill-typed objects. */
  lemma ThrowsIff(stof: string -> VersionText, jv: Json)
    ensures Extraction(stof, jv).Throws? <==>
      jv.Obj? && (
        || !IsNumeric(Member(jv, "id"))
        || !Member(jv, "jsonrpc").Str?
        || stof(Member(jv, "jsonrpc").s) == NotANumber
        || (!Member(jv, "method").Str? && stof(Member(jv, "jsonrpc").s) != Another
              && !(stof(Member(jv, "jsonrpc").s) == Two && IdOf(jv) < 0)))
  {
  }

  /** The same, step by step as the code does it. */
  method Extract(stof: string -> VersionText, jv: Json) returns (r: Extracted)
    ensures r == Extraction(stof, jv)
  {
    var call := EMPTY_CALL;
    if !jv.Obj? {
      return Extracted(call, Some(EXPECTED_OBJECT));
    }
    // the id first, so that the response to an error can include it
    var id := Member(jv, "id");
    if !IsNumeric(id) {
      return Throws;
    }
    call := call.(id := Some(ToInt(NumberOf(id))));
    // the version
    call := call.(version := 1);
    var text := Member(jv, "jsonrpc");
    if !text.Str? {
      return Throws;
    }
    match stof(text.s) {
      case NotANumber => return Throws;
      case One => call := call.(version := 1);
      case Two => call := call.(version := 2);
      case Another => return Extracted(call, Some(UNKNOWN_VERSION));
    }
    // the id against the version; it is always present here
    if call.version == 2 && call.id.value < 0 {
      return Extracted(call, Some(INVALID_NULL_ID));
    }
    var name := Member(jv, "method");
    if !name.Str? {
      return Throws;
    }
    call := call.(name := name.s);
    // the parameters
    if call.version == 2 {
      if "params" in jv.fields {
        if !jv.fields["params"].Obj? && !jv.fields["params"].Arr? {
          return Extracted(call, Some(EXPECTED_STRUCTURED_PARAMS));
        }
        call := call.(params := jv.fields["params"]);
      }
    } else {
      if "params" !in jv.fields {
        return Extracted(call, Some(MISSING_PARAMS));
      }
      if !jv.fields["params"].Arr? {
        return Extracted(call, Some(EXPECTED_ARRAY_PARAMS));
      }
      call := call.(params := jv.fields["params"]);
    }
    return Extracted(call, None);
  }
}
