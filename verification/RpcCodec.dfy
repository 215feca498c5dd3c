/** Reading a response frame: which call, if any, it is attributed to. */
module RpcCodec {
  import opened Options
  import opened JsonTokens

  const UINT64 := 0x1_0000_0000_0000_0000
  const INT64 := 0x8000_0000_0000_0000
  const METHOD_NOT_FOUND := -32601

  datatype Problem = InvalidResponse | Unsolicited | MethodUnavailable | ProtocolError(code: int)

  /** `Answers` may carry a result, no result, or a problem; `Takeover` is the notification that another
      session has connected; `Rejected` belongs to no call. */
  datatype Decoded =
    | Answers(id: nat, result: Option<Json>, problem: Option<Problem>)
    | Takeover
    | Rejected(why: Problem)

  datatype Fields = Fields(kept: map<string, Json>, malformed: bool, duplicateId: bool)

  function First(members: seq<Member>, name: string): Option<Json> {
    if members == [] then None
    else if members[0].name == name then Some(members[0].value)
    else First(members[1..], name)
  }

  function Occurrences(members: seq<Member>, name: string): nat {
    if members == [] then 0 else (if members[0].name == name then 1 else 0) + Occurrences(members[1..], name)
  }

  /** Every name once, every name allowed, no repeated name further down. */
  predicate WellFormed(members: seq<Member>, allowed: set<string>) {
    && DistinctNames(Names(members))
    && (forall m | m in members :: m.name in allowed && UniqueNames(m.value))
  }

  /** What `decodeObjectMembers` makes of an object: the first value of each name. */
  ghost predicate Reads(members: seq<Member>, allowed: set<string>, o: Fields) {
    && (o.malformed <==> !WellFormed(members, allowed))
    && (o.duplicateId <==> Occurrences(members, "id") >= 2)
    && (forall name :: name in o.kept <==> First(members, name).Some?)
    && (forall name | name in o.kept :: First(members, name) == Some(o.kept[name]))
  }

  lemma {:induction false} FirstLast(members: seq<Member>, m: Member, name: string)
    ensures First(members + [m], name)
         == if First(members, name).Some? then First(members, name) else if m.name == name then Some(m.value) else None
    ensures Occurrences(members + [m], name) == Occurrences(members, name) + if m.name == name then 1 else 0
  {
    if members == [] {
      assert [m][1..] == [];
    } else {
      assert (members + [m])[1..] == members[1..] + [m];
      FirstLast(members[1..], m, name);
    }
  }

  lemma {:induction false} OccursIffFirst(members: seq<Member>, name: string)
    ensures Occurrences(members, name) > 0 <==> First(members, name).Some?
    ensures First(members, name).Some? <==> name in Names(members)
  {
    if members != [] {
      OccursIffFirst(members[1..], name);
    }
  }

  lemma {:induction false} DistinctLast(names: seq<string>, name: string)
    ensures DistinctNames(names + [name]) <==> name !in names && DistinctNames(names)
  {
    if names == [] {
      assert [name][1..] == [];
    } else {
      assert (names + [name])[1..] == names[1..] + [name];
      DistinctLast(names[1..], name);
      assert names == [names[0]] + names[1..];
    }
  }

  lemma {:induction false} NamesLast(members: seq<Member>, m: Member)
    ensures Names(members + [m]) == Names(members) + [m.name]
  {
    if members == [] {
      assert [m][1..] == [];
    } else {
      assert (members + [m])[1..] == members[1..] + [m];
      NamesLast(members[1..], m);
    }
  }

  lemma WellFormedLast(members: seq<Member>, m: Member, allowed: set<string>)
    ensures WellFormed(members + [m], allowed)
         <==> WellFormed(members, allowed) && First(members, m.name).None? && m.name in allowed && UniqueNames(m.value)
  {
    NamesLast(members, m);
    DistinctLast(Names(members), m.name);
    OccursIffFirst(members, m.name);
    hide DistinctNames, Names, First, UniqueNames;
    assert forall x | x in members :: x in members + [m];
    assert m in members + [m];
  }

  method DecodeObjectMembers(members: seq<Member>, allowed: set<string>) returns (o: Fields)
    ensures Reads(members, allowed, o)
  {
    var kept: map<string, Json> := map[];
    var malformed, duplicateId := false, false;
    var i := 0;
    while i < |members|
      invariant 0 <= i <= |members|
      invariant Reads(members[..i], allowed, Fields(kept, malformed, duplicateId))
    {
      var m := members[i];
      ghost var before, after := members[..i], members[..i + 1];
      assert after == before + [m];
      WellFormedLast(before, m, allowed);
      OccursIffFirst(before, "id");
      forall name
        ensures First(after, name) == if First(before, name).Some? then First(before, name) else if m.name == name then Some(m.value) else None
        ensures Occurrences(after, name) == Occurrences(before, name) + if m.name == name then 1 else 0
      {
        FirstLast(before, m, name);
      }
      hide First, Occurrences, WellFormed, UniqueNames;
      if m.name in kept {
        malformed := true;
        duplicateId := duplicateId || m.name == "id";
      } else {
        kept := kept[m.name := m.value];
      }
      if m.name !in allowed || !UniqueNames(m.value) {
        malformed := true;
      }
      i := i + 1;
    }
    assert members[..i] == members;
    o := Fields(kept, malformed, duplicateId);
  }

  // ---- The response ----

  const RESPONSE_NAMES: set<string> := {"jsonrpc", "method", "params", "result", "error", "id"}
  const ERROR_NAMES: set<string> := {"code", "message"}

  /** Unmarshalling into an unsigned number: null leaves it zero. */
  function IdOf(j: Json): Option<nat> {
    match j
    case Null => Some(0)
    case Number(n) => if 0 <= n < UINT64 then Some(n) else None
    case _ => None
  }

  function DecodeError(j: Json): Problem {
    if !j.Object? || !WellFormed(j.members, ERROR_NAMES) then InvalidResponse
    else
      var code, message := First(j.members, "code"), First(j.members, "message");
      if code.None? || !code.value.Number? || !(-INT64 <= code.value.n < INT64) || message.None? || !message.value.Text? then InvalidResponse
      else if code.value.n == METHOD_NOT_FOUND then MethodUnavailable
      else ProtocolError(code.value.n)
  }

  function Decode(j: Json): Decoded {
    if !j.Object? || !WellFormed(j.members, RESPONSE_NAMES) then Rejected(InvalidResponse)
    else
      var m := j.members;
      var version, id, methodName := First(m, "jsonrpc"), First(m, "id"), First(m, "method");
      if version != Some(Text("2.0")) then Rejected(InvalidResponse)
      else if id.None? then
        if methodName.None? then Rejected(InvalidResponse)
        else if methodName == Some(Text("otherSessionConnected")) && First(m, "params").None? && First(m, "result").None? && First(m, "error").None?
        then Takeover
        else Rejected(Unsolicited)
      else if IdOf(id.value).None? || methodName.Some? || First(m, "params").Some? then Rejected(InvalidResponse)
      else if First(m, "result").Some? && First(m, "error").Some? then Rejected(InvalidResponse)
      else if First(m, "error").Some? then Answers(IdOf(id.value).value, None, Some(DecodeError(First(m, "error").value)))
      else Answers(IdOf(id.value).value, First(m, "result"), None)
  }

  function Get(kept: map<string, Json>, name: string): Option<Json> {
    if name in kept then Some(kept[name]) else None
  }

  method DecodeRpcError(j: Json) returns (problem: Problem)
    ensures problem == DecodeError(j)
  {
    if !j.Object? {
      return InvalidResponse;
    }
    var o := DecodeObjectMembers(j.members, ERROR_NAMES);
    hide WellFormed, First, Occurrences;
    if o.malformed {
      return InvalidResponse;
    }
    var code, message := Get(o.kept, "code"), Get(o.kept, "message");
    if code.None? || !code.value.Number? || !(-INT64 <= code.value.n < INT64) || message.None? || !message.value.Text? {
      return InvalidResponse;
    }
    problem := if code.value.n == METHOD_NOT_FOUND then MethodUnavailable else ProtocolError(code.value.n);
  }

  method DecodeRpcResponse(j: Json) returns (r: Decoded)
    ensures r == Decode(j)
  {
    if !j.Object? {
      return Rejected(InvalidResponse);
    }
    var o := DecodeObjectMembers(j.members, RESPONSE_NAMES);
    if o.duplicateId {
      TwiceIsMalformed(j.members, RESPONSE_NAMES);
    }
    hide WellFormed, First, Occurrences, DecodeError;
    if o.malformed || o.duplicateId {
      return Rejected(InvalidResponse);
    }
    ghost var m := j.members;
    assert forall name :: Get(o.kept, name) == First(m, name);
    if Get(o.kept, "jsonrpc") != Some(Text("2.0")) {
      return Rejected(InvalidResponse);
    }
    var id, methodName := Get(o.kept, "id"), Get(o.kept, "method");
    if id.None? {
      if methodName.Some? {
        if methodName == Some(Text("otherSessionConnected")) && Get(o.kept, "params").None? && Get(o.kept, "result").None? && Get(o.kept, "error").None? {
          return Takeover;
        }
        return Rejected(Unsolicited);
      }
      return Rejected(InvalidResponse);
    }
    var number := IdOf(id.value);
    if number.None? {
      return Rejected(InvalidResponse);
    }
    if methodName.Some? || Get(o.kept, "params").Some? {
      return Rejected(InvalidResponse);
    }
    var hasResult, hasError := Get(o.kept, "result").Some?, Get(o.kept, "error").Some?;
    if hasResult && hasError {
      return Rejected(InvalidResponse);
    }
    if hasError {
      var problem := DecodeRpcError(Get(o.kept, "error").value);
      return Answers(number.value, None, Some(problem));
    }
    r := Answers(number.value, Get(o.kept, "result"), None);
  }

  lemma {:induction false} TwiceIsMalformed(members: seq<Member>, allowed: set<string>)
    ensures Occurrences(members, "id") >= 2 ==> !WellFormed(members, allowed)
  {
    TwiceNotDistinct(members, "id");
  }

  lemma {:induction false} TwiceNotDistinct(members: seq<Member>, name: string)
    ensures Occurrences(members, name) >= 2 ==> !DistinctNames(Names(members))
  {
    if members != [] {
      TwiceNotDistinct(members[1..], name);
      OccursIffFirst(members[1..], name);
    }
  }

  // ---- What the reading is for ----

  lemma {:induction false} OnceWhenDistinct(members: seq<Member>, name: string)
    requires DistinctNames(Names(members)) && First(members, name).Some?
    ensures Occurrences(members, name) == 1
  {
    if members[0].name != name {
      OnceWhenDistinct(members[1..], name);
    } else {
      OccursIffFirst(members[1..], name);
    }
  }

  /** A frame is attributed to a call exactly when it is one object without repeated or foreign names, of
      the right version, with one identifier in range, no method or parameters, and not both a result and
      an error. */
  lemma AttributionIsExact(j: Json, id: nat)
    ensures (Decode(j).Answers? && Decode(j).id == id && id != 0)
       <==> (&& id != 0 && id < UINT64
             && j.Object? && WellFormed(j.members, RESPONSE_NAMES)
             && First(j.members, "jsonrpc") == Some(Text("2.0"))
             && First(j.members, "id") == Some(Number(id))
             && First(j.members, "method").None? && First(j.members, "params").None?
             && !(First(j.members, "result").Some? && First(j.members, "error").Some?))
    ensures Decode(j).Answers? ==> Occurrences(j.members, "id") == 1
  {
    if Decode(j).Answers? {
      OnceWhenDistinct(j.members, "id");
    }
    hide WellFormed, First, DecodeError;
  }

  /** A takeover is only ever read from the bare notification. */
  lemma TakeoverIsExact(j: Json)
    ensures Decode(j) == Takeover
       <==> (&& j.Object? && WellFormed(j.members, RESPONSE_NAMES)
             && First(j.members, "jsonrpc") == Some(Text("2.0"))
             && First(j.members, "method") == Some(Text("otherSessionConnected"))
             && Occurrences(j.members, "id") == 0 && Occurrences(j.members, "params") == 0
             && Occurrences(j.members, "result") == 0 && Occurrences(j.members, "error") == 0)
  {
    if j.Object? {
      OccursIffFirst(j.members, "id");
      OccursIffFirst(j.members, "params");
      OccursIffFirst(j.members, "result");
      OccursIffFirst(j.members, "error");
    }
    hide WellFormed, First, DecodeError, Occurrences;
  }
}
