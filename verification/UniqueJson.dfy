/** The strict reader of response frames: JSON values (section 4 of RFC 8259) in which no object repeats
    a name at any depth. */
module JsonTokens {
  import opened Options

  /** `Number` is an integer, `Other` any further literal. */
  datatype Json =
    | Null
    | Other
    | Number(n: int)
    | Text(s: string)
    | Array(items: seq<Json>)
    | Object(members: seq<Member>)

  datatype Member = Member(name: string, value: Json)

  /** What the tokenizer hands out; commas and colons are its own business. */
  datatype Token = OpenBrace | CloseBrace | OpenBracket | CloseBracket | Str(s: string) | Scalar

  function Tokens(j: Json): (r: seq<Token>)
    ensures r != [] && r[0] != CloseBrace && r[0] != CloseBracket
    decreases j
  {
    match j
    case Null => [Scalar]
    case Other => [Scalar]
    case Number(_) => [Scalar]
    case Text(s) => [Str(s)]
    case Array(items) => [OpenBracket] + ItemTokens(items) + [CloseBracket]
    case Object(members) => [OpenBrace] + MemberTokens(members) + [CloseBrace]
  }

  function ItemTokens(items: seq<Json>): seq<Token>
    decreases items
  {
    if items == [] then [] else Tokens(items[0]) + ItemTokens(items[1..])
  }

  function MemberTokens(members: seq<Member>): seq<Token>
    decreases members
  {
    if members == [] then [] else [Str(members[0].name)] + Tokens(members[0].value) + MemberTokens(members[1..])
  }

  function Names(members: seq<Member>): seq<string> {
    if members == [] then [] else [members[0].name] + Names(members[1..])
  }

  predicate DistinctNames(names: seq<string>) {
    names == [] || (names[0] !in names[1..] && DistinctNames(names[1..]))
  }

  /** No object, at any depth, repeats a name. */
  predicate UniqueNames(j: Json)
    decreases j
  {
    match j
    case Array(items) => UniqueItems(items)
    case Object(members) => DistinctNames(Names(members)) && UniqueMembers(members)
    case _ => true
  }

  predicate UniqueItems(items: seq<Json>)
    decreases items
  {
    items == [] || (UniqueNames(items[0]) && UniqueItems(items[1..]))
  }

  predicate UniqueMembers(members: seq<Member>)
    decreases members
  {
    members == [] || (UniqueNames(members[0].value) && UniqueMembers(members[1..]))
  }

  // ---- The recognizer on the remaining tokens ----

  predicate More(tokens: seq<Token>) {
    tokens != [] && tokens[0] != CloseBrace && tokens[0] != CloseBracket
  }

  /** What is left after one value, or None when it is refused. */
  function Consume(tokens: seq<Token>): (r: Option<seq<Token>>)
    ensures r.Some? ==> |r.value| < |tokens|
    decreases |tokens|, 1
  {
    if tokens == [] then None
    else
      match tokens[0]
      case OpenBrace => ConsumeMembers(tokens[1..], {})
      case OpenBracket => ConsumeItems(tokens[1..])
      case CloseBrace => None
      case CloseBracket => None
      case _ => Some(tokens[1..])
  }

  function ConsumeMembers(tokens: seq<Token>, keys: set<string>): (r: Option<seq<Token>>)
    ensures r.Some? ==> |r.value| < |tokens|
    decreases |tokens|, 0
  {
    if !More(tokens) then if tokens != [] && tokens[0] == CloseBrace then Some(tokens[1..]) else None
    else if !tokens[0].Str? || tokens[0].s in keys then None
    else
      match Consume(tokens[1..])
      case None => None
      case Some(rest) => ConsumeMembers(rest, keys + {tokens[0].s})
  }

  function ConsumeItems(tokens: seq<Token>): (r: Option<seq<Token>>)
    ensures r.Some? ==> |r.value| < |tokens|
    decreases |tokens|, 2
  {
    if !More(tokens) then if tokens != [] && tokens[0] == CloseBracket then Some(tokens[1..]) else None
    else
      match Consume(tokens)
      case None => None
      case Some(rest) => ConsumeItems(rest)
  }

  // ---- What it recognizes ----

  predicate NoneIn(names: seq<string>, keys: set<string>) {
    forall n | n in names :: n !in keys
  }

  /** On the tokens of any value followed by anything, the recognizer succeeds exactly when no object in
      the value repeats a name, and then stops exactly at what follows. */
  lemma {:induction false} RecognizesUnique(j: Json, suffix: seq<Token>)
    ensures Consume(Tokens(j) + suffix) == if UniqueNames(j) then Some(suffix) else None
    decreases j
  {
    var all := Tokens(j) + suffix;
    match j
    case Array(items) =>
      assert all[1..] == ItemTokens(items) + ([CloseBracket] + suffix);
      RecognizesItems(items, suffix);
    case Object(members) =>
      assert all[1..] == MemberTokens(members) + ([CloseBrace] + suffix);
      RecognizesMembers(members, {}, suffix);
    case _ =>
      assert all[1..] == suffix;
  }

  lemma {:induction false} RecognizesItems(items: seq<Json>, suffix: seq<Token>)
    ensures ConsumeItems(ItemTokens(items) + ([CloseBracket] + suffix)) == if UniqueItems(items) then Some(suffix) else None
    decreases items
  {
    var tail := [CloseBracket] + suffix;
    if items == [] {
      assert ItemTokens(items) + tail == tail && tail[1..] == suffix;
    } else {
      var rest := ItemTokens(items[1..]) + tail;
      assert ItemTokens(items) + tail == Tokens(items[0]) + rest;
      RecognizesUnique(items[0], rest);
      RecognizesItems(items[1..], suffix);
    }
  }

  lemma {:induction false} RecognizesMembers(members: seq<Member>, keys: set<string>, suffix: seq<Token>)
    ensures ConsumeMembers(MemberTokens(members) + ([CloseBrace] + suffix), keys)
         == if NoneIn(Names(members), keys) && DistinctNames(Names(members)) && UniqueMembers(members) then Some(suffix) else None
    decreases members
  {
    var tail := [CloseBrace] + suffix;
    if members == [] {
      assert MemberTokens(members) + tail == tail && tail[1..] == suffix;
    } else {
      var m, others := members[0], members[1..];
      var rest := MemberTokens(others) + tail;
      RecognizesUnique(m.value, rest);
      RecognizesMembers(others, keys + {m.name}, suffix);
      NamesOnward(m.name, Names(others), keys);
      assert members == [m] + others;
      MemberOnward(m, others);
      MembersStep(m.name, Tokens(m.value) + rest, keys);
      Regrouped([Str(m.name)], Tokens(m.value), MemberTokens(others), tail);
      hide ConsumeMembers, Consume, MemberTokens, Tokens, NoneIn, DistinctNames, UniqueNames, UniqueMembers, Names;
    }
  }

  /** One turn of the loop over the members. */
  lemma MembersStep(name: string, body: seq<Token>, keys: set<string>)
    ensures ConsumeMembers([Str(name)] + body, keys)
         == (if name in keys then None
             else match Consume(body)
                  case None => None
                  case Some(after) => ConsumeMembers(after, keys + {name}))
  {
    var all := [Str(name)] + body;
    assert all[1..] == body && all[0] == Str(name);
    hide Consume;
  }

  lemma MemberOnward(m: Member, others: seq<Member>)
    ensures MemberTokens([m] + others) == [Str(m.name)] + Tokens(m.value) + MemberTokens(others)
    ensures Names([m] + others) == [m.name] + Names(others)
    ensures UniqueMembers([m] + others) <==> UniqueNames(m.value) && UniqueMembers(others)
  {
    assert ([m] + others)[1..] == others;
    hide Tokens, UniqueNames;
  }

  lemma NamesOnward(name: string, names: seq<string>, keys: set<string>)
    ensures NoneIn([name] + names, keys) <==> name !in keys && NoneIn(names, keys)
    ensures NoneIn(names, keys + {name}) <==> NoneIn(names, keys) && name !in names
    ensures DistinctNames([name] + names) <==> name !in names && DistinctNames(names)
  {
    assert ([name] + names)[1..] == names;
    assert forall n | n in names :: n in [name] + names;
    assert name in [name] + names;
  }

  // ---- And nothing else ----

  /** Whatever is accepted is the tokens of a value without repeated names. */
  lemma {:induction false} AcceptedIsValue(tokens: seq<Token>) returns (j: Json)
    requires Consume(tokens).Some?
    ensures tokens == Tokens(j) + Consume(tokens).value && UniqueNames(j)
    decreases |tokens|, 1
  {
    var rest := Consume(tokens).value;
    match tokens[0] {
      case OpenBrace =>
        var members := AcceptedMembers(tokens[1..], {});
        j := Object(members);
        assert tokens == [OpenBrace] + (MemberTokens(members) + ([CloseBrace] + rest));
      case OpenBracket =>
        var items := AcceptedItems(tokens[1..]);
        j := Array(items);
        assert tokens == [OpenBracket] + (ItemTokens(items) + ([CloseBracket] + rest));
      case Str(s) => j := Text(s);
      case _ => j := Null;
    }
  }

  lemma {:induction false} AcceptedItems(tokens: seq<Token>) returns (items: seq<Json>)
    requires ConsumeItems(tokens).Some?
    ensures tokens == ItemTokens(items) + ([CloseBracket] + ConsumeItems(tokens).value) && UniqueItems(items)
    decreases |tokens|, 2
  {
    hide Consume, Tokens, UniqueNames, ItemTokens, UniqueItems;
    NoItems(tokens);
    if !More(tokens) {
      items := [];
    } else {
      var j := AcceptedIsValue(tokens);
      var others := AcceptedItems(Consume(tokens).value);
      items := [j] + others;
      ItemOnward(j, others);
      Regrouped([], Tokens(j), ItemTokens(others), [CloseBracket] + ConsumeItems(tokens).value);
      assert [] + Tokens(j) == Tokens(j);
    }
  }

  lemma NoItems(tokens: seq<Token>)
    requires ConsumeItems(tokens).Some?
    ensures !More(tokens) ==> tokens == ItemTokens([]) + ([CloseBracket] + ConsumeItems(tokens).value)
    ensures UniqueItems([])
  {
    hide Consume;
  }

  lemma ItemOnward(j: Json, others: seq<Json>)
    ensures ItemTokens([j] + others) == Tokens(j) + ItemTokens(others)
    ensures UniqueItems([j] + others) <==> UniqueNames(j) && UniqueItems(others)
  {
    assert ([j] + others)[1..] == others;
    hide Tokens, UniqueNames;
  }

  lemma {:induction false} AcceptedMembers(tokens: seq<Token>, keys: set<string>) returns (members: seq<Member>)
    requires ConsumeMembers(tokens, keys).Some?
    ensures tokens == MemberTokens(members) + ([CloseBrace] + ConsumeMembers(tokens, keys).value)
    ensures NoneIn(Names(members), keys) && DistinctNames(Names(members)) && UniqueMembers(members)
    decreases |tokens|, 0
  {
    hide ConsumeMembers, Consume, MemberTokens, Tokens, NoneIn, DistinctNames, UniqueNames, UniqueMembers, Names;
    MembersEnd(tokens, keys);
    if !More(tokens) {
      members := [];
    } else {
      var name, body := tokens[0].s, tokens[1..];
      MembersStep(name, body, keys);
      var j := AcceptedIsValue(body);
      var others := AcceptedMembers(Consume(body).value, keys + {name});
      members := [Member(name, j)] + others;
      MemberOnward(Member(name, j), others);
      NamesOnward(name, Names(others), keys);
      Regrouped([Str(name)], Tokens(j), MemberTokens(others), [CloseBrace] + ConsumeMembers(tokens, keys).value);
    }
  }

  lemma Regrouped(a: seq<Token>, b: seq<Token>, c: seq<Token>, d: seq<Token>)
    ensures a + (b + (c + d)) == (a + b + c) + d
  {
  }

  /** The loop stops at the closing brace. */
  lemma MembersEnd(tokens: seq<Token>, keys: set<string>)
    requires ConsumeMembers(tokens, keys).Some?
    ensures if More(tokens) then tokens == [Str(tokens[0].s)] + tokens[1..]
            else tokens == MemberTokens([]) + ([CloseBrace] + ConsumeMembers(tokens, keys).value)
    ensures NoneIn(Names([]), keys) && DistinctNames(Names([])) && UniqueMembers([])
  {
    hide Consume;
  }

  /** The tokens of one value without repeated names, and no more. */
  ghost predicate IsUniqueValue(tokens: seq<Token>) {
    exists j: Json :: Tokens(j) == tokens && UniqueNames(j)
  }

  lemma AcceptedExactly(tokens: seq<Token>)
    ensures Consume(tokens) == Some([]) <==> IsUniqueValue(tokens)
  {
    if Consume(tokens) == Some([]) {
      var j := AcceptedIsValue(tokens);
      assert Tokens(j) + [] == Tokens(j);
    }
    if IsUniqueValue(tokens) {
      var j: Json :| Tokens(j) == tokens && UniqueNames(j);
      RecognizesUnique(j, []);
      assert Tokens(j) + [] == Tokens(j);
    }
    hide Consume, Tokens, UniqueNames;
  }
}

module JsonDecoders {
  import opened Options
  import opened JsonTokens

  /** The token stream of a frame and how far it has been read. */
  class Decoder {
    const tokens: seq<Token>
    var position: nat

    ghost predicate Valid()
      reads this
    {
      position <= |tokens|
    }

    ghost function Rest(): seq<Token>
      requires Valid()
      reads this
    {
      tokens[position..]
    }

    constructor (tokens: seq<Token>)
      ensures Valid() && Rest() == tokens
    {
      this.tokens, position := tokens, 0;
    }

    method HasMore() returns (more: bool)
      requires Valid()
      ensures more == More(Rest())
    {
      more := position < |tokens| && tokens[position] != CloseBrace && tokens[position] != CloseBracket;
    }

    method Next() returns (token: Option<Token>)
      requires Valid()
      modifies this`position
      ensures Valid()
      ensures if old(Rest()) == [] then token == None && Rest() == [] else token == Some(old(Rest())[0]) && Rest() == old(Rest())[1..]
    {
      if position == |tokens| {
        return None;
      }
      token := Some(tokens[position]);
      position := position + 1;
    }

    method ConsumeUnique() returns (ok: bool)
      requires Valid()
      modifies this`position
      ensures Valid()
      ensures ok <==> Consume(old(Rest())).Some?
      ensures ok ==> Rest() == Consume(old(Rest())).value
      decreases |tokens| - position, 1
    {
      var token := Next();
      if token.None? {
        return false;
      }
      match token.value {
        case OpenBrace => ok := ConsumeObject();
        case OpenBracket => ok := ConsumeArray();
        case CloseBrace => ok := false;
        case CloseBracket => ok := false;
        case _ => ok := true;
      }
    }

    method ConsumeObject() returns (ok: bool)
      requires Valid()
      modifies this`position
      ensures Valid()
      ensures ok <==> ConsumeMembers(old(Rest()), {}).Some?
      ensures ok ==> Rest() == ConsumeMembers(old(Rest()), {}).value
      decreases |tokens| - position, 0
    {
      var keys: set<string> := {};
      var more := HasMore();
      while more
        invariant Valid() && position >= old(position) && more == More(Rest())
        invariant ConsumeMembers(Rest(), keys) == ConsumeMembers(old(Rest()), {})
        decreases |tokens| - position
      {
        ghost var before := Rest();
        var key := Next();
        if key.None? || !key.value.Str? {
          return false;
        }
        if key.value.s in keys {
          return false;
        }
        keys := keys + {key.value.s};
        ok := ConsumeUnique();
        if !ok {
          return false;
        }
        more := HasMore();
      }
      var closing := Next();
      ok := closing == Some(CloseBrace);
    }

    method ConsumeArray() returns (ok: bool)
      requires Valid()
      modifies this`position
      ensures Valid()
      ensures ok <==> ConsumeItems(old(Rest())).Some?
      ensures ok ==> Rest() == ConsumeItems(old(Rest())).value
      decreases |tokens| - position, 2
    {
      var more := HasMore();
      while more
        invariant Valid() && position >= old(position) && more == More(Rest())
        invariant ConsumeItems(Rest()) == ConsumeItems(old(Rest()))
        decreases |tokens| - position
      {
        ok := ConsumeUnique();
        if !ok {
          return false;
        }
        more := HasMore();
      }
      var closing := Next();
      ok := closing == Some(CloseBracket);
    }
  }

  /** A frame, whatever its tokens, is accepted exactly when it is one value without repeated names. */
  method UniqueValue(tokens: seq<Token>) returns (ok: bool)
    ensures ok <==> IsUniqueValue(tokens)
  {
    var decoder := new Decoder(tokens);
    AcceptedExactly(tokens);
    ok := decoder.ConsumeUnique();
    if ok {
      var next := decoder.Next();
      ok := next.None?;
    }
  }
}
