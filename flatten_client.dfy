/** The nested-client flattener of `services/flattenHttpApiClient.ts`.

    A grouped HTTP API client maps group names to endpoint names to callables.
    Flattening walks the groups and, within each group, the endpoints (both in
    enumeration order) and writes two entries per endpoint into one flat
    dictionary: `group ++ Capitalize(endpoint)`, which forwards the request as
    it is, and the same key followed by `WithResponse`, which forwards it with
    `withResponse` forced to `true`. Nothing guards against two pairs writing
    the same key: the later write wins. */
module FlattenClient {
  import opened Base

  /** Identifies one leaf callable of the nested client. */
  type EndpointId = nat

  /** A group's endpoints, as `Object.entries` enumerates them. */
  type Group = seq<(string, EndpointId)>

  /** The nested client: group name to its endpoints, in enumeration order. */
  type Client = seq<(string, Group)>

  /** A request object: field name to value. */
  type Request = map<string, JsValue>

  /** One (group, endpoint) pair of the client, with the callable it names. */
  datatype Leaf = Leaf(group: string, name: string, endpoint: EndpointId)

  /** A flattened callable: which leaf it forwards to, and whether it forces
      `withResponse` on the forwarded request. */
  datatype FlatEntry = ValueOnly(target: EndpointId) | WithResponse(target: EndpointId)

  /** A call of a leaf callable with a request. */
  datatype Call = Call(endpoint: EndpointId, request: Request)

  // ---------------------------------------------------------------------------
  // Key naming

  /** ASCII upper case of one character; every other character is kept. */
  function UpperAscii(c: char): (u: char)
    ensures 'a' <= c <= 'z' ==> 'A' <= u <= 'Z' && u as int == c as int - 32
    ensures !('a' <= c <= 'z') ==> u == c
  {
    if 'a' <= c <= 'z' then (c as int - 32) as char else c
  }

  /** Upper-cases the first character of `s` and keeps the rest unchanged. */
  function Capitalize(s: string): (r: string)
    ensures |r| == |s|
    ensures forall i :: 1 <= i < |s| ==> r[i] == s[i]
    ensures |s| > 0 ==> r[0] == UpperAscii(s[0])
    ensures |s| > 0 && 'a' <= s[0] <= 'z' ==> 'A' <= r[0] <= 'Z'
  {
    if s == [] then [] else [UpperAscii(s[0])] + s[1..]
  }

  /** Suffix of the key of the variant that returns the raw response too. */
  const ResponseSuffix: string := "WithResponse"

  function ValueKey(l: Leaf): string
  {
    l.group + Capitalize(l.name)
  }

  function ResponseKey(l: Leaf): string
  {
    ValueKey(l) + ResponseSuffix
  }

  /** The entry that leaf `l` writes under key `k` (the with-response
      variant when `k` is its with-response key). */
  function EntryFor(l: Leaf, k: string): FlatEntry
  {
    if k == ResponseKey(l) then WithResponse(l.endpoint) else ValueOnly(l.endpoint)
  }

  // ---------------------------------------------------------------------------
  // The specification: leaves in iteration order, and the writes they make

  /** The leaves of one group, in enumeration order. */
  function GroupLeaves(g: string, eps: Group): (ls: seq<Leaf>)
    ensures |ls| == |eps|
  {
    if eps == [] then []
    else GroupLeaves(g, eps[..|eps| - 1]) + [Leaf(g, eps[|eps| - 1].0, eps[|eps| - 1].1)]
  }

  /** All leaves of the client, groups in order and endpoints in order within each. */
  function Leaves(c: Client): seq<Leaf>
  {
    if c == [] then [] else Leaves(c[..|c| - 1]) + GroupLeaves(c[|c| - 1].0, c[|c| - 1].1)
  }

  /** The two writes the loop body makes for one leaf, value-only first. */
  function WriteLeaf(m: map<string, FlatEntry>, l: Leaf): map<string, FlatEntry>
  {
    m[ValueKey(l) := ValueOnly(l.endpoint)][ResponseKey(l) := WithResponse(l.endpoint)]
  }

  /** The writes of all leaves of `ls`, in order, starting from `m`. */
  function WriteAll(m: map<string, FlatEntry>, ls: seq<Leaf>): map<string, FlatEntry>
  {
    if ls == [] then m else WriteLeaf(WriteAll(m, ls[..|ls| - 1]), ls[|ls| - 1])
  }

  /** The flat dictionary the flattener returns for client `c`. */
  function Flattened(c: Client): map<string, FlatEntry>
  {
    WriteAll(map[], Leaves(c))
  }

  /** The keys generated by the leaves of `ls`. */
  function GeneratedKeys(ls: seq<Leaf>): set<string>
  {
    if ls == [] then {}
    else GeneratedKeys(ls[..|ls| - 1]) + {ValueKey(ls[|ls| - 1]), ResponseKey(ls[|ls| - 1])}
  }

  /** The total number of endpoints over all groups. */
  function TotalEndpoints(c: Client): nat
  {
    if c == [] then 0 else TotalEndpoints(c[..|c| - 1]) + |c[|c| - 1].1|
  }

  /** No two writes of `ls` go to the same key. */
  predicate CollisionFree(ls: seq<Leaf>)
  {
    forall i, j :: 0 <= i < |ls| && 0 <= j < |ls| ==>
      ValueKey(ls[i]) != ResponseKey(ls[j]) &&
      (i != j ==> ValueKey(ls[i]) != ValueKey(ls[j]) && ResponseKey(ls[i]) != ResponseKey(ls[j]))
  }

  lemma GroupLeavesStep(g: string, eps: Group, j: nat)
    requires j < |eps|
    ensures GroupLeaves(g, eps[..j + 1]) == GroupLeaves(g, eps[..j]) + [Leaf(g, eps[j].0, eps[j].1)]
  {
    assert eps[..j + 1][..j] == eps[..j];
  }

  lemma LeavesStep(c: Client, i: nat)
    requires i < |c|
    ensures Leaves(c[..i + 1]) == Leaves(c[..i]) + GroupLeaves(c[i].0, c[i].1)
  {
    assert c[..i + 1][..i] == c[..i];
  }

  /** One turn of the inner loop extends the writes by the next endpoint's leaf. */
  lemma InnerStep(c: Client, i: nat, j: nat)
    requires i < |c| && j < |c[i].1|
    ensures WriteAll(map[], Leaves(c[..i]) + GroupLeaves(c[i].0, c[i].1[..j + 1]))
      == WriteLeaf(WriteAll(map[], Leaves(c[..i]) + GroupLeaves(c[i].0, c[i].1[..j])), Leaf(c[i].0, c[i].1[j].0, c[i].1[j].1))
  {
    var l := Leaf(c[i].0, c[i].1[j].0, c[i].1[j].1);
    GroupLeavesStep(c[i].0, c[i].1, j);
    assert Leaves(c[..i]) + GroupLeaves(c[i].0, c[i].1[..j + 1])
        == (Leaves(c[..i]) + GroupLeaves(c[i].0, c[i].1[..j])) + [l];
    WriteAllSnoc(map[], Leaves(c[..i]) + GroupLeaves(c[i].0, c[i].1[..j]), l);
  }

  /** Entering and leaving the inner loop. */
  lemma GroupBoundaries(c: Client, i: nat)
    requires i < |c|
    ensures Leaves(c[..i]) + GroupLeaves(c[i].0, c[i].1[..0]) == Leaves(c[..i])
    ensures Leaves(c[..i]) + GroupLeaves(c[i].0, c[i].1[..|c[i].1|]) == Leaves(c[..i + 1])
  {
    assert c[i].1[..0] == [];
    assert c[i].1[..|c[i].1|] == c[i].1;
    LeavesStep(c, i);
  }

  lemma WriteAllSnoc(m: map<string, FlatEntry>, ls: seq<Leaf>, l: Leaf)
    ensures WriteAll(m, ls + [l]) == WriteLeaf(WriteAll(m, ls), l)
  {
    assert (ls + [l])[..|ls|] == ls;
  }

  // ---------------------------------------------------------------------------
  // The flattener

  /** The nested loops of the flattener, filling `result` in place. */
  method Flatten(client: Client) returns (result: map<string, FlatEntry>)
    ensures result == Flattened(client)
  {
    result := map[];
    var i := 0;
    while i < |client|
      invariant 0 <= i <= |client|
      invariant result == WriteAll(map[], Leaves(client[..i]))
    {
      var groupKey := client[i].0;
      var group := client[i].1;
      var j := 0;
      GroupBoundaries(client, i);
      while j < |group|
        invariant 0 <= j <= |group|
        invariant result == WriteAll(map[], Leaves(client[..i]) + GroupLeaves(groupKey, group[..j]))
      {
        var endpointKey := group[j].0;
        var endpoint := group[j].1;
        InnerStep(client, i, j);
        var flatKey := groupKey + Capitalize(endpointKey);
        result := result[flatKey := ValueOnly(endpoint)];
        var flatKeyWithResponse := groupKey + Capitalize(endpointKey) + "WithResponse";
        result := result[flatKeyWithResponse := WithResponse(endpoint)];
        j := j + 1;
      }
      i := i + 1;
    }
    assert client[..i] == client;
  }

  // ---------------------------------------------------------------------------
  // Forwarding

  /** The call a flattened entry makes on its leaf for request `req`: the
      value-only variant passes a shallow copy, the other adds `withResponse: true`. */
  function Forward(e: FlatEntry, req: Request): (call: Call)
    ensures call.endpoint == e.target
    ensures e.ValueOnly? ==> call.request == req
    ensures e.WithResponse? ==> call.request.Keys == req.Keys + {"withResponse"}
    ensures e.WithResponse? ==> call.request["withResponse"] == Bool(true)
    ensures e.WithResponse? ==> forall f :: f in req && f != "withResponse" ==> call.request[f] == req[f]
  {
    match e
    case ValueOnly(t) => Call(t, map f | f in req :: req[f])
    case WithResponse(t) => Call(t, req["withResponse" := Bool(true)])
  }

  /** What a leaf returns: its success value, or the value paired with the raw response. */
  datatype Reply<D, R> = Value(data: D) | ValueAndResponse(data: D, response: R)

  /** The leaf callable's contract, taken as given: the transport answers the
      request without its `withResponse` field, and the result is a pair exactly
      when `withResponse` is truthy. */
  function Answer<D, R>(transport: (EndpointId, Request) -> (D, R), call: Call): Reply<D, R>
  {
    var wire := transport(call.endpoint, call.request - {"withResponse"});
    if "withResponse" in call.request && Truthy(call.request["withResponse"])
    then ValueAndResponse(wire.0, wire.1)
    else Value(wire.0)
  }

  // ---------------------------------------------------------------------------
  // Properties

  lemma {:induction false} CapitalizeIdempotent(s: string)
    ensures Capitalize(Capitalize(s)) == Capitalize(s)
  {
    if s != [] {
      assert Capitalize(s)[1..] == s[1..];
    }
  }

  lemma KeysDiffer(l: Leaf, l': Leaf)
    requires ValueKey(l) == ValueKey(l')
    ensures ResponseKey(l) == ResponseKey(l')
    ensures ValueKey(l) != ResponseKey(l')
  {
    assert |ResponseKey(l')| == |ValueKey(l')| + |ResponseSuffix|;
  }

  lemma {:induction false} GroupLeafAt(g: string, eps: Group, j: nat)
    requires j < |eps|
    ensures GroupLeaves(g, eps)[j] == Leaf(g, eps[j].0, eps[j].1)
  {
    if j < |eps| - 1 {
      GroupLeafAt(g, eps[..|eps| - 1], j);
    }
  }

  /** Every pair `(c[i].0, c[i].1[j])` of the client is one of its leaves. */
  lemma {:induction false} PairIsLeaf(c: Client, i: nat, j: nat)
    requires i < |c| && j < |c[i].1|
    ensures Leaf(c[i].0, c[i].1[j].0, c[i].1[j].1) in Leaves(c)
  {
    var last := |c| - 1;
    if i == last {
      GroupLeafAt(c[last].0, c[last].1, j);
      assert GroupLeaves(c[last].0, c[last].1)[j] in GroupLeaves(c[last].0, c[last].1);
    } else {
      PairIsLeaf(c[..last], i, j);
    }
  }

  /** Every leaf comes from some pair of the client. */
  lemma {:induction false} LeafIsPair(c: Client, l: Leaf) returns (i: nat, j: nat)
    requires l in Leaves(c)
    ensures i < |c| && j < |c[i].1| && l == Leaf(c[i].0, c[i].1[j].0, c[i].1[j].1)
  {
    var last := |c| - 1;
    if l in Leaves(c[..last]) {
      i, j := LeafIsPair(c[..last], l);
    } else {
      var gl := GroupLeaves(c[last].0, c[last].1);
      var k :| 0 <= k < |gl| && gl[k] == l;
      GroupLeafAt(c[last].0, c[last].1, k);
      i, j := last, k;
    }
  }

  /** The writes add exactly the generated keys, and leave every other key as it was. */
  lemma {:induction false} WriteAllKeys(m: map<string, FlatEntry>, ls: seq<Leaf>)
    ensures WriteAll(m, ls).Keys == m.Keys + GeneratedKeys(ls)
    ensures forall k :: k in m && k !in GeneratedKeys(ls) ==> WriteAll(m, ls)[k] == m[k]
  {
    if ls != [] {
      WriteAllKeys(m, ls[..|ls| - 1]);
    }
  }

  /** Every key a leaf generates is a generated key. */
  lemma {:induction false} GeneratedKeyOf(ls: seq<Leaf>, n: nat)
    requires n < |ls|
    ensures ValueKey(ls[n]) in GeneratedKeys(ls) && ResponseKey(ls[n]) in GeneratedKeys(ls)
  {
    if n < |ls| - 1 {
      GeneratedKeyOf(ls[..|ls| - 1], n);
    }
  }

  /** Every generated key comes from some leaf. */
  lemma {:induction false} GeneratedKeyOrigin(ls: seq<Leaf>, k: string) returns (n: nat)
    requires k in GeneratedKeys(ls)
    ensures n < |ls| && (k == ValueKey(ls[n]) || k == ResponseKey(ls[n]))
  {
    if k == ValueKey(ls[|ls| - 1]) || k == ResponseKey(ls[|ls| - 1]) {
      n := |ls| - 1;
    } else {
      n := GeneratedKeyOrigin(ls[..|ls| - 1], k);
    }
  }

  /** The value under key `k` is the one written by the last leaf whose writes touch `k`. */
  lemma {:induction false} LastWriteWins(m: map<string, FlatEntry>, ls: seq<Leaf>, i: nat, k: string)
    requires i < |ls|
    requires k == ValueKey(ls[i]) || k == ResponseKey(ls[i])
    requires forall j :: i < j < |ls| ==> k != ValueKey(ls[j]) && k != ResponseKey(ls[j])
    ensures k in WriteAll(m, ls) && WriteAll(m, ls)[k] == EntryFor(ls[i], k)
    decreases |ls|, 1
  {
    if i < |ls| - 1 {
      EarlierWriteSurvives(m, ls, i, k);
    } else {
      WriteLeafOwn(WriteAll(m, ls[..|ls| - 1]), ls[|ls| - 1], k);
    }
  }

  /** The inductive step of `LastWriteWins`: a leaf before the last one keeps
      its entry, because the last leaf does not touch the key. */
  lemma {:induction false} EarlierWriteSurvives(m: map<string, FlatEntry>, ls: seq<Leaf>, i: nat, k: string)
    requires i < |ls| - 1
    requires k == ValueKey(ls[i]) || k == ResponseKey(ls[i])
    requires forall j :: i < j < |ls| ==> k != ValueKey(ls[j]) && k != ResponseKey(ls[j])
    ensures k in WriteAll(m, ls) && WriteAll(m, ls)[k] == EntryFor(ls[i], k)
    decreases |ls|, 0
  {
    var init := ls[..|ls| - 1];
    assert init[i] == ls[i];
    forall j | i < j < |init|
      ensures k != ValueKey(init[j]) && k != ResponseKey(init[j])
    {
      assert init[j] == ls[j];
    }
    LastWriteWins(m, init, i, k);
    WriteLeafKeeps(WriteAll(m, init), ls[|ls| - 1], k);
  }

  /** A leaf's writes leave every key other than its two keys alone. */
  lemma WriteLeafKeeps(m: map<string, FlatEntry>, l: Leaf, k: string)
    requires k in m && k != ValueKey(l) && k != ResponseKey(l)
    ensures k in WriteLeaf(m, l) && WriteLeaf(m, l)[k] == m[k]
  {
  }

  /** A leaf's own keys hold the entries it writes. */
  lemma WriteLeafOwn(m: map<string, FlatEntry>, l: Leaf, k: string)
    requires k == ValueKey(l) || k == ResponseKey(l)
    ensures k in WriteLeaf(m, l) && WriteLeaf(m, l)[k] == EntryFor(l, k)
  {
    KeysDiffer(l, l);
  }

  /** Dropping the last leaf keeps a collision-free sequence collision-free. */
  lemma CollisionFreePrefix(ls: seq<Leaf>)
    requires CollisionFree(ls) && ls != []
    ensures CollisionFree(ls[..|ls| - 1])
  {
    var init := ls[..|ls| - 1];
    forall i, j | 0 <= i < |init| && 0 <= j < |init|
      ensures ValueKey(init[i]) != ResponseKey(init[j]) &&
        (i != j ==> ValueKey(init[i]) != ValueKey(init[j]) && ResponseKey(init[i]) != ResponseKey(init[j]))
    {
      assert init[i] == ls[i] && init[j] == ls[j];
    }
  }

  /** Without collisions, the last leaf's keys are not generated by the leaves before it. */
  lemma LastKeysFresh(ls: seq<Leaf>)
    requires CollisionFree(ls) && ls != []
    ensures ValueKey(ls[|ls| - 1]) !in GeneratedKeys(ls[..|ls| - 1])
    ensures ResponseKey(ls[|ls| - 1]) !in GeneratedKeys(ls[..|ls| - 1])
  {
    var init, x := ls[..|ls| - 1], ls[|ls| - 1];
    if ValueKey(x) in GeneratedKeys(init) {
      var n := GeneratedKeyOrigin(init, ValueKey(x));
    }
    if ResponseKey(x) in GeneratedKeys(init) {
      var n := GeneratedKeyOrigin(init, ResponseKey(x));
    }
  }

  /** Without collisions, the flattened client holds exactly two entries per endpoint. */
  lemma {:induction false} CollisionFreeSize(m: map<string, FlatEntry>, ls: seq<Leaf>)
    requires CollisionFree(ls)
    requires m.Keys !! GeneratedKeys(ls)
    ensures |WriteAll(m, ls)| == |m| + 2 * |ls|
  {
    if ls != [] {
      var init, x := ls[..|ls| - 1], ls[|ls| - 1];
      assert GeneratedKeys(init) <= GeneratedKeys(ls);
      CollisionFreePrefix(ls);
      CollisionFreeSize(m, init);
      WriteAllKeys(m, init);
      LastKeysFresh(ls);
      KeysDiffer(x, x);
    }
  }

  lemma {:induction false} LeavesCount(c: Client)
    ensures |Leaves(c)| == TotalEndpoints(c)
  {
    if c != [] {
      LeavesCount(c[..|c| - 1]);
    }
  }

  /** For every pair `(g, e)` of the client, both `g ++ Capitalize(e)` and
      `g ++ Capitalize(e) ++ "WithResponse"` are keys of the result. */
  lemma BothKeysPresent(c: Client, i: nat, j: nat)
    requires i < |c| && j < |c[i].1|
    ensures c[i].0 + Capitalize(c[i].1[j].0) in Flattened(c)
    ensures c[i].0 + Capitalize(c[i].1[j].0) + "WithResponse" in Flattened(c)
  {
    var l := Leaf(c[i].0, c[i].1[j].0, c[i].1[j].1);
    PairIsLeaf(c, i, j);
    var n :| 0 <= n < |Leaves(c)| && Leaves(c)[n] == l;
    GeneratedKeyOf(Leaves(c), n);
    WriteAllKeys(map[], Leaves(c));
  }

  /** The result holds no key other than those generated from the client's pairs. */
  lemma OnlyGeneratedKeys(c: Client, k: string) returns (i: nat, j: nat)
    requires k in Flattened(c)
    ensures i < |c| && j < |c[i].1|
    ensures k == c[i].0 + Capitalize(c[i].1[j].0) || k == c[i].0 + Capitalize(c[i].1[j].0) + "WithResponse"
  {
    WriteAllKeys(map[], Leaves(c));
    var n := GeneratedKeyOrigin(Leaves(c), k);
    i, j := LeafIsPair(c, Leaves(c)[n]);
  }

  /** Without collisions the result has exactly twice as many keys as the client has endpoints. */
  lemma FlattenedSize(c: Client)
    requires CollisionFree(Leaves(c))
    ensures |Flattened(c)| == 2 * TotalEndpoints(c)
  {
    CollisionFreeSize(map[], Leaves(c));
    LeavesCount(c);
  }

  /** Without collisions, each generated key holds its own pair's variant. */
  lemma FlattenedEntries(c: Client, i: nat, j: nat)
    requires CollisionFree(Leaves(c))
    requires i < |c| && j < |c[i].1|
    ensures c[i].0 + Capitalize(c[i].1[j].0) in Flattened(c)
    ensures Flattened(c)[c[i].0 + Capitalize(c[i].1[j].0)] == ValueOnly(c[i].1[j].1)
    ensures c[i].0 + Capitalize(c[i].1[j].0) + "WithResponse" in Flattened(c)
    ensures Flattened(c)[c[i].0 + Capitalize(c[i].1[j].0) + "WithResponse"] == WithResponse(c[i].1[j].1)
  {
    var ls := Leaves(c);
    var l := Leaf(c[i].0, c[i].1[j].0, c[i].1[j].1);
    PairIsLeaf(c, i, j);
    var n :| 0 <= n < |ls| && ls[n] == l;
    KeysDiffer(l, l);
    LastWriteWins(map[], ls, n, ValueKey(l));
    LastWriteWins(map[], ls, n, ResponseKey(l));
  }

  /** Calling the value-only variant answers like calling the original
      endpoint; the with-response variant answers with the same value paired
      with the raw response, whatever `withResponse` the caller passed. */
  lemma FlatCallsAgree<D, R>(transport: (EndpointId, Request) -> (D, R), c: Client, i: nat, j: nat, req: Request)
    requires CollisionFree(Leaves(c))
    requires i < |c| && j < |c[i].1|
    ensures var flat, the := Flattened(c), c[i].1[j].1;
      var key := c[i].0 + Capitalize(c[i].1[j].0);
      var wire := transport(the, req - {"withResponse"});
      && key in flat && key + "WithResponse" in flat
      && Answer(transport, Forward(flat[key], req)) == Answer(transport, Call(the, req))
      && Answer(transport, Forward(flat[key + "WithResponse"], req)) == ValueAndResponse(wire.0, wire.1)
  {
    FlattenedEntries(c, i, j);
    var fwd := Forward(WithResponse(c[i].1[j].1), req);
    assert fwd.request - {"withResponse"} == req - {"withResponse"};
  }

  lemma CapitalizeLowerF(rest: string)
    ensures Capitalize(['f'] + rest) == ['F'] + rest
  {
    assert (['f'] + rest)[1..] == rest;
  }

  lemma UsersFindByIdKeys()
    ensures ValueKey(Leaf("users", "findById", 0)) == "usersFindById"
    ensures ResponseKey(Leaf("users", "findById", 0)) == "usersFindByIdWithResponse"
  {
    assert "findById" == ['f'] + "indById";
    CapitalizeLowerF("indById");
    assert "users" + (['F'] + "indById") == "usersFindById";
  }

  lemma OtherFindAllKeys()
    ensures ValueKey(Leaf("other", "findAll", 1)) == "otherFindAll"
    ensures ResponseKey(Leaf("other", "findAll", 1)) == "otherFindAllWithResponse"
  {
    assert "findAll" == ['f'] + "indAll";
    CapitalizeLowerF("indAll");
    assert "other" + (['F'] + "indAll") == "otherFindAll";
  }

  lemma TwoGroupLeaves()
    ensures Leaves([("users", [("findById", 0)]), ("other", [("findAll", 1)])])
      == [Leaf("users", "findById", 0), Leaf("other", "findAll", 1)]
  {
    var users: Group := [("findById", 0)];
    var other: Group := [("findAll", 1)];
    var c: Client := [("users", users), ("other", other)];
    assert users[..0] == [] && other[..0] == [];
    assert c[..1] == [("users", users)] && c[..1][..0] == [];
  }

  /** The two-group client of the type tests flattens to exactly four keys. */
  lemma TwoGroupExample()
    ensures Flattened([("users", [("findById", 0)]), ("other", [("findAll", 1)])]).Keys
      == {"usersFindById", "usersFindByIdWithResponse", "otherFindAll", "otherFindAllWithResponse"}
  {
    var u, o := Leaf("users", "findById", 0), Leaf("other", "findAll", 1);
    TwoGroupLeaves();
    assert [u, o][..1] == [u] && [u][..0] == [];
    assert GeneratedKeys([u]) == {ValueKey(u), ResponseKey(u)};
    assert GeneratedKeys([u, o]) == {ValueKey(u), ResponseKey(u), ValueKey(o), ResponseKey(o)};
    WriteAllKeys(map[], [u, o]);
    UsersFindByIdKeys();
    OtherFindAllKeys();
  }

  lemma CollidingLeaves()
    ensures Leaves([("users", [("findById", 0), ("FindById", 1)])])
      == [Leaf("users", "findById", 0), Leaf("users", "FindById", 1)]
  {
    var eps: Group := [("findById", 0), ("FindById", 1)];
    var c: Client := [("users", eps)];
    assert eps[..1] == [("findById", 0)] && eps[..1][..0] == [];
    assert c[..0] == [];
  }

  /** Two endpoints whose names differ only in their first letter collide;
      the one enumerated later takes both keys. */
  lemma CollisionExample()
    ensures Flattened([("users", [("findById", 0), ("FindById", 1)])])
      == map["usersFindById" := ValueOnly(1), "usersFindByIdWithResponse" := WithResponse(1)]
  {
    var a, b := Leaf("users", "findById", 0), Leaf("users", "FindById", 1);
    CollidingLeaves();
    assert [a, b][..1] == [a] && [a][..0] == [];
    assert WriteAll(map[], [a]) == WriteLeaf(map[], a);
    assert WriteAll(map[], [a, b]) == WriteLeaf(WriteLeaf(map[], a), b);
    UsersFindByIdKeys();
    assert Capitalize("FindById") == "FindById";
  }
}
