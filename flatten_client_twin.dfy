/** The second copy of the flattener, `services/FlattenHttpApiClient.ts`.

    It declares its own `Capitalize` and its own nested loops; they differ from
    `services/flattenHttpApiClient.ts` only in the type-level declarations
    around them. This module models the copy's runtime code on its own and
    proves that it computes the same flat dictionary as the other file. */
module FlattenClientTwin {
  import opened FlattenClient

  /** This file's `Capitalize`: first character upper-cased, rest kept. */
  function Capitalize(s: string): (r: string)
    ensures r == FlattenClient.Capitalize(s)
  {
    if s == [] then [] else [UpperAscii(s[0])] + s[1..]
  }

  /** This file's nested loops. For identical input the result is identical
      to that of `FlattenClient.Flatten`. */
  method Flatten(client: Client) returns (result: map<string, FlatEntry>)
    ensures result == Flattened(client)
  {
    result := map[];
    var i := 0;
    while i < |client|
      invariant 0 <= i <= |client|
      invariant result == WriteAll(map[], Leaves(client[..i]))
    {
      var groupKey := client[i].0;
      var group := client[i].1;
      var j := 0;
      GroupBoundaries(client, i);
      while j < |group|
        invariant 0 <= j <= |group|
        invariant result == WriteAll(map[], Leaves(client[..i]) + GroupLeaves(groupKey, group[..j]))
      {
        var endpointKey := group[j].0;
        var endpoint := group[j].1;
        InnerStep(client, i, j);
        var flatKey := groupKey + Capitalize(endpointKey);
        result := result[flatKey := ValueOnly(endpoint)];
        var flatKeyWithResponse := groupKey + Capitalize(endpointKey) + "WithResponse";
        result := result[flatKeyWithResponse := WithResponse(endpoint)];
        j := j + 1;
      }
      i := i + 1;
    }
    assert client[..i] == client;
  }
}
