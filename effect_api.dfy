/** The service-to-API endpoint builder of `app/effect.ts`
    (`createApiFromEffectTagFactory`).

    For every key of the endpoint configuration, in key order, the builder
    looks at the entry's `type`: `"query"` registers a query descriptor,
    `"mutation"` a mutation descriptor, and anything else throws
    `Error("Invalid method type: <type>")` while the endpoints are built.
    A descriptor is an object literal made of conditional spreads: each spread
    copies one configuration field, under the key `merge` or `extraOptions`,
    only when the field is defined; a later spread overwrites an earlier one,
    and the `queryFn` written last cannot be overridden. Running `queryFn`
    turns the effect's `Either` outcome into `{error}` or `{data}`. */
module EffectApi {
  import opened Base

  // ---------------------------------------------------------------------------
  // Configuration and descriptors

  /** One entry of the endpoint configuration: its `type` and its optional
      fields (a field that is absent reads as `undefined`). */
  datatype EndpointConfig = EndpointConfig(kind: string, fields: map<string, JsValue>)

  /** The configuration object, key by key in `Object.keys` order. */
  type Configs = seq<(string, EndpointConfig)>

  /** The value of a configuration field, `undefined` when absent. */
  function Field(cfg: EndpointConfig, name: string): JsValue
  {
    if name in cfg.fields then cfg.fields[name] else Undefined
  }

  /** The two tests the spreads use: `!== undefined` and `!= null`. */
  datatype Guard = NotUndefined | NotNullish

  predicate Passes(g: Guard, v: JsValue)
  {
    match g
    case NotUndefined => v != Undefined
    case NotNullish => v != Undefined && v != Null
  }

  /** `...(config.<field> <guard> ? { <target>: config.<field> } : {})` */
  datatype Spread = Spread(field: string, target: string, guard: Guard)

  /** A property of a descriptor: a forwarded configuration value, or the
      `queryFn` closure created for a method key. */
  datatype Prop = Forwarded(value: JsValue) | QueryFn(methodKey: string)

  type Descriptor = map<string, Prop>

  /** What `builder.query` or `builder.mutation` registers under a method key. */
  datatype Endpoint = QueryEndpoint(descriptor: Descriptor) | MutationEndpoint(descriptor: Descriptor)

  /** The spreads of the query descriptor, in source order. */
  const QuerySpreads: seq<Spread> := [
    Spread("forceRefetch", "extraOptions", NotUndefined),
    Spread("keepUnusedDataFor", "extraOptions", NotUndefined),
    Spread("merge", "merge", NotUndefined),
    Spread("onCacheEntryAdded", "extraOptions", NotUndefined),
    Spread("onQueryStarted", "extraOptions", NotUndefined),
    Spread("providesTags", "extraOptions", NotUndefined),
    Spread("serializeQueryArgs", "extraOptions", NotUndefined),
    Spread("structuralSharing", "extraOptions", NotUndefined),
    Spread("extraOptions", "extraOptions", NotNullish)
  ]

  /** The spreads of the mutation descriptor, in source order. */
  const MutationSpreads: seq<Spread> := [
    Spread("invalidatesTags", "extraOptions", NotUndefined),
    Spread("onCacheEntryAdded", "extraOptions", NotUndefined),
    Spread("onQueryStarted", "extraOptions", NotUndefined),
    Spread("structuralSharing", "extraOptions", NotUndefined),
    Spread("extraOptions", "extraOptions", NotNullish),
    Spread("transformResponse", "extraOptions", NotUndefined),
    Spread("transformErrorResponse", "extraOptions", NotUndefined)
  ]

  /** The fields a query forwards and a mutation never does. */
  const QueryOnlyFields: set<string> :=
    {"forceRefetch", "keepUnusedDataFor", "merge", "providesTags", "serializeQueryArgs"}

  /** The fields a mutation forwards and a query never does. */
  const MutationOnlyFields: set<string> :=
    {"invalidatesTags", "transformResponse", "transformErrorResponse"}

  /** The object built by the spreads, in order, each overwriting its target. */
  function ApplySpreads(cfg: EndpointConfig, spreads: seq<Spread>): (d: Descriptor)
    ensures forall k :: k in d ==> d[k].Forwarded? && d[k].value != Undefined
  {
    if spreads == [] then map[]
    else
      var before := ApplySpreads(cfg, spreads[..|spreads| - 1]);
      var s := spreads[|spreads| - 1];
      if Passes(s.guard, Field(cfg, s.field)) then before[s.target := Forwarded(Field(cfg, s.field))]
      else before
  }

  /** A descriptor: the spreads, then `queryFn: createQueryFn(methodKey)`. */
  function Describe(cfg: EndpointConfig, spreads: seq<Spread>, methodKey: string): (d: Descriptor)
    ensures "queryFn" in d && d["queryFn"] == QueryFn(methodKey)
    ensures forall k :: k in d && k != "queryFn" ==> d[k].Forwarded? && d[k].value != Undefined
  {
    ApplySpreads(cfg, spreads)["queryFn" := QueryFn(methodKey)]
  }

  const InvalidTypePrefix: string := "Invalid method type: "

  /** The query/mutation dispatch on `config.type` for one method key. */
  function EndpointFor(methodKey: string, cfg: EndpointConfig): (r: Result<Endpoint, string>)
    ensures r.Success? <==> cfg.kind == "query" || cfg.kind == "mutation"
    ensures cfg.kind == "query" ==> r == Success(QueryEndpoint(Describe(cfg, QuerySpreads, methodKey)))
    ensures cfg.kind == "mutation" ==> r == Success(MutationEndpoint(Describe(cfg, MutationSpreads, methodKey)))
    ensures r.Failure? ==> r.error == InvalidTypePrefix + cfg.kind
  {
    if cfg.kind == "query" then Success(QueryEndpoint(Describe(cfg, QuerySpreads, methodKey)))
    else if cfg.kind == "mutation" then Success(MutationEndpoint(Describe(cfg, MutationSpreads, methodKey)))
    else Failure(InvalidTypePrefix + cfg.kind)
  }

  /** The endpoints record the builder returns, or the message it throws on
      the first entry whose type is neither query nor mutation. */
  function Endpoints(configs: Configs): Result<map<string, Endpoint>, string>
  {
    if configs == [] then Success(map[])
    else
      var last := configs[|configs| - 1];
      match Endpoints(configs[..|configs| - 1])
      case Failure(e) => Failure(e)
      case Success(eps) =>
        match EndpointFor(last.0, last.1)
        case Failure(e) => Failure(e)
        case Success(ep) => Success(eps[last.0 := ep])
  }

  /** The `methodKeys.forEach` loop filling the mutable `endpoints` record. */
  method BuildEndpoints(configs: Configs) returns (r: Result<map<string, Endpoint>, string>)
    ensures r == Endpoints(configs)
  {
    var endpoints: map<string, Endpoint> := map[];
    var i := 0;
    while i < |configs|
      invariant 0 <= i <= |configs|
      invariant Endpoints(configs[..i]) == Success(endpoints)
    {
      var methodKey := configs[i].0;
      var config := configs[i].1;
      assert configs[..i + 1][..i] == configs[..i];
      if config.kind == "query" {
        endpoints := endpoints[methodKey := QueryEndpoint(Describe(config, QuerySpreads, methodKey))];
      } else if config.kind == "mutation" {
        endpoints := endpoints[methodKey := MutationEndpoint(Describe(config, MutationSpreads, methodKey))];
      } else {
        EndpointsSucceedIff(configs[..i]);
        assert forall j :: 0 <= j < i ==> configs[..i][j] == configs[j];
        FirstInvalidThrows(configs, i);
        return Failure(InvalidTypePrefix + config.kind);
      }
      i := i + 1;
    }
    assert configs[..i] == configs;
    return Success(endpoints);
  }

  // ---------------------------------------------------------------------------
  // The queryFn

  /** What `queryFn` resolves to: `{data}` or `{error}`. */
  datatype QueryReturn<A, E> = QueryReturn(data: Option<A>, error: Option<E>)

  /** The `Either` branch of `createQueryFn`. */
  function QueryFnResult<A, E>(outcome: Either<E, A>): (r: QueryReturn<A, E>)
    ensures r.data.Some? != r.error.Some?
    ensures outcome.Left? ==> r.error == Some(outcome.left)
    ensures outcome.Right? ==> r.data == Some(outcome.right)
  {
    if outcome.Left? then QueryReturn(None, Some(outcome.left)) else QueryReturn(Some(outcome.right), None)
  }

  /** Reads back the outcome from a settled result: the inverse of `QueryFnResult`. */
  function OutcomeOf<A, E>(r: QueryReturn<A, E>): Either<E, A>
    requires r.data.Some? != r.error.Some?
  {
    if r.error.Some? then Left(r.error.value) else Right(r.data.value)
  }

  /** Calls the `queryFn` of descriptor `d` with `arg`; the service method it
      runs returns the `Either` that `service` gives for its method key. */
  function RunQueryFn<Arg, A, E>(d: Descriptor, service: (string, Arg) -> Either<E, A>, arg: Arg): (r: Option<QueryReturn<A, E>>)
    ensures r.Some? <==> "queryFn" in d && d["queryFn"].QueryFn?
    ensures r.Some? ==> r.value.data.Some? != r.value.error.Some?
    ensures r.Some? ==> OutcomeOf(r.value) == service(d["queryFn"].methodKey, arg)
  {
    if "queryFn" in d && d["queryFn"].QueryFn? then Some(QueryFnResult(service(d["queryFn"].methodKey, arg)))
    else None
  }

  // ---------------------------------------------------------------------------
  // Properties of the spreads

  /** A spread whose guard passes puts its target key into the object. */
  lemma {:induction false} SpreadTargetPresent(cfg: EndpointConfig, spreads: seq<Spread>, i: nat)
    requires i < |spreads|
    requires Passes(spreads[i].guard, Field(cfg, spreads[i].field))
    ensures spreads[i].target in ApplySpreads(cfg, spreads)
  {
    if i < |spreads| - 1 {
      SpreadTargetPresent(cfg, spreads[..|spreads| - 1], i);
    }
  }

  /** Every key of the object is the target of some spread whose guard passed. */
  lemma {:induction false} SpreadOrigin(cfg: EndpointConfig, spreads: seq<Spread>, k: string) returns (i: nat)
    requires k in ApplySpreads(cfg, spreads)
    ensures i < |spreads| && spreads[i].target == k && Passes(spreads[i].guard, Field(cfg, spreads[i].field))
  {
    var s := spreads[|spreads| - 1];
    if s.target == k && Passes(s.guard, Field(cfg, s.field)) {
      i := |spreads| - 1;
    } else {
      i := SpreadOrigin(cfg, spreads[..|spreads| - 1], k);
    }
  }

  /** The value under a key is the field of the last spread to that key whose guard passed. */
  lemma {:induction false} LastPassingSpreadWins(cfg: EndpointConfig, spreads: seq<Spread>, i: nat)
    requires i < |spreads|
    requires Passes(spreads[i].guard, Field(cfg, spreads[i].field))
    requires forall j :: i < j < |spreads| && spreads[j].target == spreads[i].target ==>
      !Passes(spreads[j].guard, Field(cfg, spreads[j].field))
    ensures spreads[i].target in ApplySpreads(cfg, spreads)
    ensures ApplySpreads(cfg, spreads)[spreads[i].target] == Forwarded(Field(cfg, spreads[i].field))
  {
    if i < |spreads| - 1 {
      LastPassingSpreadWins(cfg, spreads[..|spreads| - 1], i);
    }
  }

  /** The spreads read only the fields they name. */
  lemma {:induction false} SpreadsReadOnlyTheirFields(c1: EndpointConfig, c2: EndpointConfig, spreads: seq<Spread>)
    requires forall i :: 0 <= i < |spreads| ==> Field(c1, spreads[i].field) == Field(c2, spreads[i].field)
    ensures ApplySpreads(c1, spreads) == ApplySpreads(c2, spreads)
  {
    if spreads != [] {
      SpreadsReadOnlyTheirFields(c1, c2, spreads[..|spreads| - 1]);
    }
  }

  // ---------------------------------------------------------------------------
  // Properties of the descriptors

  /** A query descriptor holds at most `merge`, `extraOptions` and `queryFn`;
      `merge` is there exactly when the config defines it; `queryFn` is the
      method key's own. */
  lemma QueryDescriptorShape(cfg: EndpointConfig, methodKey: string)
    ensures var d := Describe(cfg, QuerySpreads, methodKey);
      && d.Keys <= {"merge", "extraOptions", "queryFn"}
      && d["queryFn"] == QueryFn(methodKey)
      && ("merge" in d <==> Field(cfg, "merge") != Undefined)
      && ("merge" in d ==> d["merge"] == Forwarded(Field(cfg, "merge")))
  {
    var a := ApplySpreads(cfg, QuerySpreads);
    forall k | k in a ensures k == "merge" || k == "extraOptions" {
      var i := SpreadOrigin(cfg, QuerySpreads, k);
    }
    if Field(cfg, "merge") != Undefined {
      LastPassingSpreadWins(cfg, QuerySpreads, 2);
    }
    if "merge" in a {
      var i := SpreadOrigin(cfg, QuerySpreads, "merge");
    }
  }

  /** `extraOptions` of a query descriptor is present exactly when one of the
      eight fields spread into it passes its guard. */
  lemma QueryExtraOptionsPresence(cfg: EndpointConfig, methodKey: string)
    ensures "extraOptions" in Describe(cfg, QuerySpreads, methodKey) <==>
      exists i :: 0 <= i < |QuerySpreads| && QuerySpreads[i].target == "extraOptions" &&
        Passes(QuerySpreads[i].guard, Field(cfg, QuerySpreads[i].field))
  {
    if "extraOptions" in ApplySpreads(cfg, QuerySpreads) {
      var i := SpreadOrigin(cfg, QuerySpreads, "extraOptions");
    }
    forall i | 0 <= i < |QuerySpreads| && QuerySpreads[i].target == "extraOptions" &&
        Passes(QuerySpreads[i].guard, Field(cfg, QuerySpreads[i].field))
      ensures "extraOptions" in ApplySpreads(cfg, QuerySpreads)
    {
      SpreadTargetPresent(cfg, QuerySpreads, i);
    }
  }

  /** A non-nullish `extraOptions` of a query config overwrites every other
      field spread into `extraOptions`. */
  lemma QueryExtraOptionsLast(cfg: EndpointConfig, methodKey: string)
    requires Field(cfg, "extraOptions") != Undefined && Field(cfg, "extraOptions") != Null
    ensures "extraOptions" in Describe(cfg, QuerySpreads, methodKey)
    ensures Describe(cfg, QuerySpreads, methodKey)["extraOptions"] == Forwarded(Field(cfg, "extraOptions"))
  {
    LastPassingSpreadWins(cfg, QuerySpreads, 8);
  }

  /** Without `extraOptions`, the query descriptor's `extraOptions` is
      `structuralSharing` when that is defined. */
  lemma QueryStructuralSharing(cfg: EndpointConfig, methodKey: string)
    requires Field(cfg, "structuralSharing") != Undefined
    requires Field(cfg, "extraOptions") == Undefined || Field(cfg, "extraOptions") == Null
    ensures "extraOptions" in Describe(cfg, QuerySpreads, methodKey)
    ensures Describe(cfg, QuerySpreads, methodKey)["extraOptions"] == Forwarded(Field(cfg, "structuralSharing"))
  {
    LastPassingSpreadWins(cfg, QuerySpreads, 7);
  }

  /** A mutation descriptor never has `merge`: it holds at most `extraOptions` and its `queryFn`. */
  lemma MutationDescriptorShape(cfg: EndpointConfig, methodKey: string)
    ensures var d := Describe(cfg, MutationSpreads, methodKey);
      d.Keys <= {"extraOptions", "queryFn"} && d["queryFn"] == QueryFn(methodKey)
  {
    var a := ApplySpreads(cfg, MutationSpreads);
    forall k | k in a ensures k == "extraOptions" {
      var i := SpreadOrigin(cfg, MutationSpreads, k);
    }
  }

  /** A non-nullish `extraOptions` of a mutation config is overwritten by a
      defined `transformErrorResponse`, which is spread last. */
  lemma MutationTransformErrorResponseLast(cfg: EndpointConfig, methodKey: string)
    requires Field(cfg, "transformErrorResponse") != Undefined
    ensures "extraOptions" in Describe(cfg, MutationSpreads, methodKey)
    ensures Describe(cfg, MutationSpreads, methodKey)["extraOptions"] == Forwarded(Field(cfg, "transformErrorResponse"))
  {
    LastPassingSpreadWins(cfg, MutationSpreads, 6);
  }

  /** A mutation descriptor does not depend on `merge`, `providesTags`,
      `keepUnusedDataFor`, `forceRefetch` or `serializeQueryArgs`. */
  lemma MutationIgnoresQueryOnlyFields(c1: EndpointConfig, c2: EndpointConfig, methodKey: string)
    requires forall f :: f !in QueryOnlyFields ==> Field(c1, f) == Field(c2, f)
    ensures Describe(c1, MutationSpreads, methodKey) == Describe(c2, MutationSpreads, methodKey)
  {
    forall i | 0 <= i < |MutationSpreads|
      ensures Field(c1, MutationSpreads[i].field) == Field(c2, MutationSpreads[i].field)
    {
      assert MutationSpreads[i].field !in QueryOnlyFields;
    }
    SpreadsReadOnlyTheirFields(c1, c2, MutationSpreads);
  }

  /** A query descriptor does not depend on `invalidatesTags`,
      `transformResponse` or `transformErrorResponse`. */
  lemma QueryIgnoresMutationOnlyFields(c1: EndpointConfig, c2: EndpointConfig, methodKey: string)
    requires forall f :: f !in MutationOnlyFields ==> Field(c1, f) == Field(c2, f)
    ensures Describe(c1, QuerySpreads, methodKey) == Describe(c2, QuerySpreads, methodKey)
  {
    forall i | 0 <= i < |QuerySpreads|
      ensures Field(c1, QuerySpreads[i].field) == Field(c2, QuerySpreads[i].field)
    {
      assert QuerySpreads[i].field !in MutationOnlyFields;
    }
    SpreadsReadOnlyTheirFields(c1, c2, QuerySpreads);
  }

  // ---------------------------------------------------------------------------
  // Properties of the builder

  predicate KnownKind(kind: string)
  {
    kind == "query" || kind == "mutation"
  }

  /** Building succeeds exactly when every entry's type is query or mutation. */
  lemma {:induction false} EndpointsSucceedIff(configs: Configs)
    ensures Endpoints(configs).Success? <==> forall i :: 0 <= i < |configs| ==> KnownKind(configs[i].1.kind)
  {
    if configs != [] {
      var init := configs[..|configs| - 1];
      EndpointsSucceedIff(init);
      assert forall i :: 0 <= i < |init| ==> init[i] == configs[i];
    }
  }

  /** The first entry with an unknown type is the one whose message is thrown. */
  lemma {:induction false} FirstInvalidThrows(configs: Configs, i: nat)
    requires i < |configs| && !KnownKind(configs[i].1.kind)
    requires forall j :: 0 <= j < i ==> KnownKind(configs[j].1.kind)
    ensures Endpoints(configs[..i + 1]) == Failure(InvalidTypePrefix + configs[i].1.kind)
    ensures Endpoints(configs) == Failure(InvalidTypePrefix + configs[i].1.kind)
  {
    var prefix := configs[..i];
    assert configs[..i + 1][..i] == prefix;
    EndpointsSucceedIff(prefix);
    assert forall j :: 0 <= j < i ==> prefix[j] == configs[j];
    if i + 1 < |configs| {
      FailureSticks(configs, i + 1);
    } else {
      assert configs[..i + 1] == configs;
    }
  }

  /** Once a prefix fails, the whole configuration fails with the same message. */
  lemma {:induction false} FailureSticks(configs: Configs, n: nat)
    requires n <= |configs| && Endpoints(configs[..n]).Failure?
    ensures Endpoints(configs) == Endpoints(configs[..n])
  {
    if n < |configs| {
      var init := configs[..|configs| - 1];
      assert init[..n] == configs[..n];
      FailureSticks(init, n);
    } else {
      assert configs[..n] == configs;
    }
  }

  /** On success there is exactly one endpoint per configuration key, and no other. */
  lemma {:induction false} EndpointsKeys(configs: Configs)
    requires Endpoints(configs).Success?
    ensures Endpoints(configs).value.Keys == set e | e in configs :: e.0
  {
    if configs != [] {
      var init := configs[..|configs| - 1];
      EndpointsKeys(init);
      assert configs == init + [configs[|configs| - 1]];
      assert (set e | e in configs :: e.0) == (set e | e in init :: e.0) + {configs[|configs| - 1].0};
    }
  }

  predicate DistinctKeys(configs: Configs)
  {
    forall i, j :: 0 <= i < j < |configs| ==> configs[i].0 != configs[j].0
  }

  /** On success, each configuration key holds the endpoint its type asks for. */
  lemma {:induction false} EndpointsEntry(configs: Configs, i: nat)
    requires DistinctKeys(configs) && i < |configs|
    requires Endpoints(configs).Success?
    ensures configs[i].0 in Endpoints(configs).value
    ensures Success(Endpoints(configs).value[configs[i].0]) == EndpointFor(configs[i].0, configs[i].1)
  {
    var init := configs[..|configs| - 1];
    if i < |configs| - 1 {
      assert init[i] == configs[i];
      assert DistinctKeys(init) by {
        forall a, b | 0 <= a < b < |init| ensures init[a].0 != init[b].0 {
          assert init[a] == configs[a] && init[b] == configs[b];
        }
      }
      EndpointsEntry(init, i);
    }
  }

  /** Running the endpoint registered for a configuration key runs that key's
      service method: `{data}` for its success value, `{error}` for its failure. */
  lemma EndpointRunsItsMethod<Arg, A, E>(configs: Configs, i: nat, service: (string, Arg) -> Either<E, A>, arg: Arg)
    requires DistinctKeys(configs) && i < |configs|
    requires Endpoints(configs).Success?
    ensures configs[i].0 in Endpoints(configs).value
    ensures RunQueryFn(Endpoints(configs).value[configs[i].0].descriptor, service, arg)
      == Some(QueryFnResult(service(configs[i].0, arg)))
  {
    EndpointsEntry(configs, i);
    EndpointForQueryFn(configs[i].0, configs[i].1);
  }

  /** Whichever kind it is, a built endpoint carries its method key's `queryFn`. */
  lemma EndpointForQueryFn(methodKey: string, cfg: EndpointConfig)
    requires EndpointFor(methodKey, cfg).Success?
    ensures "queryFn" in EndpointFor(methodKey, cfg).value.descriptor
    ensures EndpointFor(methodKey, cfg).value.descriptor["queryFn"] == QueryFn(methodKey)
  {
  }

  /** The settled result gives the effect's outcome back unchanged. */
  lemma QueryFnRoundTrip<A, E>(outcome: Either<E, A>)
    ensures OutcomeOf(QueryFnResult(outcome)) == outcome
  {
  }
}
