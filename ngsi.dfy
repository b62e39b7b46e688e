/**
 * `formatAsV1Response` (proxy/controllers/random.js:98-125): the NGSI v1
 * `queryContext` response built from a request's entities and attribute
 * names, one context response per entity, each holding one formatted
 * attribute per requested name.
 *
 * The formatter may have effects (the random provider's formatter draws
 * random numbers); they are threaded explicitly as a state of type `S` that
 * each call receives and returns.
 */
module Ngsi {
  import opened JsonValues

  datatype Option<T> = None | Some(value: T)

  /** What `_.forEach` walks: an absent (`undefined` / `null`) collection has no elements. */
  function Items<T>(o: Option<seq<T>>): (xs: seq<T>)
    ensures o.None? ==> xs == []
    ensures o.Some? ==> xs == o.value
  {
    match o
    case None => []
    case Some(xs) => xs
  }

  /** An entity of the request body: `{ id, type }`. */
  datatype Entity = Entity(id: string, entityType: string)

  /** The request body: optional `entities` and optional `attributes` (attribute names). */
  datatype Body = Body(entities: Option<seq<Entity>>, attributes: Option<seq<string>>)

  /** The parts of the HTTP request the provider reads: the body and the `type` path parameter. */
  datatype Request = Request(body: Body, typeParam: string)

  /** A formatted attribute: `{ name, type, value }`. */
  datatype Attribute = Attribute(name: string, attrType: string, value: Json)

  datatype ContextElement = ContextElement(attributes: seq<Attribute>, id: string, isPattern: string, entityType: string)

  datatype StatusCode = StatusCode(code: string, reasonPhrase: string)

  datatype ContextResponse = ContextResponse(contextElement: ContextElement, statusCode: StatusCode)

  datatype QueryContextResponse = QueryContextResponse(contextResponses: seq<ContextResponse>)

  /** The state after the formatter has been called on the first `k` names, starting in state `s`. */
  function Calls<S>(f: (string, Request, S) -> (Attribute, S), req: Request, names: seq<string>, s: S, k: nat): S
    requires k <= |names|
  {
    if k == 0 then s else f(names[k - 1], req, Calls(f, req, names, s, k - 1)).1
  }

  /** The state before the `i`-th entity: every earlier entity has called the formatter once per name. */
  function Rounds<S>(f: (string, Request, S) -> (Attribute, S), req: Request, names: seq<string>, s0: S, i: nat): S
  {
    if i == 0 then s0 else Calls(f, req, names, Rounds(f, req, names, s0, i - 1), |names|)
  }

  /** The formatter's results for the first `k` names, its calls starting in state `st`. */
  function Formatted<S>(f: (string, Request, S) -> (Attribute, S), req: Request, names: seq<string>, st: S, k: nat)
    : (attrs: seq<Attribute>)
    requires k <= |names|
    ensures |attrs| == k
    ensures forall m :: 0 <= m < k ==> attrs[m] == f(names[m], req, Calls(f, req, names, st, m)).0
  {
    if k == 0 then [] else Formatted(f, req, names, st, k - 1) + [f(names[k - 1], req, Calls(f, req, names, st, k - 1)).0]
  }

  /**
   * The context response for entity `e` whose formatter calls start in state
   * `st`: the entity's id and type, `isPattern` `"false"`, status `200 OK`,
   * and the formatter's result for each name, in order.
   */
  function ResponseFor<S>(f: (string, Request, S) -> (Attribute, S), req: Request, names: seq<string>, e: Entity, st: S)
    : (cr: ContextResponse)
  {
    ContextResponse(
      ContextElement(Formatted(f, req, names, st, |names|), e.id, "false", e.entityType),
      StatusCode("200", "OK"))
  }

  /** The context responses for the first `i` entities. */
  function Responses<S>(f: (string, Request, S) -> (Attribute, S), req: Request, names: seq<string>,
                        ents: seq<Entity>, s0: S, i: nat): (rs: seq<ContextResponse>)
    requires i <= |ents|
    ensures |rs| == i
    ensures forall j :: 0 <= j < i ==> rs[j] == ResponseFor(f, req, names, ents[j], Rounds(f, req, names, s0, j))
  {
    if i == 0 then []
    else Responses(f, req, names, ents, s0, i - 1) + [ResponseFor(f, req, names, ents[i - 1], Rounds(f, req, names, s0, i - 1))]
  }

  /**
   * `formatAsV1Response(req, formatter)`: for each entity, in order, a context
   * response with the entity's id and type, `isPattern` `"false"` and status
   * `200 OK`, whose attributes are the formatter's results for the attribute
   * names, in order; the formatter is called entity by entity, name by name,
   * each call in the state the previous one left.
   */
  method FormatAsV1Response<S>(req: Request, formatter: (string, Request, S) -> (Attribute, S), s0: S)
    returns (response: QueryContextResponse, s: S)
    ensures var ents := Items(req.body.entities);
            var names := Items(req.body.attributes);
      && |response.contextResponses| == |ents|
      && forall i :: 0 <= i < |ents| ==>
           var cr := response.contextResponses[i];
           && cr.contextElement.id == ents[i].id
           && cr.contextElement.entityType == ents[i].entityType
           && cr.contextElement.isPattern == "false"
           && cr.statusCode == StatusCode("200", "OK")
           && |cr.contextElement.attributes| == |names|
           && forall m :: 0 <= m < |names| ==>
                cr.contextElement.attributes[m]
                == formatter(names[m], req, Calls(formatter, req, names, Rounds(formatter, req, names, s0, i), m)).0
    ensures s == Rounds(formatter, req, Items(req.body.attributes), s0, |Items(req.body.entities)|)
    ensures req.body.entities.None? ==> response.contextResponses == []
    ensures req.body.attributes.None? ==>
      forall cr :: cr in response.contextResponses ==> cr.contextElement.attributes == []
  {
    var ents := Items(req.body.entities);
    var names := Items(req.body.attributes);
    var responses: seq<ContextResponse> := [];
    s := s0;
    var i := 0;
    while i < |ents|
      invariant 0 <= i <= |ents|
      invariant responses == Responses(formatter, req, names, ents, s0, i)
      invariant s == Rounds(formatter, req, names, s0, i)
    {
      ghost var start := s;
      var attributes: seq<Attribute> := [];
      var k := 0;
      while k < |names|
        invariant 0 <= k <= |names|
        invariant attributes == Formatted(formatter, req, names, start, k)
        invariant s == Calls(formatter, req, names, start, k)
      {
        var formatted := formatter(names[k], req, s);
        attributes := attributes + [formatted.0];
        s := formatted.1;
        k := k + 1;
      }
      var obj := ContextResponse(
        ContextElement(attributes, ents[i].id, "false", ents[i].entityType),
        StatusCode("200", "OK"));
      responses := responses + [obj];
      i := i + 1;
    }
    response := QueryContextResponse(responses);
  }
}
