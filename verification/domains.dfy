/**
 * Domains: creation from GeoJSON, `get` and `update` with their `in_place`
 * semantics, and the sort arguments of `list_domains`. A domain is the set
 * of attributes its object holds.
 */
module Domains {
  import opened Values

  /** A domain object: its attributes by name. */
  datatype Domain = Domain(attrs: map<string, Json>)

  /** The result of a domain call: the caller's domain afterwards and what was returned, flagged when it is the caller's own object. */
  datatype DomainCall = DomainCall(self: Domain, result: Result<Domain>, returnsSelf: bool, request: Option<map<string, Json>>)

  const DefaultHorizontalResolution: real := 2.0
  const DefaultVerticalResolution: real := 1.0

  /** The four keys `from_geojson` writes over the GeoJSON. */
  const CreateKeys: set<string> := {"name", "description", "horizontalResolution", "verticalResolution"}

  /**
   * The body of `Domain.from_geojson`: the GeoJSON's own members, with the
   * name, description and resolutions written over them.
   */
  function CreateBody(geojson: map<string, Json>, name: string, description: string,
                      horizontalResolution: real, verticalResolution: real): (b: map<string, Json>)
    ensures b.Keys == geojson.Keys + CreateKeys
    ensures b["name"] == Str(name) && b["description"] == Str(description)
    ensures b["horizontalResolution"] == Num(horizontalResolution)
    ensures b["verticalResolution"] == Num(verticalResolution)
    ensures forall k :: k in geojson && k !in CreateKeys ==> b[k] == geojson[k]
  {
    geojson + map["name" := Str(name), "description" := Str(description),
                  "horizontalResolution" := Num(horizontalResolution),
                  "verticalResolution" := Num(verticalResolution)]
  }

  /** The arguments win over members of the same name already in the GeoJSON, so building the body twice changes nothing. */
  lemma CreateBodyIdempotent(geojson: map<string, Json>, name: string, description: string, h: real, v: real)
    ensures CreateBody(CreateBody(geojson, name, description, h, v), name, description, h, v)
         == CreateBody(geojson, name, description, h, v)
  {
  }

  /** `Domain.get(in_place)`: in place, every attribute of the response is set on the domain, which is returned. */
  function Get(self: Domain, response: Result<map<string, Json>>, inPlace: bool): (c: DomainCall)
    ensures response.Err? ==> c.self == self && c.result == Err(response.error)
    ensures response.Ok? ==> c.result.Ok? && c.returnsSelf == inPlace
    ensures response.Ok? && inPlace ==> c.self.attrs == self.attrs + response.value && c.result.value == c.self
    ensures response.Ok? && !inPlace ==> c.self == self && c.result.value == Domain(response.value)
  {
    match response
    case Err(e) => DomainCall(self, Err(e), false, None)
    case Ok(r) =>
      if inPlace then DomainCall(Domain(self.attrs + r), Ok(Domain(self.attrs + r)), true, None)
      else DomainCall(self, Ok(Domain(r)), false, None)
  }

  /** The body of `Domain.update`: each argument that is not `None`. */
  function UpdateBody(name: Option<string>, description: Option<string>, tags: Option<seq<string>>): (b: map<string, Json>)
    ensures b.Keys <= {"name", "description", "tags"}
    ensures "name" in b <==> name.Some?
    ensures "description" in b <==> description.Some?
    ensures "tags" in b <==> tags.Some?
    ensures name.Some? ==> b["name"] == Str(name.value)
    ensures description.Some? ==> b["description"] == Str(description.value)
    ensures tags.Some? ==> b["tags"] == StrArr(tags.value)
  {
    var a: map<string, Json> := if name.Some? then map["name" := Str(name.value)] else map[];
    var b := if description.Some? then a["description" := Str(description.value)] else a;
    if tags.Some? then b["tags" := StrArr(tags.value)] else b
  }

  /**
   * `Domain.update`: with nothing to change no request is made and the
   * domain itself (in place) or a copy of it is returned. Otherwise the body
   * is sent and, in place, the response's attributes are set on the domain,
   * which is returned; else a new domain is returned and the caller's is
   * untouched. `respond` is the server's answer to a body.
   */
  function Update(self: Domain, name: Option<string>, description: Option<string>, tags: Option<seq<string>>,
                  inPlace: bool, respond: map<string, Json> -> Result<map<string, Json>>): (c: DomainCall)
    ensures c.request.None? <==> name.None? && description.None? && tags.None?
    ensures c.request.Some? ==> c.request.value == UpdateBody(name, description, tags)
    ensures c.request.None? ==> c.self == self && c.result == Ok(self) && c.returnsSelf == inPlace
    ensures c.request.Some? && respond(c.request.value).Err? ==>
              c.self == self && c.result == Err(respond(c.request.value).error)
    ensures c.request.Some? && respond(c.request.value).Ok? && inPlace ==>
              c.self.attrs == self.attrs + respond(c.request.value).value && c.result == Ok(c.self) && c.returnsSelf
    ensures c.request.Some? && respond(c.request.value).Ok? && !inPlace ==>
              c.self == self && c.result == Ok(Domain(respond(c.request.value).value)) && !c.returnsSelf
  {
    var body := UpdateBody(name, description, tags);
    if |body| == 0 then
      DomainCall(self, Ok(self), inPlace, None)
    else
      var c := Get(self, respond(body), inPlace);
      c.(request := Some(body))
  }

  /** An in-place update whose body the server applies to the caller's domain leaves it holding the patched attributes. */
  lemma UpdateAppliesPatch(self: Domain, name: Option<string>, description: Option<string>, tags: Option<seq<string>>,
                           respond: map<string, Json> -> Result<map<string, Json>>)
    requires name.Some? || description.Some? || tags.Some?
    requires respond(UpdateBody(name, description, tags)) == Ok(self.attrs + UpdateBody(name, description, tags))
    ensures Update(self, name, description, tags, true, respond).self.attrs == self.attrs + UpdateBody(name, description, tags)
  {
    var p := UpdateBody(name, description, tags);
    assert self.attrs + (self.attrs + p) == self.attrs + p;
  }

  /**
   * Two in-place updates against a server that applies each body to the
   * stored domain leave the domain as one update with both bodies would,
   * the later values winning.
   */
  lemma ChainedUpdatesAccumulate(d: Domain, n1: Option<string>, d1: Option<string>, t1: Option<seq<string>>,
                                 n2: Option<string>, d2: Option<string>, t2: Option<seq<string>>,
                                 respond1: map<string, Json> -> Result<map<string, Json>>,
                                 respond2: map<string, Json> -> Result<map<string, Json>>)
    requires n1.Some? || d1.Some? || t1.Some?
    requires n2.Some? || d2.Some? || t2.Some?
    requires respond1(UpdateBody(n1, d1, t1)) == Ok(d.attrs + UpdateBody(n1, d1, t1))
    requires respond2(UpdateBody(n2, d2, t2)) == Ok(d.attrs + UpdateBody(n1, d1, t1) + UpdateBody(n2, d2, t2))
    ensures Update(Update(d, n1, d1, t1, true, respond1).self, n2, d2, t2, true, respond2).self.attrs
         == d.attrs + (UpdateBody(n1, d1, t1) + UpdateBody(n2, d2, t2))
  {
    var p1 := UpdateBody(n1, d1, t1);
    var p2 := UpdateBody(n2, d2, t2);
    UpdateAppliesPatch(d, n1, d1, t1, respond1);
    var first := Update(d, n1, d1, t1, true, respond1);
    UpdateAppliesPatch(first.self, n2, d2, t2, respond2);
    UnionAssociative(d.attrs, p1, p2);
  }

  /** Map union is associative: applying two patches in turn is applying their union. */
  lemma UnionAssociative(a: map<string, Json>, b: map<string, Json>, c: map<string, Json>)
    ensures a + b + c == a + (b + c)
  {
    var l := a + b + c;
    var r := a + (b + c);
    assert l.Keys == r.Keys;
    forall k | k in l
      ensures l[k] == r[k]
    {
      if k in c {
      } else if k in b {
      }
    }
  }

  /** The sort arguments of `list_domains` as sent: converted when truthy, otherwise left unset. */
  datatype ListRequest = ListRequest(page: Option<int>, size: Option<int>, sortBy: Option<string>, sortOrder: Option<string>)

  /** `list_domains`: page and size are passed through; an empty sort field or order means no sorting. */
  function ListDomains(page: Option<int>, size: Option<int>, sortBy: Option<string>, sortOrder: Option<string>): (r: ListRequest)
    ensures r.page == page && r.size == size
    ensures r.sortBy.Some? <==> TruthyStr(sortBy)
    ensures r.sortOrder.Some? <==> TruthyStr(sortOrder)
    ensures r.sortBy.Some? ==> r.sortBy == sortBy
    ensures r.sortOrder.Some? ==> r.sortOrder == sortOrder
  {
    ListRequest(page, size, if TruthyStr(sortBy) then sortBy else None, if TruthyStr(sortOrder) then sortOrder else None)
  }

  /** Listing with the request's own arguments asks for the same page again. */
  lemma ListDomainsIdempotent(page: Option<int>, size: Option<int>, sortBy: Option<string>, sortOrder: Option<string>)
    ensures var r := ListDomains(page, size, sortBy, sortOrder);
            ListDomains(r.page, r.size, r.sortBy, r.sortOrder) == r
  {
  }

  /** An empty sort field is the same as none. */
  lemma EmptySortIsNoSort(page: Option<int>, size: Option<int>, sortOrder: Option<string>)
    ensures ListDomains(page, size, Some(""), sortOrder) == ListDomains(page, size, None, sortOrder)
  {
  }
}
