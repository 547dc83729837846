/**
 * What the three fluent grid builders share: a builder holds a domain id,
 * the attributes requested so far (in call order, repeats included) and a
 * configuration keyed by attribute; every setter overwrites one
 * configuration entry and appends one attribute. `build` sends the
 * attributes without duplicates; `to_dict` flattens the builder into one
 * dictionary.
 */
module GridBuilders {
  import opened Values

  datatype Builder = Builder(domainId: string, attributes: seq<string>, config: map<string, Json>)

  /** The keys `to_dict` writes before the configuration. */
  const ReservedKeys: set<string> := {"domain_id", "attributes"}

  /** A fresh builder: nothing requested yet. */
  function New(domainId: string): (b: Builder)
    ensures b.domainId == domainId && b.attributes == [] && b.config == map[]
  {
    Builder(domainId, [], map[])
  }

  /**
   * What every setter does to a builder: the domain is kept, exactly one
   * attribute is appended, and the configuration changes at `key` only.
   */
  predicate Sets(b: Builder, r: Builder, key: string, attribute: string)
  {
    && r.domainId == b.domainId
    && r.attributes == b.attributes + [attribute]
    && r.config.Keys == b.config.Keys + {key}
    && (forall k :: k in b.config && k != key ==> r.config[k] == b.config[k])
  }

  /**
   * One setter call: the configuration entry `key` becomes `value` (whatever
   * was there before) and `attribute` is appended to the attributes.
   */
  function With(b: Builder, key: string, value: Json, attribute: string): (r: Builder)
    ensures Sets(b, r, key, attribute) && r.config[key] == value
  {
    Builder(b.domainId, b.attributes + [attribute], b.config[key := value])
  }

  /** The later of two settings of one entry wins; only the attribute list remembers the first. */
  lemma LastSettingWins(b: Builder, key: string, v1: Json, v2: Json, attribute: string)
    ensures With(With(b, key, v1, attribute), key, v2, attribute).config == With(b, key, v2, attribute).config
  {
  }

  /** Setters of different entries commute as far as the configuration is concerned. */
  lemma DifferentEntriesCommute(b: Builder, k1: string, v1: Json, a1: string, k2: string, v2: Json, a2: string)
    requires k1 != k2
    ensures With(With(b, k1, v1, a1), k2, v2, a2).config == With(With(b, k2, v2, a2), k1, v1, a1).config
  {
  }

  /** `clear`: forgets every attribute and every setting, keeping the domain. */
  function Clear(b: Builder): (r: Builder)
    ensures r == New(b.domainId)
  {
    Builder(b.domainId, [], map[])
  }

  /** `list(set(attributes))`: each attribute once. Python leaves the order unspecified; here it is that of first request. */
  function Dedup(xs: seq<string>): (r: seq<string>)
    ensures forall i, j :: 0 <= i < j < |r| ==> r[i] != r[j]
    ensures forall x :: x in r <==> x in xs
    ensures |r| <= |xs|
  {
    if |xs| == 0 then []
    else
      var rest := Dedup(xs[..|xs| - 1]);
      assert forall x :: x in xs <==> x in xs[..|xs| - 1] || x == xs[|xs| - 1];
      if xs[|xs| - 1] in rest then rest else rest + [xs[|xs| - 1]]
  }

  /** Deduplicating a list without repeats changes nothing. */
  lemma {:induction false} DedupOfDistinct(xs: seq<string>)
    requires forall i, j :: 0 <= i < j < |xs| ==> xs[i] != xs[j]
    ensures Dedup(xs) == xs
  {
    if |xs| > 0 {
      var init := xs[..|xs| - 1];
      DedupOfDistinct(init);
      assert xs[|xs| - 1] !in init;
      assert init + [xs[|xs| - 1]] == xs;
    }
  }

  /** Requesting the same attribute twice in a row is the same as once, once deduplicated. */
  lemma RepeatIsAbsorbed(xs: seq<string>, a: string)
    ensures Dedup(xs + [a] + [a]) == Dedup(xs + [a])
  {
    var ys := xs + [a] + [a];
    assert ys[..|ys| - 1] == xs + [a];
    assert a in Dedup(xs + [a]);
  }

  /** What `build` sends to the grid-creation call: the domain, the deduplicated attributes, and the configuration. */
  datatype BuildRequest = BuildRequest(domainId: string, attributes: seq<string>, config: map<string, Json>)

  /** `build`: every requested attribute exactly once, and the configuration as it stands. */
  function Build(b: Builder): (r: BuildRequest)
    ensures r.domainId == b.domainId && r.config == b.config
    ensures forall x :: x in r.attributes <==> x in b.attributes
    ensures forall i, j :: 0 <= i < j < |r.attributes| ==> r.attributes[i] != r.attributes[j]
  {
    BuildRequest(b.domainId, Dedup(b.attributes), b.config)
  }

  /** Calling the same setter twice builds the same request as calling it once. */
  lemma RepeatedSetterBuildsOnce(b: Builder, key: string, value: Json, attribute: string)
    ensures Build(With(With(b, key, value, attribute), key, value, attribute)) == Build(With(b, key, value, attribute))
  {
    RepeatIsAbsorbed(b.attributes, attribute);
  }

  /** `to_dict`: the domain id and the attribute list, then every configuration entry. */
  function ToDict(b: Builder): (d: map<string, Json>)
    ensures d.Keys == ReservedKeys + b.config.Keys
    ensures forall k :: k in b.config ==> d[k] == b.config[k]
  {
    map["domain_id" := Str(b.domainId), "attributes" := StrArr(b.attributes)] + b.config
  }

  /** Reads a builder back out of its dictionary. */
  function FromDict(d: map<string, Json>): Option<Builder>
  {
    if "domain_id" !in d || !d["domain_id"].Str? || "attributes" !in d || !d["attributes"].Arr? then None
    else match StrsOf(d["attributes"].items)
         case None => None
         case Some(attributes) => Some(Builder(d["domain_id"].s, attributes, d - ReservedKeys))
  }

  /** A builder whose configuration avoids the two reserved keys is recovered exactly from its dictionary. */
  lemma ToDictRoundTrip(b: Builder)
    requires b.config.Keys !! ReservedKeys
    ensures FromDict(ToDict(b)) == Some(b)
  {
    var d := ToDict(b);
    assert d["domain_id"] == Str(b.domainId);
    assert d["attributes"] == StrArr(b.attributes);
    StrArrRoundTrip(b.attributes);
    assert d - ReservedKeys == b.config;
  }

  /**
   * The dictionary of a generated model (`from_dict(...).to_dict()`):
   * members whose value is `None` are dropped, except the model's nullable
   * fields, which keep an explicit `null`.
   */
  function DropNulls(d: map<string, Json>, nullable: set<string>): (r: map<string, Json>)
    ensures forall k :: k in r <==> k in d && (d[k] != Null || k in nullable)
    ensures forall k :: k in r ==> r[k] == d[k]
  {
    map k | k in d && (d[k] != Null || k in nullable) :: d[k]
  }

  /** A model dictionary is already normal: normalising it again changes nothing. */
  lemma DropNullsIdempotent(d: map<string, Json>, nullable: set<string>)
    ensures DropNulls(DropNulls(d, nullable), nullable) == DropNulls(d, nullable)
  {
  }
}
