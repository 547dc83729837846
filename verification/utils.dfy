/** Argument normalisation shared by the inventory calls. */
module Utils {
  import opened Values

  /** An argument typed `dict | list[dict]`. */
  datatype Items = OneItem(item: map<string, Json>) | ItemList(items: seq<Json>)

  /**
   * `parse_dict_items_to_pydantic_list`: `None` stays `None`, a single dict
   * becomes a one-element list, and a list is parsed item by item in order
   * (so an empty list gives an empty list, not `None`).
   */
  function ParseItems<T>(items: Option<Items>, parse: Json -> T): (r: Option<seq<T>>)
    ensures items.None? <==> r.None?
    ensures items.Some? && items.value.OneItem? ==> r == Some([parse(Obj(items.value.item))])
    ensures items.Some? && items.value.ItemList? ==>
              |r.value| == |items.value.items| &&
              forall i :: 0 <= i < |r.value| ==> r.value[i] == parse(items.value.items[i])
  {
    match items
    case None => None
    case Some(OneItem(d)) => Some([parse(Obj(d))])
    case Some(ItemList(xs)) => Some(seq(|xs|, i requires 0 <= i < |xs| => parse(xs[i])))
  }

  /** A single dict and the one-element list holding it are parsed alike. */
  lemma SingleDictAsList<T>(d: map<string, Json>, parse: Json -> T)
    ensures ParseItems(Some(OneItem(d)), parse) == ParseItems(Some(ItemList([Obj(d)])), parse)
  {
    assert ParseItems(Some(ItemList([Obj(d)])), parse).value == [parse(Obj(d))];
  }
}
