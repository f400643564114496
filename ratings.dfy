/** The rating records the client sends to the preferences endpoints. */
module Ratings {
  import opened Wrappers
  import opened Js

  /** The two rating values the screens produce: 1.0 for a right swipe, 0.0 for a left one. */
  datatype Rating = Like | Dislike

  /** `{ product_id, rating }` */
  datatype RatingItem = RatingItem(productId: int, rating: Rating)

  /** The JSON number a rating is sent as (`1.0 === 1` and `0.0 === 0` in JavaScript). */
  function RatingNumber(r: Rating): int {
    match r
    case Like => 1
    case Dislike => 0
  }

  /** The rating a JSON number stands for, if any. */
  function RatingOfNumber(n: JsValue): Option<Rating> {
    if n == Num(1) then Some(Like)
    else if n == Num(0) then Some(Dislike)
    else None
  }

  lemma RatingNumberRoundTrip(r: Rating)
    ensures RatingOfNumber(Num(RatingNumber(r))) == Some(r)
  {
  }

  /** The JSON object `{ product_id, rating }` as posted to the preferences endpoints. */
  function ItemJson(item: RatingItem): JsValue {
    Obj(map["product_id" := Num(item.productId), "rating" := Num(RatingNumber(item.rating))])
  }

  /** Reads one rating object back; `None` for anything that is not one. */
  function ItemOfJson(v: JsValue): Option<RatingItem> {
    if !v.Obj? then None
    else
      var id, r := Field(v.fields, "product_id"), RatingOfNumber(Field(v.fields, "rating"));
      if id.Num? && r.Some? then Some(RatingItem(id.n, r.value)) else None
  }

  /** The elements of a JSON array, in order. */
  function ItemsJson(items: seq<RatingItem>): (r: seq<JsValue>)
    ensures |r| == |items|
    ensures forall i :: 0 <= i < |items| ==> r[i] == ItemJson(items[i])
  {
    if items == [] then [] else [ItemJson(items[0])] + ItemsJson(items[1..])
  }

  /** The body of the bulk call: `{ ratings }`. */
  function BulkBody(items: seq<RatingItem>): JsValue {
    Obj(map["ratings" := Arr(ItemsJson(items))])
  }

  function ItemsOfJson(vs: seq<JsValue>): Option<seq<RatingItem>> {
    if vs == [] then Some([])
    else
      match (ItemOfJson(vs[0]), ItemsOfJson(vs[1..]))
      case (Some(x), Some(rest)) => Some([x] + rest)
      case _ => None
  }

  /** Reads the bulk body back: `None` unless it is `{ ratings: [...] }` with every element a rating. */
  function BulkOfJson(v: JsValue): Option<seq<RatingItem>> {
    if v.Obj? && "ratings" in v.fields && v.fields["ratings"].Arr? then ItemsOfJson(v.fields["ratings"].elems)
    else None
  }

  lemma ItemJsonRoundTrip(item: RatingItem)
    ensures ItemOfJson(ItemJson(item)) == Some(item)
  {
    RatingNumberRoundTrip(item.rating);
  }

  lemma {:induction false} ItemsJsonRoundTrip(items: seq<RatingItem>)
    ensures ItemsOfJson(ItemsJson(items)) == Some(items)
    decreases |items|
  {
    if items != [] {
      ItemJsonRoundTrip(items[0]);
      ItemsJsonRoundTrip(items[1..]);
      assert ItemsJson(items)[1..] == ItemsJson(items[1..]);
      assert [items[0]] + items[1..] == items;
    }
  }

  /** The bulk body carries exactly the given items, in order, and nothing else. */
  lemma BulkBodyRoundTrip(items: seq<RatingItem>)
    ensures BulkOfJson(BulkBody(items)) == Some(items)
  {
    ItemsJsonRoundTrip(items);
  }
}
