/**
 * The service layer (src/services/api.ts): query parameters built from the
 * shared selection, and the normalisation of raw product and recommendation
 * lists into the cards the screens render.
 */
module Services {
  import opened Wrappers
  import opened Js
  import opened Filters
  import opened Envelope

  // ---------------------------------------------------------------- query parameters

  /** `{ count, gender?, category? }`; `None` is an omitted (`undefined`) parameter. */
  datatype CountParams = CountParams(count: int, gender: Option<string>, category: Option<string>)

  /** `{ skip, limit, gender?, category?, color? }` */
  datatype PageParams = PageParams(skip: int, limit: int, gender: Option<string>, category: Option<string>, color: Option<string>)

  /** `selection[key] ?? undefined`: absent and `null` are both omitted. */
  function Param(sel: Selection, key: string): Option<string> {
    Selected(sel, key)
  }

  function ToRandomParams(sel: Selection): CountParams {
    CountParams(20, Param(sel, "gender"), Param(sel, "masterCategory"))
  }

  function ToProductsParams(sel: Selection): PageParams {
    PageParams(0, 50, Param(sel, "gender"), Param(sel, "masterCategory"), Param(sel, "color"))
  }

  function ToRecommendationsParams(sel: Selection): CountParams {
    CountParams(20, Param(sel, "gender"), Param(sel, "masterCategory"))
  }

  /**
   * Twenty items are asked for; `gender` is the selected gender and `category`
   * the selected master category, each omitted when absent or `null`; an empty
   * string is still sent. Random and recommendation requests carry the same
   * parameters.
   */
  lemma CountParamsSpec(sel: Selection, g: string, c: string)
    ensures ToRandomParams(sel) == ToRecommendationsParams(sel)
    ensures ToRandomParams(sel).count == 20
    ensures ToRandomParams(sel["gender" := Some(g)]).gender == Some(g)
    ensures ToRandomParams(sel["masterCategory" := Some(c)]).category == Some(c)
    ensures ToRandomParams(sel["gender" := None]).gender == None
    ensures ToRandomParams(sel["masterCategory" := None]).category == None
    ensures "gender" !in sel ==> ToRandomParams(sel).gender == None
    ensures "masterCategory" !in sel ==> ToRandomParams(sel).category == None
  {
  }

  /** No other selection key (`subCategory`, `season`, ...) reaches the random or recommendation parameters. */
  lemma CountParamsIgnoreOtherKeys(sel: Selection, k: string, v: Option<string>)
    requires k != "gender" && k != "masterCategory"
    ensures ToRandomParams(sel[k := v]) == ToRandomParams(sel)
    ensures ToRecommendationsParams(sel[k := v]) == ToRecommendationsParams(sel)
  {
  }

  /** The product page starts at 0 with 50 items and carries gender, master category (as `category`) and colour. */
  lemma PageParamsSpec(sel: Selection, g: string, c: string, col: string)
    ensures ToProductsParams(sel).skip == 0 && ToProductsParams(sel).limit == 50
    ensures ToProductsParams(sel["gender" := Some(g)]).gender == Some(g)
    ensures ToProductsParams(sel["masterCategory" := Some(c)]).category == Some(c)
    ensures ToProductsParams(sel["color" := Some(col)]).color == Some(col)
    ensures ToProductsParams(sel["color" := None]).color == None
    ensures "color" !in sel ==> ToProductsParams(sel).color == None
    ensures ToProductsParams(sel).gender == ToRandomParams(sel).gender
    ensures ToProductsParams(sel).category == ToRandomParams(sel).category
  {
  }

  /** No other selection key reaches the product parameters. */
  lemma PageParamsIgnoreOtherKeys(sel: Selection, k: string, v: Option<string>)
    requires k != "gender" && k != "masterCategory" && k != "color"
    ensures ToProductsParams(sel[k := v]) == ToProductsParams(sel)
  {
  }

  // ---------------------------------------------------------------- product cards

  /** `ProductCard`: `brand` and `price` are always `undefined` and not kept. */
  datatype Card = Card(id: JsValue, title: JsValue, imageUrl: JsValue)

  /** What `.map` raises on a list it cannot process. */
  const MapTypeError: string := "TypeError"

  /** The card for one raw product `p` (which must not be `null` or `undefined`: reading `p.id` would throw). */
  function CardOf(p: JsValue): (c: Card)
    requires !Nullish(p)
    ensures c.id == Prop(p, "id") && c.imageUrl == Prop(p, "image_url")
    ensures !Nullish(Prop(p, "name")) ==> c.title == Prop(p, "name")
    ensures Nullish(Prop(p, "name")) && !Nullish(Prop(p, "productDisplayName")) ==> c.title == Prop(p, "productDisplayName")
    ensures Nullish(Prop(p, "name")) && Nullish(Prop(p, "productDisplayName")) ==> c.title == Str("#" + JsString(Prop(p, "id")))
    ensures !Nullish(c.title)
  {
    var id := Prop(p, "id");
    Card(id, Coalesce(Prop(p, "name"), Coalesce(Prop(p, "productDisplayName"), Str("#" + JsString(id)))), Prop(p, "image_url"))
  }

  /** `elems.map(CardOf)`, which throws at a `null` or `undefined` element. */
  function CardsOf(elems: seq<JsValue>): (r: Result<seq<Card>, string>)
    ensures r.Ok? <==> forall i :: 0 <= i < |elems| ==> !Nullish(elems[i])
    ensures r.Ok? ==> |r.value| == |elems| && forall i :: 0 <= i < |elems| ==> r.value[i] == CardOf(elems[i])
    ensures r.Err? ==> r.error == MapTypeError
  {
    if elems == [] then Ok([])
    else if Nullish(elems[0]) then Err(MapTypeError)
    else
      var rest := CardsOf(elems[1..]);
      assert forall i :: 1 <= i < |elems| ==> elems[i] == elems[1..][i - 1];
      if rest.Err? then rest else Ok([CardOf(elems[0])] + rest.value)
  }

  /**
   * `(raw ?? []).map(...)` in `fetchSwipeCards` and `fetchProducts`: a missing
   * list gives no cards, an array is mapped element by element, and anything
   * else has no `map` method and throws.
   */
  function ProductCards(raw: JsValue): Result<seq<Card>, string> {
    if Nullish(raw) then Ok([])
    else if raw.Arr? then CardsOf(raw.elems)
    else Err(MapTypeError)
  }

  /** A missing list gives no cards; a list of products keeps its length, order and ids; other values are rejected. */
  lemma ProductCardsSpec(raw: JsValue)
    ensures Nullish(raw) ==> ProductCards(raw) == Ok([])
    ensures !Nullish(raw) && !raw.Arr? ==> ProductCards(raw).Err?
    ensures raw.Arr? && (forall i :: 0 <= i < |raw.elems| ==> !Nullish(raw.elems[i])) ==>
              ProductCards(raw).Ok? && |ProductCards(raw).value| == |raw.elems|
              && forall i :: 0 <= i < |raw.elems| ==> ProductCards(raw).value[i].id == Prop(raw.elems[i], "id")
    ensures raw.Arr? && (exists i :: 0 <= i < |raw.elems| && Nullish(raw.elems[i])) ==> ProductCards(raw).Err?
  {
  }

  // ---------------------------------------------------------------- recommendations

  /** `Recommendation`: a card with an optional numeric score. */
  datatype Rec = Rec(id: JsValue, title: JsValue, imageUrl: JsValue, score: Option<int>)

  /**
   * One recommendation; `fallback` stands for the `Math.random().toString()`
   * id used when the raw value has none of `product_id`, `id`, `item_id`.
   */
  function RecOf(r: JsValue, fallback: string): (x: Rec)
    requires !Nullish(r)
    ensures !Nullish(Prop(r, "product_id")) ==> x.id == Prop(r, "product_id")
    ensures Nullish(Prop(r, "product_id")) && !Nullish(Prop(r, "id")) ==> x.id == Prop(r, "id")
    ensures Nullish(Prop(r, "product_id")) && Nullish(Prop(r, "id")) && !Nullish(Prop(r, "item_id")) ==> x.id == Prop(r, "item_id")
    ensures Nullish(Prop(r, "product_id")) && Nullish(Prop(r, "id")) && Nullish(Prop(r, "item_id")) ==> x.id == Str(fallback)
    ensures x.score.Some? <==> Prop(r, "score").Num?
    ensures x.score.Some? ==> x.score.value == Prop(r, "score").n
    ensures !Nullish(x.title)
  {
    var pid := Prop(r, "product_id");
    var score := Prop(r, "score");
    Rec(Coalesce(pid, Coalesce(Prop(r, "id"), Coalesce(Prop(r, "item_id"), Str(fallback)))),
        Coalesce(Prop(r, "product_name"), Coalesce(Prop(r, "name"), Str("#" + JsString(Coalesce(pid, Prop(r, "id")))))),
        Prop(r, "image_url"),
        if score.Num? then Some(score.n) else None)
  }

  /** `recs.map(...)`; `fallback(i)` is the random id drawn for element `i`. */
  function RecsOf(elems: seq<JsValue>, fallback: nat -> string): (r: Result<seq<Rec>, string>)
    ensures r.Ok? <==> forall i :: 0 <= i < |elems| ==> !Nullish(elems[i])
    ensures r.Ok? ==> |r.value| == |elems| && forall i :: 0 <= i < |elems| ==> r.value[i] == RecOf(elems[i], fallback(i))
    ensures r.Err? ==> r.error == MapTypeError
  {
    if elems == [] then Ok([])
    else
      var last := |elems| - 1;
      var init := RecsOf(elems[..last], fallback);
      assert forall i :: 0 <= i < last ==> elems[i] == elems[..last][i];
      if init.Err? then init
      else if Nullish(elems[last]) then Err(MapTypeError)
      else Ok(init.value + [RecOf(elems[last], fallback(last))])
  }

  /**
   * `fetchRecommendations` as written: `(recs ?? []).map(...)` on the response
   * body exactly as the client returns it, which does not unwrap an envelope.
   */
  function RecommendationItems(raw: JsValue, fallback: nat -> string): Result<seq<Rec>, string> {
    if Nullish(raw) then Ok([])
    else if raw.Arr? then RecsOf(raw.elems, fallback)
    else Err(MapTypeError)
  }

  /** The `{ recommendations: [...] }` envelope the call expects is rejected: an object has no `map`. */
  lemma EnvelopeIsRejected(xs: seq<JsValue>, fallback: nat -> string)
    ensures RecommendationItems(Obj(map["recommendations" := Arr(xs)]), fallback) == Err(MapTypeError)
  {
  }

  /** The normalisation with the envelope unwrapped first, as the comment at the call intends. */
  function RecommendationItemsUnwrapped(raw: JsValue, fallback: nat -> string): Result<seq<Rec>, string> {
    if raw.Arr? then RecsOf(raw.elems, fallback)
    else RecsOf(Unwrap(raw), fallback)
  }

  /**
   * Unwrapping first: a bare list is treated as before; an envelope gives the
   * items of its list; a response with no list gives no items; the only failure
   * left is a missing element inside the list.
   */
  lemma UnwrappedAcceptsEnvelopes(xs: seq<JsValue>, raw: JsValue, fallback: nat -> string)
    ensures RecommendationItemsUnwrapped(Arr(xs), fallback) == RecommendationItems(Arr(xs), fallback)
    ensures RecommendationItemsUnwrapped(Obj(map["recommendations" := Arr(xs)]), fallback) == RecommendationItems(Arr(xs), fallback)
    ensures RecommendationItemsUnwrapped(Obj(map["items" := Arr(xs)]), fallback) == RecommendationItems(Arr(xs), fallback)
    ensures !raw.Arr? && !Truthy(raw) ==> RecommendationItemsUnwrapped(raw, fallback) == Ok([])
    ensures RecommendationItemsUnwrapped(raw, fallback).Err? ==>
              exists e :: e in (if raw.Arr? then raw.elems else Unwrap(raw)) && Nullish(e)
  {
    var env := Obj(map["items" := Arr(xs)]);
    assert Unwrap(env) == xs by {
      assert Prop(env, "recommendations") == Undefined;
    }
    RecsOfFailsOnMissing(if raw.Arr? then raw.elems else Unwrap(raw), fallback);
  }

  lemma RecsOfFailsOnMissing(elems: seq<JsValue>, fallback: nat -> string)
    ensures RecsOf(elems, fallback).Err? ==> exists e :: e in elems && Nullish(e)
  {
    if RecsOf(elems, fallback).Err? {
      var i :| 0 <= i < |elems| && Nullish(elems[i]);
      assert elems[i] in elems;
    }
  }

  // ---------------------------------------------------------------- filters

  /** `fetchFilters`: the static filter set, with the keys and self-labelled options it is known to have. */
  function FetchFilters(): (r: seq<FilterGroup>)
    ensures Keys(r) == ["gender", "masterCategory", "subCategory", "articleType", "color", "season", "year", "usage"]
    ensures forall i :: 0 <= i < |r| ==> SelfLabelled(r[i].options)
  {
    StaticGroupKeys();
    StaticOptionsSelfLabelled();
    StaticGroups
  }
}
