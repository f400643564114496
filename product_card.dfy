/** The title and image fallbacks of the product card (src/components/ProductCard.tsx). */
module ProductCard {
  import opened Js

  /** The display-name fields, in the order the card tries them. */
  function TitleFields(p: map<string, JsValue>): seq<JsValue> {
    [Field(p, "title"), Field(p, "name"), Field(p, "product_name"), Field(p, "productDisplayName")]
  }

  /** `p.title || p.name || p.product_name || p.productDisplayName || "#" + p.id` */
  function PickTitle(p: map<string, JsValue>): JsValue {
    Or(Or(Or(Or(Field(p, "title"), Field(p, "name")), Field(p, "product_name")), Field(p, "productDisplayName")),
       Str("#" + JsString(Field(p, "id"))))
  }

  /**
   * The title is the first truthy display name; when none is truthy (an empty
   * string counts as missing) it is `"#"` followed by the id.
   */
  lemma PickTitleSpec(p: map<string, JsValue>)
    ensures (exists i :: 0 <= i < 4 && Truthy(TitleFields(p)[i])) ==> PickTitle(p) == FirstTruthy(TitleFields(p))
    ensures (forall i :: 0 <= i < 4 ==> !Truthy(TitleFields(p)[i])) ==> PickTitle(p) == Str("#" + JsString(Field(p, "id")))
    ensures Truthy(PickTitle(p))
  {
    var vs := TitleFields(p);
    FirstTruthyOfFour(vs[0], vs[1], vs[2], vs[3]);
  }

  /** `Array.isArray(p.images) ? p.images[0] : undefined` */
  function FirstImage(p: map<string, JsValue>): JsValue {
    var images := Field(p, "images");
    if images.Arr? && |images.elems| > 0 then images.elems[0] else Undefined
  }

  /** `p.image_url || (Array.isArray(p.images) ? p.images[0] : undefined)` */
  function PickImage(p: map<string, JsValue>): JsValue {
    Or(Field(p, "image_url"), FirstImage(p))
  }

  /**
   * A truthy `image_url` wins; otherwise the first element of an `images` array;
   * an empty or non-array `images` gives `undefined`.
   */
  lemma PickImageSpec(p: map<string, JsValue>)
    ensures Truthy(Field(p, "image_url")) ==> PickImage(p) == Field(p, "image_url")
    ensures !Truthy(Field(p, "image_url")) && Field(p, "images").Arr? && |Field(p, "images").elems| > 0 ==>
              PickImage(p) == Field(p, "images").elems[0]
    ensures !Truthy(Field(p, "image_url")) && !(Field(p, "images").Arr? && |Field(p, "images").elems| > 0) ==>
              PickImage(p) == Undefined
    ensures Truthy(PickImage(p)) <==> Truthy(Field(p, "image_url")) || Truthy(FirstImage(p))
  {
  }
}
