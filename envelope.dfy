/**
 * Unwrapping a recommendations response (src/types.ts, `unwrapRecommendations`):
 * the backend may answer `{ recommendations: [...] }` or `{ items: [...] }`.
 */
module Envelope {
  import opened Js

  /** The list a response carries: `recommendations` when it is an array, else `items` when it is, else none. */
  function Unwrap(res: JsValue): seq<JsValue> {
    if !Truthy(res) then []
    else
      var recs := Prop(res, "recommendations");
      if recs.Arr? then recs.elems
      else
        var items := Prop(res, "items");
        if items.Arr? then items.elems else []
  }

  /**
   * A falsy response gives the empty list; a `recommendations` array wins even
   * when `items` is also present; otherwise an `items` array is used; otherwise
   * the list is empty.
   */
  lemma UnwrapSpec(res: JsValue)
    ensures !Truthy(res) ==> Unwrap(res) == []
    ensures res.Obj? && "recommendations" in res.fields && res.fields["recommendations"].Arr? ==>
              Unwrap(res) == res.fields["recommendations"].elems
    ensures res.Obj? && !("recommendations" in res.fields && res.fields["recommendations"].Arr?)
              && "items" in res.fields && res.fields["items"].Arr? ==>
              Unwrap(res) == res.fields["items"].elems
    ensures !(res.Obj? && (("recommendations" in res.fields && res.fields["recommendations"].Arr?)
                           || ("items" in res.fields && res.fields["items"].Arr?))) ==>
              Unwrap(res) == []
  {
  }

  /** A bare array is not an envelope: it unwraps to nothing. */
  lemma UnwrapBareArray(xs: seq<JsValue>)
    ensures Unwrap(Arr(xs)) == []
  {
  }

  /** Only the two envelope fields are read: adding any other field changes nothing. */
  lemma UnwrapReadsTwoFields(fields: map<string, JsValue>, k: string, v: JsValue)
    requires k != "recommendations" && k != "items"
    ensures Unwrap(Obj(fields[k := v])) == Unwrap(Obj(fields))
  {
    var m := fields[k := v];
    assert ("recommendations" in m) == ("recommendations" in fields);
    assert ("items" in m) == ("items" in fields);
  }
}
