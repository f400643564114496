/**
 * The swipe screen (src/screens/SwipeScreen.tsx): the deck built from the
 * loaded items, the per-swipe rating call, the card keys and details line, and
 * the loaders' updates to the screen state, gated by the suppression flag that
 * logout and unmount raise.
 *
 * `DeckState` is the screen state and the functions below are its transitions;
 * the class `SwipeDeck` keeps the same state in fields and its methods are
 * proved to perform those transitions.
 */
module Swipe {
  import opened Wrappers
  import opened Js
  import opened Ratings
  import opened Filters
  import opened Services
  import opened Auth

  // ---------------------------------------------------------------- the deck

  /** A deck entry: a product card, or the "load more" sentinel. */
  datatype DeckCard = Product(card: Card) | LoadMore

  /** `showLoadMoreCard`: `currentIndex >= Math.max(items.length - 2, 0)` */
  predicate ShowLoadMore(currentIndex: int, count: nat) {
    currentIndex >= if count >= 2 then count - 2 else 0
  }

  function Products(items: seq<Card>): (r: seq<DeckCard>)
    ensures |r| == |items| && forall i :: 0 <= i < |items| ==> r[i] == Product(items[i])
  {
    seq(|items|, i requires 0 <= i < |items| => Product(items[i]))
  }

  /**
   * `cardsMemo`: no cards without items; otherwise the items in order, followed
   * by exactly one sentinel when the load-more card is shown.
   */
  function Deck(items: seq<Card>, currentIndex: int): (r: seq<DeckCard>)
    ensures items == [] ==> r == []
    ensures items != [] ==> |r| == |items| + (if ShowLoadMore(currentIndex, |items|) then 1 else 0)
    ensures forall i :: 0 <= i < |items| ==> r[i] == Product(items[i])
    ensures forall i :: 0 <= i < |r| ==> (r[i] == LoadMore <==> i == |items|)
  {
    if items == [] then []
    else Products(items) + if ShowLoadMore(currentIndex, |items|) then [LoadMore] else []
  }

  /**
   * The sentinel appears once the user is on one of the last two cards (or
   * beyond), and from the start when there are at most two items.
   */
  lemma ShowLoadMoreSpec(currentIndex: int, count: nat)
    requires currentIndex >= 0
    ensures count <= 2 ==> ShowLoadMore(currentIndex, count)
    ensures count > 2 ==> (ShowLoadMore(currentIndex, count) <==> count - currentIndex <= 2)
    ensures ShowLoadMore(currentIndex, count) ==> ShowLoadMore(currentIndex + 1, count)
  {
  }

  // ---------------------------------------------------------------- keys

  const LoadMoreKey: string := "__load_more__"

  /**
   * `keyExtractor`; `randomKey` stands for the `Math.random()` key used for a
   * card with neither a string or number id nor a truthy title.
   */
  function KeyOf(card: DeckCard, randomKey: string): string {
    match card
    case LoadMore => LoadMoreKey
    case Product(c) =>
      if c.id.Str? || c.id.Num? then JsString(c.id)
      else if Truthy(c.title) then "t:" + JsString(c.title)
      else randomKey
  }

  /**
   * The sentinel's key is `"__load_more__"`; a string or number id is the key;
   * otherwise a truthy title gives `"t:" + title`; and cards with different
   * numeric ids get different keys.
   */
  lemma KeyOfSpec(c: Card, randomKey: string, a: int, b: int, t: string)
    ensures KeyOf(LoadMore, randomKey) == LoadMoreKey
    ensures c.id.Str? ==> KeyOf(Product(c), randomKey) == c.id.s
    ensures c.id.Num? ==> KeyOf(Product(c), randomKey) == IntToDecimal(c.id.n)
    ensures !c.id.Str? && !c.id.Num? && t != "" ==> KeyOf(Product(c.(title := Str(t))), randomKey) == "t:" + t
    ensures a != b ==> KeyOf(Product(c.(id := Num(a))), randomKey) != KeyOf(Product(c.(id := Num(b))), randomKey)
  {
    if a != b {
      assert KeyOf(Product(c.(id := Num(a))), randomKey) == IntToDecimal(a);
      assert KeyOf(Product(c.(id := Num(b))), randomKey) == IntToDecimal(b);
      DecimalInjective(a, b);
    }
  }

  // ---------------------------------------------------------------- ratings

  datatype Direction = Left | Right

  /** `onSwipedRight` sends 1.0, `onSwipedLeft` 0.0. */
  function SwipeRating(dir: Direction): (r: Rating)
    ensures RatingNumber(r) == if dir == Right then 1 else 0
  {
    if dir == Right then Like else Dislike
  }

  /**
   * The product id `sendRating` posts: a string id is `parseInt(id, 10)`, any
   * other is `Number(id)`; `None` is a non-finite result. An array id is not
   * converted (see the README).
   */
  function RatingId(id: JsValue): Option<int> {
    match id
    case Str(s) => ParseInt(s)
    case Num(n) => Some(n)
    case Bool(b) => Some(if b then 1 else 0)
    case Null => Some(0)
    case Undefined => None
    case Arr(_) => None
    case Obj(_) => None
  }

  /** `sendRating(p, rating)`: the call it makes, if any. */
  function SendRating(p: Option<Card>, dir: Direction): Option<RatingItem> {
    if p.None? then None
    else
      match RatingId(p.value.id)
      case None => None
      case Some(pid) => Some(RatingItem(pid, SwipeRating(dir)))
  }

  /**
   * No call for a missing card or a non-numeric id; a numeric id is sent as
   * is, a decimal string id as its value, with the swipe's rating.
   */
  lemma SendRatingSpec(c: Card, dir: Direction, n: int)
    ensures SendRating(None, dir) == None
    ensures SendRating(Some(c.(id := Num(n))), dir) == Some(RatingItem(n, SwipeRating(dir)))
    ensures SendRating(Some(c.(id := Str(IntToDecimal(n)))), dir) == Some(RatingItem(n, SwipeRating(dir)))
    ensures SendRating(Some(c.(id := Undefined)), dir) == None
    ensures SendRating(Some(c), dir).Some? ==> SendRating(Some(c), dir).value.rating == SwipeRating(dir)
  {
    SendRatingDecimalId(c, dir, n);
  }

  lemma SendRatingDecimalId(c: Card, dir: Direction, n: int)
    ensures SendRating(Some(c.(id := Str(IntToDecimal(n)))), dir) == Some(RatingItem(n, SwipeRating(dir)))
  {
    var d := c.(id := Str(IntToDecimal(n)));
    ParseIntOfDecimal(n);
    assert RatingId(d.id) == Some(n);
  }

  // ---------------------------------------------------------------- details line

  const DetailsSeparator: string := " \U{2022} "

  /** The card fields the details line is made of, in order. */
  function DetailParts(f: map<string, JsValue>): seq<JsValue> {
    [ Or(Field(f, "category"), Field(f, "masterCategory")),
      Or(Field(f, "subcategory"), Field(f, "subCategory")),
      Or(Field(f, "color"), Field(f, "baseColour")),
      Field(f, "gender"), Field(f, "season"), Field(f, "usage") ]
  }

  /** `.filter(Boolean)` followed by the string conversion `join` applies. */
  function TruthyTexts(vs: seq<JsValue>): (r: seq<string>)
    ensures |r| <= |vs|
    ensures r == [] <==> forall i :: 0 <= i < |vs| ==> !Truthy(vs[i])
  {
    if vs == [] then []
    else
      var rest := TruthyTexts(vs[1..]);
      assert forall i :: 1 <= i < |vs| ==> vs[i] == vs[1..][i - 1];
      if Truthy(vs[0]) then [JsString(vs[0])] + rest else rest
  }

  /** `buildDetailsLine(card)`; `None` is a missing card. */
  function DetailsLine(card: Option<map<string, JsValue>>): string {
    if card.None? then "" else Join(TruthyTexts(DetailParts(card.value)), DetailsSeparator)
  }

  /** The object a mapped card is: `brand` and `price` are present but `undefined`. */
  function CardObject(c: Card): map<string, JsValue> {
    map["id" := c.id, "title" := c.title, "imageUrl" := c.imageUrl, "brand" := Undefined, "price" := Undefined]
  }

  /**
   * The line is empty for a missing card and for a card with no truthy part;
   * the cards the service builds carry none of the detail fields, so their
   * line is always empty.
   */
  lemma DetailsLineSpec(f: map<string, JsValue>, c: Card)
    ensures DetailsLine(None) == ""
    ensures (forall i :: 0 <= i < 6 ==> !Truthy(DetailParts(f)[i])) ==> DetailsLine(Some(f)) == ""
    ensures DetailsLine(Some(CardObject(c))) == ""
  {
    var g := CardObject(c);
    assert forall i :: 0 <= i < 6 ==> DetailParts(g)[i] == Undefined;
  }

  /** A part that is a non-empty string always shows: the line is then non-empty. */
  lemma DetailsLineNonEmpty(f: map<string, JsValue>, i: int)
    requires 0 <= i < 6 && DetailParts(f)[i].Str? && DetailParts(f)[i].s != ""
    ensures DetailsLine(Some(f)) != ""
  {
    TextsKeepNonEmpty(DetailParts(f), i);
    JoinNonEmpty(TruthyTexts(DetailParts(f)), DetailsSeparator);
  }

  lemma {:induction false} TextsKeepNonEmpty(vs: seq<JsValue>, i: int)
    requires 0 <= i < |vs| && vs[i].Str? && vs[i].s != ""
    ensures exists k :: 0 <= k < |TruthyTexts(vs)| && TruthyTexts(vs)[k] != ""
    decreases |vs|
  {
    if i > 0 {
      TextsKeepNonEmpty(vs[1..], i - 1);
      var k :| 0 <= k < |TruthyTexts(vs[1..])| && TruthyTexts(vs[1..])[k] != "";
      if Truthy(vs[0]) {
        assert TruthyTexts(vs)[k + 1] == TruthyTexts(vs[1..])[k];
      } else {
        assert TruthyTexts(vs) == TruthyTexts(vs[1..]);
      }
    } else {
      assert TruthyTexts(vs)[0] == vs[0].s;
    }
  }

  lemma {:induction false} JoinNonEmpty(parts: seq<string>, sep: string)
    requires exists k :: 0 <= k < |parts| && parts[k] != ""
    ensures Join(parts, sep) != ""
    decreases |parts|
  {
    var k :| 0 <= k < |parts| && parts[k] != "";
    if |parts| > 1 && parts[0] == "" {
      assert parts[1..][k - 1] == parts[k];
      JoinNonEmpty(parts[1..], sep);
      assert Join(parts, sep) == parts[0] + sep + Join(parts[1..], sep);
    } else if |parts| > 1 {
      assert Join(parts, sep) == parts[0] + sep + Join(parts[1..], sep);
    }
  }

  // ---------------------------------------------------------------- screen state

  const FailedLoadMessage: string := "Failed to load items"

  /**
   * The screen's state fields and the suppression flag; `filtersPending` says
   * that `loadFilters` has passed its guard and awaits `fetchFilters()`.
   */
  datatype DeckState = DeckState(
    filters: seq<FilterGroup>,
    filtersPending: bool,
    items: seq<Card>,
    currentIndex: int,
    loading: bool,
    loadingMore: bool,
    error: Option<string>,
    suppressed: bool)

  const InitialDeck: DeckState := DeckState([], false, [], 0, true, false, None, false)

  /** `loadFilters` up to its `await`: only the suppression guard runs. */
  function AfterFiltersStart(s: DeckState): DeckState {
    if s.suppressed then s else s.(filtersPending := true)
  }

  /**
   * `fetchFilters()` settles and `setFilters` runs. It is not guarded: the
   * flag was only tested before the `await`. `fetchFilters` never rejects, so
   * the `catch` is not reached.
   */
  function AfterFiltersLoaded(s: DeckState): DeckState {
    if !s.filtersPending then s else s.(filters := FetchFilters(), filtersPending := false)
  }

  /** The synchronous start of `loadData(sel, append)`. */
  function AfterLoadStart(s: DeckState, append: bool): DeckState {
    if s.suppressed then s
    else if append then s.(loadingMore := true, error := None)
    else s.(loading := true, currentIndex := 0, error := None)
  }

  /**
   * The end of `loadData(sel, append)` once the fetch settles: `Ok` carries the
   * new items, `Err` the rejection's `message` (`None` when it has none).
   */
  function AfterLoadEnd(s: DeckState, append: bool, outcome: Result<seq<Card>, Option<string>>): DeckState {
    if s.suppressed then s
    else
      var s1 := match outcome
        case Ok(loaded) => s.(items := if append then s.items + loaded else loaded)
        case Err(message) => s.(error := Some(message.GetOr(FailedLoadMessage)));
      s1.(loading := false, loadingMore := false)
  }

  /** The selection effect: a fresh load unless one is already running. */
  function AfterSelectionChange(s: DeckState): DeckState {
    if s.loading then s else AfterLoadStart(s, false)
  }

  /** The card `handleSwipe` looks up, if the index is inside the deck. */
  function SwipedCard(s: DeckState, cardIndex: nat): Option<DeckCard> {
    var deck := Deck(s.items, s.currentIndex);
    if cardIndex < |deck| then Some(deck[cardIndex]) else None
  }

  /** The rating call `handleSwipe` makes: only for a product card. */
  function SwipeCall(s: DeckState, cardIndex: nat, dir: Direction): Option<RatingItem> {
    var card := SwipedCard(s, cardIndex);
    if card.Some? && card.value.Product? then SendRating(Some(card.value.card), dir) else None
  }

  function AfterSwipe(s: DeckState, cardIndex: nat): DeckState {
    s.(currentIndex := cardIndex + 1)
  }

  /** The start of `handleLogout`: loaders are suppressed and the spinner shows. */
  function AfterLogoutStart(s: DeckState): DeckState {
    s.(suppressed := true, loading := true)
  }

  /** The `finally` of `handleLogout`. */
  function AfterLogoutEnd(s: DeckState): DeckState {
    s.(loading := false)
  }

  /** The mount effect's cleanup. */
  function AfterUnmount(s: DeckState): DeckState {
    s.(suppressed := true)
  }

  datatype Event =
    | FiltersStart
    | FiltersLoaded
    | LoadStart(append: bool)
    | LoadEnd(append: bool, outcome: Result<seq<Card>, Option<string>>)
    | SelectionChange
    | Swiped(cardIndex: nat, dir: Direction)
    | LogoutStart
    | LogoutEnd
    | Unmounted

  function Step(s: DeckState, e: Event): DeckState {
    match e
    case FiltersStart => AfterFiltersStart(s)
    case FiltersLoaded => AfterFiltersLoaded(s)
    case LoadStart(append) => AfterLoadStart(s, append)
    case LoadEnd(append, outcome) => AfterLoadEnd(s, append, outcome)
    case SelectionChange => AfterSelectionChange(s)
    case Swiped(cardIndex, _) => AfterSwipe(s, cardIndex)
    case LogoutStart => AfterLogoutStart(s)
    case LogoutEnd => AfterLogoutEnd(s)
    case Unmounted => AfterUnmount(s)
  }

  function Run(s: DeckState, es: seq<Event>): DeckState
    decreases |es|
  {
    if es == [] then s else Run(Step(s, es[0]), es[1..])
  }

  // ---------------------------------------------------------------- properties

  /** The loaders' events change nothing once loading is suppressed. */
  lemma SuppressedLoadersAreInert(s: DeckState, e: Event)
    requires s.suppressed
    requires e.FiltersStart? || e.LoadStart? || e.LoadEnd? || e.SelectionChange?
    ensures Step(s, e) == s
  {
  }

  /**
   * Suppression is never lifted, and from then on no event changes the items
   * or the error shown. The filters change only when a filter fetch that
   * passed its guard before suppression settles, and then to the static set;
   * without such a fetch they never change.
   */
  lemma {:induction false} SuppressionIsPermanent(s: DeckState, es: seq<Event>)
    requires s.suppressed
    ensures Run(s, es).suppressed
    ensures Run(s, es).items == s.items && Run(s, es).error == s.error
    ensures Run(s, es).filters == s.filters || Run(s, es).filters == FetchFilters()
    ensures !s.filtersPending ==> Run(s, es).filters == s.filters && !Run(s, es).filtersPending
    decreases |es|
  {
    if es != [] {
      SuppressionIsPermanent(Step(s, es[0]), es[1..]);
    }
  }

  /**
   * A filter fetch that started before the screen unmounts still sets the
   * filters when it settles.
   */
  lemma FiltersSettleAfterUnmount(s: DeckState)
    requires !s.suppressed
    ensures var t := Run(s, [FiltersStart, Unmounted, FiltersLoaded]);
            t.suppressed && t.filters == FetchFilters() && !t.filtersPending
  {
    var s1 := AfterFiltersStart(s);
    var s2 := AfterUnmount(s1);
    var s3 := AfterFiltersLoaded(s2);
    var es := [FiltersStart, Unmounted, FiltersLoaded];
    assert es[1..] == [Unmounted, FiltersLoaded] && es[1..][1..] == [FiltersLoaded];
    assert Run(s2, [FiltersLoaded]) == s3;
  }

  /** A fresh load replaces the items, goes back to the first card and clears the error. */
  lemma FreshLoadReplaces(s: DeckState, loaded: seq<Card>)
    requires !s.suppressed
    ensures var t := AfterLoadEnd(AfterLoadStart(s, false), false, Ok(loaded));
            t.items == loaded && t.currentIndex == 0 && !t.loading && !t.loadingMore && t.error == None
  {
  }

  /** A load-more appends the new items after the old ones and keeps the position. */
  lemma AppendLoadConcatenates(s: DeckState, loaded: seq<Card>)
    requires !s.suppressed
    ensures var t := AfterLoadEnd(AfterLoadStart(s, true), true, Ok(loaded));
            t.items == s.items + loaded && t.currentIndex == s.currentIndex && !t.loadingMore && t.error == None
  {
  }

  /** A failed load keeps the items and shows the rejection's message, or the default one. */
  lemma FailedLoadKeepsItems(s: DeckState, append: bool, message: Option<string>)
    requires !s.suppressed
    ensures var t := AfterLoadEnd(s, append, Err(message));
            t.items == s.items && !t.loading && !t.loadingMore
            && t.error == Some(if message.Some? then message.value else FailedLoadMessage)
  {
  }

  /**
   * A load that settles after logout has begun changes nothing: the spinner
   * stays until logout ends, and the old items stay.
   */
  lemma LoadDuringLogoutIsDropped(s: DeckState, loaded: seq<Card>)
    requires !s.suppressed
    ensures var t := Run(s, [LoadStart(false), LogoutStart, LoadEnd(false, Ok(loaded))]);
            t.loading && t.items == s.items && t.suppressed
    ensures !Run(s, [LoadStart(false), LogoutStart, LoadEnd(false, Ok(loaded)), LogoutEnd]).loading
  {
    var s1 := AfterLoadStart(s, false);
    var s2 := AfterLogoutStart(s1);
    assert Run(s2, [LoadEnd(false, Ok(loaded))]) == s2;
    var tail := [LoadEnd(false, Ok(loaded)), LogoutEnd];
    assert tail[1..] == [LogoutEnd];
    assert Run(s2, [LogoutEnd]) == AfterLogoutEnd(s2);
    assert Run(s2, tail) == AfterLogoutEnd(s2);
  }

  /**
   * A swipe always moves to the card after the swiped one; it rates the swiped
   * card exactly when that is a product with a numeric id, with the swipe's
   * rating, and never rates the sentinel.
   */
  lemma SwipeSpec(s: DeckState, cardIndex: nat, dir: Direction)
    ensures AfterSwipe(s, cardIndex).currentIndex == cardIndex + 1
    ensures AfterSwipe(s, cardIndex).items == s.items && AfterSwipe(s, cardIndex).suppressed == s.suppressed
    ensures cardIndex < |s.items| ==> SwipeCall(s, cardIndex, dir) == SendRating(Some(s.items[cardIndex]), dir)
    ensures cardIndex >= |s.items| ==> SwipeCall(s, cardIndex, dir) == None
    ensures SwipeCall(s, cardIndex, dir).Some? ==> SwipeCall(s, cardIndex, dir).value.rating == SwipeRating(dir)
  {
  }

  // ---------------------------------------------------------------- the screen as an object

  class SwipeDeck {
    var filters: seq<FilterGroup>
    var filtersPending: bool
    var items: seq<Card>
    var currentIndex: int
    var loading: bool
    var loadingMore: bool
    var error: Option<string>
    var suppressed: bool
    const session: Session

    function State(): DeckState
      reads this
    {
      DeckState(filters, filtersPending, items, currentIndex, loading, loadingMore, error, suppressed)
    }

    /** The cards the swiper is given. */
    function Cards(): seq<DeckCard>
      reads this
    {
      Deck(items, currentIndex)
    }

    constructor (session: Session)
      ensures State() == InitialDeck && this.session == session
    {
      filters := [];
      filtersPending := false;
      items := [];
      currentIndex := 0;
      loading := true;
      loadingMore := false;
      error := None;
      suppressed := false;
      this.session := session;
    }

    /** `loadFilters()` up to its `await`. */
    method LoadFilters()
      modifies this
      ensures State() == AfterFiltersStart(old(State()))
    {
      if suppressed {
        return;
      }
      filtersPending := true;
    }

    /** The awaited `fetchFilters()` settles: `setFilters`, without a guard. */
    method FiltersFetched()
      modifies this
      ensures State() == AfterFiltersLoaded(old(State()))
    {
      if !filtersPending {
        return;
      }
      filters := FetchFilters();
      filtersPending := false;
    }

    method LoadStart(append: bool)
      modifies this
      ensures State() == AfterLoadStart(old(State()), append)
    {
      if suppressed {
        return;
      }
      if !append {
        loading := true;
        currentIndex := 0;
      } else {
        loadingMore := true;
      }
      error := None;
    }

    method LoadEnd(append: bool, outcome: Result<seq<Card>, Option<string>>)
      modifies this
      ensures State() == AfterLoadEnd(old(State()), append, outcome)
    {
      if suppressed {
        return;
      }
      match outcome {
        case Ok(loaded) =>
          items := if append then items + loaded else loaded;
        case Err(message) =>
          error := Some(message.GetOr(FailedLoadMessage));
      }
      loading := false;
      loadingMore := false;
    }

    method SelectionChanged()
      modifies this
      ensures State() == AfterSelectionChange(old(State()))
    {
      if !loading {
        LoadStart(false);
      }
    }

    /** `handleSwipe(cardIndex, rating)`; `call` is the rating request it sends, if any. */
    method HandleSwipe(cardIndex: nat, dir: Direction) returns (call: Option<RatingItem>)
      modifies this
      ensures call == SwipeCall(old(State()), cardIndex, dir)
      ensures State() == AfterSwipe(old(State()), cardIndex)
    {
      var cards := Cards();
      call := None;
      if cardIndex < |cards| && cards[cardIndex].Product? {
        call := SendRating(Some(cards[cardIndex].card), dir);
      }
      currentIndex := cardIndex + 1;
    }

    /** `handleLogout()`; `callFails` is the client's logout call rejecting. */
    method HandleLogout(callFails: bool)
      modifies this, session, session.store
      ensures State() == AfterLogoutEnd(AfterLogoutStart(old(State())))
      ensures session.State() == AfterLogout(old(session.State()))
    {
      suppressed := true;
      loading := true;
      var _ := session.Logout(callFails);
      loading := false;
    }

    method Unmount()
      modifies this
      ensures State() == AfterUnmount(old(State()))
    {
      suppressed := true;
    }
  }
}
