/**
 * The offline bulk-ratings queue (src/hooks/useBulkRatings.ts).
 *
 * The hook keeps a pending list of ratings. `enqueue` appends to it. `flush`
 * does nothing on an empty list; otherwise it asks NetInfo whether the device is
 * connected (an await), returns with the list untouched when it is not, and
 * else takes a copy, clears the list optimistically and sends the copy as one
 * bulk call (a second await); when that call fails, the copy is put back in
 * front of whatever was enqueued meanwhile. Every change of the list re-arms a
 * single 2500 ms debounce timer that runs `flush`.
 *
 * The two awaits split a flush into three steps, so the model has one event per
 * step and enqueues can happen between them: `FlushCall` / `TimerFire` start a
 * flush, `NetInfo(c)` delivers the connectivity answer and `BulkResult(ok)` the
 * outcome of the bulk call. `Step` is the transition function; the class
 * `RatingsQueue` holds the same state in fields and its methods are proved to
 * perform exactly these transitions.
 */
module BulkRatings {
  import opened Ratings

  /** The debounce window, in milliseconds. */
  const DebounceMs: nat := 2500

  /** What the connectivity check answers; `CheckThrew` is `NetInfo.fetch()` rejecting. */
  datatype Connectivity = Online | Offline | CheckThrew

  /**
   * The flush in progress. `Checking(snapshot)` waits for NetInfo with the list as
   * it was when the flush started; `Sending(batch)` waits for the bulk call.
   */
  datatype Phase = Idle | Checking(snapshot: seq<RatingItem>) | Sending(batch: seq<RatingItem>)

  /** The hook's state: the pending list, the flush in progress, and whether a timer is pending. */
  datatype QueueState = QueueState(queue: seq<RatingItem>, phase: Phase, timerPending: bool)

  /** What can happen to the hook. */
  datatype Event =
    | Add(item: RatingItem)          // enqueue(item)
    | FlushCall                      // a caller invokes flush()
    | TimerFire                      // the debounce timer runs flush()
    | NetInfo(c: Connectivity)       // NetInfo.fetch() settles
    | BulkResult(ok: bool)           // rateProductsBulk(chunk) settles

  /** State after mounting: an empty list, and the mount effect has armed the timer. */
  const Initial: QueueState := QueueState([], Idle, true)

  predicate IsPrefix(p: seq<RatingItem>, s: seq<RatingItem>) {
    |p| <= |s| && s[..|p|] == p
  }

  /**
   * The invariant: a flush only starts on a non-empty list, and while the
   * connectivity check is pending the list still begins with the snapshot (only
   * enqueues, which append, can happen meanwhile).
   */
  predicate Inv(s: QueueState) {
    && (s.phase.Checking? ==> s.phase.snapshot != [] && IsPrefix(s.phase.snapshot, s.queue))
    && (s.phase.Sending? ==> s.phase.batch != [])
  }

  /** `enqueue(item)`: `setQueue(q => [...q, item])`; the list changed, so the effect re-arms the timer. */
  function Enqueue(s: QueueState, item: RatingItem): QueueState {
    s.(queue := s.queue + [item], timerPending := true)
  }

  /**
   * `flush()` up to its first await: a no-op on an empty list, otherwise NetInfo
   * is asked with the current list as the snapshot. A state that already has a
   * flush in progress is left unchanged (overlapping flushes are not modelled).
   */
  function StartFlush(s: QueueState): QueueState {
    if !s.phase.Idle? || s.queue == [] then s
    else s.(phase := Checking(s.queue))
  }

  /** The timer runs `flush()`; without a pending timer nothing happens. */
  function FireTimer(s: QueueState): QueueState {
    if !s.timerPending then s else StartFlush(s.(timerPending := false))
  }

  /**
   * NetInfo settles, as the hook is written:
   * - offline: return, the list untouched and no new timer;
   * - online: `setQueue([])` and the snapshot goes out as the bulk call. The
   *   list is overwritten, so whatever was enqueued during the check is gone;
   * - the check throws: the catch runs `setQueue(q => [...queue, ...q])` on a list
   *   that was never cleared, so the snapshot now appears twice.
   */
  function AfterCheck(s: QueueState, c: Connectivity): QueueState {
    if !s.phase.Checking? then s
    else
      var snapshot := s.phase.snapshot;
      match c
      case Offline => s.(phase := Idle)
      case Online => QueueState([], Sending(snapshot), true)
      case CheckThrew => QueueState(snapshot + s.queue, Idle, true)
  }

  /** The bulk call settles: success keeps the list; failure puts the batch back in front. */
  function AfterBulk(s: QueueState, ok: bool): QueueState {
    if !s.phase.Sending? then s
    else if ok then s.(phase := Idle)
    else QueueState(s.phase.batch + s.queue, Idle, true)
  }

  function Step(s: QueueState, e: Event): QueueState {
    match e
    case Add(item) => Enqueue(s, item)
    case FlushCall => StartFlush(s)
    case TimerFire => FireTimer(s)
    case NetInfo(c) => AfterCheck(s, c)
    case BulkResult(ok) => AfterBulk(s, ok)
  }

  function Run(s: QueueState, es: seq<Event>): QueueState
    decreases |es|
  {
    if es == [] then s else Run(Step(s, es[0]), es[1..])
  }

  /** The items the server acknowledges in one step. */
  function Delivered(s: QueueState, e: Event): seq<RatingItem> {
    if e == BulkResult(true) && s.phase.Sending? then s.phase.batch else []
  }

  /** The batch handed to `rateProductsBulk` in one step, if any. */
  function CallMade(s: QueueState, e: Event): seq<seq<RatingItem>> {
    if e == NetInfo(Online) && s.phase.Checking? then [s.phase.snapshot] else []
  }

  function Added(e: Event): seq<RatingItem> {
    if e.Add? then [e.item] else []
  }

  /** Everything acknowledged along a run, in order. */
  function SentOn(s: QueueState, es: seq<Event>): seq<RatingItem>
    decreases |es|
  {
    if es == [] then [] else Delivered(s, es[0]) + SentOn(Step(s, es[0]), es[1..])
  }

  /** Every bulk call made along a run, in order. */
  function CallsOn(s: QueueState, es: seq<Event>): seq<seq<RatingItem>>
    decreases |es|
  {
    if es == [] then [] else CallMade(s, es[0]) + CallsOn(Step(s, es[0]), es[1..])
  }

  /** Everything enqueued along a run, in order. */
  function AddedBy(es: seq<Event>): seq<RatingItem> {
    if es == [] then [] else Added(es[0]) + AddedBy(es[1..])
  }

  /** The items not yet acknowledged: the batch in flight, then the list. */
  function Outstanding(s: QueueState): seq<RatingItem> {
    if s.phase.Sending? then s.phase.batch + s.queue else s.queue
  }

  /** While the check is pending nothing has been enqueued since the flush started. */
  predicate Tight(s: QueueState) {
    s.phase.Checking? ==> s.queue == s.phase.snapshot
  }

  /** A step that is neither an enqueue during a pending check nor a throwing check. */
  predicate QuietStep(s: QueueState, e: Event) {
    !(s.phase.Checking? && e.Add?) && e != NetInfo(CheckThrew)
  }

  predicate Quiet(s: QueueState, es: seq<Event>)
    decreases |es|
  {
    es == [] || (QuietStep(s, es[0]) && Quiet(Step(s, es[0]), es[1..]))
  }

  // ---------------------------------------------------------------- single steps

  /** Every step keeps the invariant. */
  lemma StepKeepsInv(s: QueueState, e: Event)
    requires Inv(s)
    ensures Inv(Step(s, e))
  {
    if e.Add? && s.phase.Checking? {
      var t := Step(s, e);
      assert t.queue[..|s.phase.snapshot|] == s.queue[..|s.phase.snapshot|];
    }
  }

  /**
   * One quiet step conserves the outstanding items: what it acknowledges,
   * followed by what is still outstanding, is what was outstanding followed by
   * what it enqueued.
   */
  lemma QuietStepConserves(s: QueueState, e: Event)
    requires Inv(s) && Tight(s) && QuietStep(s, e)
    ensures Inv(Step(s, e)) && Tight(Step(s, e))
    ensures Delivered(s, e) + Outstanding(Step(s, e)) == Outstanding(s) + Added(e)
  {
    StepKeepsInv(s, e);
    match e
    case Add(item) =>
      if s.phase.Sending? {
        assert s.phase.batch + (s.queue + [item]) == (s.phase.batch + s.queue) + [item];
      }
    case FlushCall =>
    case TimerFire =>
    case NetInfo(c) =>
      if s.phase.Checking? && c == Online {
        assert s.phase.snapshot + [] == s.queue;
      }
    case BulkResult(ok) =>
  }

  /** Whenever a step changes the pending list, the debounce timer is pending afterwards. */
  lemma ListChangeArmsTimer(s: QueueState, e: Event)
    requires Inv(s)
    ensures Step(s, e).queue != s.queue ==> Step(s, e).timerPending
  {
  }

  /**
   * An offline answer leaves the list exactly as it is, makes no call, and arms
   * no timer: the items wait for the next enqueue or an explicit flush.
   */
  lemma OfflineKeepsList(s: QueueState)
    requires s.phase.Checking?
    ensures Step(s, NetInfo(Offline)).queue == s.queue
    ensures Step(s, NetInfo(Offline)).timerPending == s.timerPending
    ensures Step(s, NetInfo(Offline)).phase == Idle
    ensures CallMade(s, NetInfo(Offline)) == []
  {
  }

  /** An online answer hands exactly the snapshot to the bulk call, with the list empty. */
  lemma OnlineSendsSnapshot(s: QueueState)
    requires s.phase.Checking?
    ensures CallMade(s, NetInfo(Online)) == [s.phase.snapshot]
    ensures Step(s, NetInfo(Online)) == QueueState([], Sending(s.phase.snapshot), true)
  {
  }

  /** A failed bulk call puts the batch back in front of what was enqueued during the call. */
  lemma FailedBatchGoesInFront(s: QueueState)
    requires s.phase.Sending?
    ensures Step(s, BulkResult(false)).queue == s.phase.batch + s.queue
    ensures Step(s, BulkResult(false)).phase == Idle
  {
  }

  /** A successful bulk call does not re-add the batch. */
  lemma SucceededBatchIsDropped(s: QueueState)
    requires s.phase.Sending?
    ensures Step(s, BulkResult(true)).queue == s.queue
    ensures Delivered(s, BulkResult(true)) == s.phase.batch
  {
  }

  /** Flushing an empty list changes nothing and starts nothing. */
  lemma FlushOfEmptyIsNoop(s: QueueState)
    requires s.queue == []
    ensures Step(s, FlushCall) == s
  {
  }

  // ---------------------------------------------------------------- runs

  lemma {:induction false} RunAppend(s: QueueState, es: seq<Event>, e: Event)
    ensures Run(s, es + [e]) == Step(Run(s, es), e)
    decreases |es|
  {
    if es != [] {
      assert (es + [e])[1..] == es[1..] + [e];
      RunAppend(Step(s, es[0]), es[1..], e);
    }
  }

  /** The first step of a non-empty run, unfolded in every measure of the run. */
  lemma RunUnfold(s: QueueState, es: seq<Event>)
    requires es != []
    ensures Run(s, es) == Run(Step(s, es[0]), es[1..])
    ensures SentOn(s, es) == Delivered(s, es[0]) + SentOn(Step(s, es[0]), es[1..])
    ensures AddedBy(es) == Added(es[0]) + AddedBy(es[1..])
    ensures Quiet(s, es) <==> QuietStep(s, es[0]) && Quiet(Step(s, es[0]), es[1..])
  {
  }

  /** Regrouping the concatenations of one conserving step and the rest of a run. */
  lemma Regroup<T>(d: seq<T>, x: seq<T>, y: seq<T>, o: seq<T>, p: seq<T>, q: seq<T>, r: seq<T>)
    requires x + y == o + r && d + o == p + q
    ensures (d + x) + y == p + (q + r)
  {
    calc {
      (d + x) + y;
      d + (x + y);
      d + (o + r);
      (d + o) + r;
      (p + q) + r;
      p + (q + r);
    }
  }

  /**
   * The queue neither loses nor duplicates an item, and keeps their order, on
   * every run without an enqueue during a pending connectivity check and
   * without a throwing check: what is acknowledged, followed by what is still
   * outstanding, is what was outstanding followed by everything enqueued.
   */
  lemma {:induction false} QuietRunConserves(s: QueueState, es: seq<Event>)
    requires Inv(s) && Tight(s) && Quiet(s, es)
    ensures Inv(Run(s, es)) && Tight(Run(s, es))
    ensures SentOn(s, es) + Outstanding(Run(s, es)) == Outstanding(s) + AddedBy(es)
    decreases |es|
  {
    if es != [] {
      var e, t, rest := es[0], Step(s, es[0]), es[1..];
      QuietStepConserves(s, e);
      QuietRunConserves(t, rest);
      RunUnfold(s, es);
      Regroup(Delivered(s, e), SentOn(t, rest), Outstanding(Run(t, rest)),
              Outstanding(t), Outstanding(s), Added(e), AddedBy(rest));
    }
  }

  /** `n` enqueues of the given items. */
  function Adds(items: seq<RatingItem>): (es: seq<Event>)
    ensures |es| == |items|
  {
    if items == [] then [] else [Add(items[0])] + Adds(items[1..])
  }

  lemma {:induction false} RunAdds(s: QueueState, items: seq<RatingItem>)
    requires s.phase.Idle?
    ensures Run(s, Adds(items)).queue == s.queue + items
    ensures Run(s, Adds(items)).phase == Idle
    ensures Run(s, Adds(items)).timerPending == (s.timerPending || items != [])
    ensures CallsOn(s, Adds(items)) == []
    decreases |items|
  {
    if items != [] {
      var t := Enqueue(s, items[0]);
      RunAdds(t, items[1..]);
      assert t.queue + items[1..] == s.queue + items;
    }
  }

  lemma {:induction false} CallsOnAppend(s: QueueState, es: seq<Event>, more: seq<Event>)
    ensures CallsOn(s, es + more) == CallsOn(s, es) + CallsOn(Run(s, es), more)
    decreases |es|
  {
    if es == [] {
      assert es + more == more;
    } else {
      assert (es + more)[1..] == es[1..] + more;
      CallsOnAppend(Step(s, es[0]), es[1..], more);
    }
  }

  /**
   * Debouncing batches a burst: any number of enqueues on an idle, empty queue,
   * followed by the timer and an online answer, make exactly one bulk call, and
   * it carries every enqueued item in order.
   */
  lemma BurstMakesOneCall(s: QueueState, items: seq<RatingItem>)
    requires s.phase.Idle? && s.queue == [] && items != []
    ensures CallsOn(s, Adds(items) + [TimerFire, NetInfo(Online)]) == [items]
    ensures Run(s, Adds(items) + [TimerFire, NetInfo(Online)]) == QueueState([], Sending(items), true)
  {
    var es := Adds(items);
    RunAdds(s, items);
    var t := Run(s, es);
    assert t.queue == items;
    CallsOnAppend(s, es, [TimerFire, NetInfo(Online)]);
    var u := Step(t, TimerFire);
    assert u == t.(timerPending := false, phase := Checking(items));
    assert CallsOn(t, [TimerFire, NetInfo(Online)]) == [items] by {
      assert [TimerFire, NetInfo(Online)][1..] == [NetInfo(Online)];
    }
    RunAppend(s, es, TimerFire);
    RunAppend(s, es + [TimerFire], NetInfo(Online));
    assert es + [TimerFire] + [NetInfo(Online)] == es + [TimerFire, NetInfo(Online)];
  }

  // ---------------------------------------------------------------- as written: loss and duplication

  /** One step of a run, unfolded. */
  lemma RunCons(s: QueueState, e: Event, rest: seq<Event>)
    ensures Run(s, [e] + rest) == Run(Step(s, e), rest)
  {
    assert ([e] + rest)[1..] == rest;
  }

  lemma SentOnCons(s: QueueState, e: Event, rest: seq<Event>)
    ensures SentOn(s, [e] + rest) == Delivered(s, e) + SentOn(Step(s, e), rest)
  {
    assert ([e] + rest)[1..] == rest;
  }

  lemma CallsOnCons(s: QueueState, e: Event, rest: seq<Event>)
    ensures CallsOn(s, [e] + rest) == CallMade(s, e) + CallsOn(Step(s, e), rest)
  {
    assert ([e] + rest)[1..] == rest;
  }

  lemma AddedByCons(e: Event, rest: seq<Event>)
    ensures AddedBy([e] + rest) == Added(e) + AddedBy(rest)
  {
    assert ([e] + rest)[1..] == rest;
  }

  /** The events of the lost-item trace, built from the back. */
  function LostTrace(a: RatingItem, b: RatingItem): (es: seq<Event>)
    ensures es == [Add(a), FlushCall, Add(b), NetInfo(Online), BulkResult(true)]
  {
    [Add(a)] + ([FlushCall] + ([Add(b)] + ([NetInfo(Online)] + [BulkResult(true)])))
  }

  /** The states the lost-item trace passes through. */
  lemma LostStates(a: RatingItem, b: RatingItem)
    ensures Step(Initial, Add(a)) == QueueState([a], Idle, true)
    ensures Step(QueueState([a], Idle, true), FlushCall) == QueueState([a], Checking([a]), true)
    ensures Step(QueueState([a], Checking([a]), true), Add(b)) == QueueState([a, b], Checking([a]), true)
    ensures Step(QueueState([a, b], Checking([a]), true), NetInfo(Online)) == QueueState([], Sending([a]), true)
    ensures Step(QueueState([], Sending([a]), true), BulkResult(true)) == QueueState([], Idle, true)
  {
  }

  lemma LostRun(a: RatingItem, b: RatingItem)
    ensures Run(Initial, LostTrace(a, b)) == QueueState([], Idle, true)
  {
    LostStates(a, b);
    var es := LostTrace(a, b);
    RunCons(QueueState([], Sending([a]), true), BulkResult(true), []);
    RunCons(QueueState([a, b], Checking([a]), true), NetInfo(Online), es[4..]);
    RunCons(QueueState([a], Checking([a]), true), Add(b), es[3..]);
    RunCons(QueueState([a], Idle, true), FlushCall, es[2..]);
    RunCons(Initial, Add(a), es[1..]);
    assert es[4..] == [BulkResult(true)] && es[3..] == [NetInfo(Online)] + es[4..];
    assert es[2..] == [Add(b)] + es[3..] && es[1..] == [FlushCall] + es[2..] && es == [Add(a)] + es[1..];
  }

  lemma LostSent(a: RatingItem, b: RatingItem)
    ensures SentOn(Initial, LostTrace(a, b)) == [a]
  {
    LostStates(a, b);
    var es := LostTrace(a, b);
    SentOnCons(QueueState([], Sending([a]), true), BulkResult(true), []);
    SentOnCons(QueueState([a, b], Checking([a]), true), NetInfo(Online), es[4..]);
    SentOnCons(QueueState([a], Checking([a]), true), Add(b), es[3..]);
    SentOnCons(QueueState([a], Idle, true), FlushCall, es[2..]);
    SentOnCons(Initial, Add(a), es[1..]);
    assert es[4..] == [BulkResult(true)] && es[3..] == [NetInfo(Online)] + es[4..];
    assert es[2..] == [Add(b)] + es[3..] && es[1..] == [FlushCall] + es[2..] && es == [Add(a)] + es[1..];
  }

  lemma LostAdded(a: RatingItem, b: RatingItem)
    ensures AddedBy(LostTrace(a, b)) == [a, b]
  {
    var es := LostTrace(a, b);
    AddedByCons(BulkResult(true), []);
    AddedByCons(NetInfo(Online), es[4..]);
    AddedByCons(Add(b), es[3..]);
    AddedByCons(FlushCall, es[2..]);
    AddedByCons(Add(a), es[1..]);
    assert es[4..] == [BulkResult(true)] && es[3..] == [NetInfo(Online)] + es[4..];
    assert es[2..] == [Add(b)] + es[3..] && es[1..] == [FlushCall] + es[2..] && es == [Add(a)] + es[1..];
  }

  /**
   * An item enqueued while the connectivity check is pending is lost: the
   * optimistic `setQueue([])` overwrites it, it is not in the batch, and after
   * the bulk call succeeds nothing is outstanding although only `a` was sent.
   */
  lemma EnqueueDuringCheckIsLost(a: RatingItem, b: RatingItem)
    ensures var es := [Add(a), FlushCall, Add(b), NetInfo(Online), BulkResult(true)];
            && SentOn(Initial, es) == [a]
            && Outstanding(Run(Initial, es)) == []
            && AddedBy(es) == [a, b]
  {
    LostRun(a, b);
    LostSent(a, b);
    LostAdded(a, b);
  }

  /**
   * A connectivity check that throws duplicates the pending items: the catch
   * prepends the snapshot to a list that still holds it.
   */
  lemma ThrowingCheckDuplicates(a: RatingItem)
    ensures Run(Initial, [Add(a), FlushCall, NetInfo(CheckThrew)]).queue == [a, a]
  {
    var e2 := [NetInfo(CheckThrew)];
    var e1 := [FlushCall] + e2;
    var es := [Add(a)] + e1;
    assert es == [Add(a), FlushCall, NetInfo(CheckThrew)];
    var s1 := Step(Initial, Add(a));
    var s2 := Step(s1, FlushCall);
    var s3 := Step(s2, NetInfo(CheckThrew));
    assert s1 == QueueState([a], Idle, true);
    assert s2 == QueueState([a], Checking([a]), true);
    assert s3.queue == [a, a];
    RunCons(s2, NetInfo(CheckThrew), []);
    RunCons(s1, FlushCall, e2);
    RunCons(Initial, Add(a), e1);
  }

  /**
   * Offline: two ratings within the debounce window, the timer fires while the
   * device is offline, and both stay pending in order with no call made and no
   * timer armed.
   */
  lemma OfflineTimerKeepsBoth(a: RatingItem, b: RatingItem)
    ensures var es := [Add(a), Add(b), TimerFire, NetInfo(Offline)];
            && Run(Initial, es) == QueueState([a, b], Idle, false)
            && CallsOn(Initial, es) == []
  {
    var e3 := [NetInfo(Offline)];
    var e2 := [TimerFire] + e3;
    var e1 := [Add(b)] + e2;
    var es := [Add(a)] + e1;
    assert es == [Add(a), Add(b), TimerFire, NetInfo(Offline)];
    var s1 := Step(Initial, Add(a));
    var s2 := Step(s1, Add(b));
    var s3 := Step(s2, TimerFire);
    var s4 := Step(s3, NetInfo(Offline));
    assert s1 == QueueState([a], Idle, true);
    assert s2 == QueueState([a, b], Idle, true);
    assert s3 == QueueState([a, b], Checking([a, b]), false);
    assert s4 == QueueState([a, b], Idle, false);
    assert Run(Initial, es) == s4 by {
      RunCons(s3, NetInfo(Offline), []);
      RunCons(s2, TimerFire, e3);
      RunCons(s1, Add(b), e2);
      RunCons(Initial, Add(a), e1);
    }
    assert CallsOn(Initial, es) == [] by {
      CallsOnCons(s3, NetInfo(Offline), []);
      CallsOnCons(s2, TimerFire, e3);
      CallsOnCons(s1, Add(b), e2);
      CallsOnCons(Initial, Add(a), e1);
    }
  }

  /**
   * Back online: an explicit flush of the two pending ratings sends both as one
   * call and, once it succeeds, nothing is pending.
   */
  lemma LaterFlushSendsBoth(a: RatingItem, b: RatingItem)
    ensures var s, es := QueueState([a, b], Idle, false), [FlushCall, NetInfo(Online), BulkResult(true)];
            && CallsOn(s, es) == [[a, b]]
            && Run(s, es).queue == []
            && SentOn(s, es) == [a, b]
  {
    var e2 := [BulkResult(true)];
    var e1 := [NetInfo(Online)] + e2;
    var es := [FlushCall] + e1;
    assert es == [FlushCall, NetInfo(Online), BulkResult(true)];
    var s4 := QueueState([a, b], Idle, false);
    var s5 := Step(s4, FlushCall);
    var s6 := Step(s5, NetInfo(Online));
    var s7 := Step(s6, BulkResult(true));
    assert s5 == QueueState([a, b], Checking([a, b]), false);
    assert s6 == QueueState([], Sending([a, b]), true);
    assert s7 == QueueState([], Idle, true);
    assert Run(s4, es) == s7 by {
      RunCons(s6, BulkResult(true), []);
      RunCons(s5, NetInfo(Online), e2);
      RunCons(s4, FlushCall, e1);
    }
    assert CallsOn(s4, es) == [[a, b]] by {
      CallsOnCons(s6, BulkResult(true), []);
      CallsOnCons(s5, NetInfo(Online), e2);
      CallsOnCons(s4, FlushCall, e1);
    }
    assert SentOn(s4, es) == [a, b] by {
      SentOnCons(s6, BulkResult(true), []);
      SentOnCons(s5, NetInfo(Online), e2);
      SentOnCons(s4, FlushCall, e1);
    }
  }

  // ---------------------------------------------------------------- the hook as an object

  /** The hook's state held in fields, updated in place by its operations. */
  class RatingsQueue {
    var queue: seq<RatingItem>
    var phase: Phase
    var timerPending: bool

    function State(): QueueState
      reads this
    {
      QueueState(queue, phase, timerPending)
    }

    predicate Valid()
      reads this
    {
      Inv(State())
    }

    /** On mount: an empty list, no flush, and the mount effect's timer pending. */
    constructor ()
      ensures Valid() && State() == Initial
    {
      queue := [];
      phase := Idle;
      timerPending := true;
    }

    /** `enqueue(item)` */
    method Enqueue(item: RatingItem)
      requires Valid()
      modifies this
      ensures Valid() && State() == Step(old(State()), Add(item))
      ensures queue == old(queue) + [item] && phase == old(phase) && timerPending
    {
      queue := queue + [item];
      timerPending := true;
      StepKeepsInv(old(State()), Add(item));
    }

    /** `flush()` called directly, up to its first await. */
    method Flush()
      requires Valid() && phase.Idle?
      modifies this
      ensures Valid() && State() == Step(old(State()), FlushCall)
      ensures old(queue) == [] ==> unchanged(this)
      ensures old(queue) != [] ==> phase == Checking(old(queue)) && queue == old(queue)
    {
      if |queue| == 0 {
        return;
      }
      phase := Checking(queue);
    }

    /** The debounce timer fires and runs `flush()`. */
    method OnTimer()
      requires Valid() && timerPending && phase.Idle?
      modifies this
      ensures Valid() && State() == Step(old(State()), TimerFire)
      ensures !timerPending && queue == old(queue)
      ensures phase == if old(queue) == [] then Idle else Checking(old(queue))
    {
      timerPending := false;
      Flush();
    }

    /** `NetInfo.fetch()` settles while a flush waits for it. */
    method ConnectivityKnown(c: Connectivity) returns (batch: seq<RatingItem>)
      requires Valid() && phase.Checking?
      modifies this
      ensures Valid() && State() == Step(old(State()), NetInfo(c))
      ensures batch == if c == Online then old(phase.snapshot) else []
    {
      var snapshot := phase.snapshot;
      batch := [];
      match c {
        case Offline =>
          phase := Idle;
        case Online =>
          batch := snapshot;
          queue := [];
          phase := Sending(batch);
          timerPending := true;
        case CheckThrew =>
          queue := snapshot + queue;
          phase := Idle;
          timerPending := true;
      }
      StepKeepsInv(old(State()), NetInfo(c));
    }

    /** `rateProductsBulk(chunk)` settles. */
    method BulkFinished(ok: bool)
      requires Valid() && phase.Sending?
      modifies this
      ensures Valid() && State() == Step(old(State()), BulkResult(ok))
      ensures ok ==> queue == old(queue) && phase == Idle && timerPending == old(timerPending)
      ensures !ok ==> queue == old(phase.batch) + old(queue) && phase == Idle && timerPending
    {
      if !ok {
        queue := phase.batch + queue;
        timerPending := true;
      }
      phase := Idle;
    }

    /** `pendingCount` */
    method PendingCount() returns (n: nat)
      ensures n == |queue|
    {
      n := |queue|;
    }
  }
}
