/**
 The statistics updater: `update_block` drives the tracked items of one block
 through their `update` call with a fault boundary, failure classification,
 crash reports, change callbacks and a self-correcting inter-item sleep;
 `new_dota_rank` and `new_lol_rank` build the Telegram notifications; `Pass`
 is one iteration of the endless `process` loop.

 Items are identified by their position in the block. What the outside world
 does (the outcome of `item.update`, the time it took, whether a Telegram send
 fails) is given as input; what the updater does is recorded as events.
 */
module StatsUpdate {
  import opened Wrappers

  // ---------------------------------------------------------------------------
  // Values handed around by the updater
  // ---------------------------------------------------------------------------

  /** A ranked-queue standing as its two displayed parts (`value[0]`, `value[1]`). */
  datatype Rank = Rank(tier: string, division: string)

  /** A tracked value before (`initial_value`) and after (`value`) an update. */
  datatype Delta = Delta(initial: Rank, current: Rank)

  /**
   What `item.update` returns. `Falsy` stands for `None`, `False` and every
   other value Python treats as false; an absent sub-delta of the League of
   Legends tuple likewise stands for any false value. A tuple of three is
   truthy even when all three entries are absent.
   */
  datatype Change =
    | Falsy
    | Single(delta: Delta)
    | Triple(solo: Option<Delta>, flex: Option<Delta>, twtr: Option<Delta>)

  /** Python's truth value of a change (`if change:`). */
  predicate Truthy(c: Change) {
    !c.Falsy?
  }

  /**
   How `item.update` ended: with a change, with an HTTP error that has a
   response, or with any other `Exception`.
   */
  datatype Outcome =
    | Updated(change: Change)
    | HttpError(status: int, text: string)
    | Failed

  /**
   One item's outcome and `elapsed`: the whole seconds `time.clock()` advanced
   from just before `item.update` to just after the change callback returned,
   so the callback's own time counts. On Unix that clock measures processor
   time, not wall-clock time.
   */
  datatype Attempt = Attempt(outcome: Outcome, elapsed: nat)

  datatype Level = Warning | Error

  /** The response data attached to a crash report of an HTTP failure. */
  datatype Response = Response(code: int, text: string)

  /** The two change callbacks `process` hands to `update_block`. */
  datatype Callback = NotifyDotaRank | NotifyLolRank

  /** What the driver does for item number `item`. */
  datatype Event =
    | Updating(item: nat)                                // the attempt starts
    | Logged(item: nat, level: Level)                    // a failure is logged at `level`
    | Reported(item: nat, response: Option<Response>)    // one crash report is captured
    | Called(item: nat, change: Change)                  // the change callback is invoked
    | Slept(item: nat, seconds: nat)                     // the inter-item sleep

  predicate IsLog(e: Event) { e.Logged? }
  predicate IsReport(e: Event) { e.Reported? }
  predicate IsCall(e: Event) { e.Called? }
  predicate IsSleep(e: Event) { e.Slept? }

  /** The events of `t` that satisfy `keep`, in order. */
  function Only(t: seq<Event>, keep: Event -> bool): seq<Event> {
    if t == [] then [] else (if keep(t[0]) then [t[0]] else []) + Only(t[1..], keep)
  }

  lemma {:induction false} OnlyAppend(a: seq<Event>, b: seq<Event>, keep: Event -> bool)
    ensures Only(a + b, keep) == Only(a, keep) + Only(b, keep)
  {
    if a != [] {
      assert (a + b)[1..] == a[1..] + b;
      OnlyAppend(a[1..], b, keep);
    } else {
      assert a + b == b;
    }
  }

  /** The events of `t` that concern item `j`, in order. */
  function For(t: seq<Event>, j: nat): seq<Event> {
    if t == [] then [] else (if t[0].item == j then [t[0]] else []) + For(t[1..], j)
  }

  lemma {:induction false} ForAppend(a: seq<Event>, b: seq<Event>, j: nat)
    ensures For(a + b, j) == For(a, j) + For(b, j)
  {
    if a != [] {
      assert (a + b)[1..] == a[1..] + b;
      ForAppend(a[1..], b, j);
    } else {
      assert a + b == b;
    }
  }

  /** Events that all concern one item `i` are either all of item `j`'s events or none. */
  lemma {:induction false} ForSingleItem(t: seq<Event>, i: nat, j: nat)
    requires forall e <- t :: e.item == i
    ensures For(t, j) == if i == j then t else []
  {
    if t != [] {
      assert t[0] in t;
      assert forall e <- t[1..] :: e in t;
      ForSingleItem(t[1..], i, j);
      assert t == [t[0]] + t[1..];
    }
  }

  /** The items whose update was started, in the order they were started. */
  function Attempted(t: seq<Event>): seq<nat> {
    if t == [] then [] else (if t[0].Updating? then [t[0].item] else []) + Attempted(t[1..])
  }

  lemma {:induction false} AttemptedAppend(a: seq<Event>, b: seq<Event>)
    ensures Attempted(a + b) == Attempted(a) + Attempted(b)
  {
    if a != [] {
      assert (a + b)[1..] == a[1..] + b;
      AttemptedAppend(a[1..], b);
    } else {
      assert a + b == b;
    }
  }

  /** The numbers `lo`, `lo + 1`, ..., `hi - 1`. */
  function Range(lo: nat, hi: nat): (r: seq<nat>)
    ensures |r| == if lo <= hi then hi - lo else 0
    ensures forall k :: 0 <= k < |r| ==> r[k] == lo + k
    decreases hi - lo
  {
    if lo >= hi then [] else [lo] + Range(lo + 1, hi)
  }

  // ---------------------------------------------------------------------------
  // Failure classification: `str(e.response.status_code).startswith("5")`
  // ---------------------------------------------------------------------------

  function DigitChar(d: nat): char
    requires d < 10
  {
    ('0' as int + d) as char
  }

  /** The decimal digits of `n`, most significant first, as Python's `str` writes them. */
  function Digits(n: nat): (s: string)
    ensures |s| >= 1
  {
    if n < 10 then [DigitChar(n)] else Digits(n / 10) + [DigitChar(n % 10)]
  }

  /** Python's `str` of an integer. */
  function Decimal(code: int): (s: string)
    ensures |s| >= 1
  {
    if code < 0 then "-" + Digits(-code) else Digits(code)
  }

  /** The most significant decimal digit of `n`, computed arithmetically. */
  function LeadingDigit(n: nat): (d: nat)
    ensures d < 10
  {
    if n < 10 then n else LeadingDigit(n / 10)
  }

  lemma {:induction false} DigitsLead(n: nat)
    ensures Digits(n)[0] == DigitChar(LeadingDigit(n))
  {
    if n >= 10 {
      DigitsLead(n / 10);
    }
  }

  /**
   The level an HTTP failure is recorded at: a status code whose decimal string
   starts with "5" is a server error and gives a warning; every other code
   gives an error.
   */
  function Classify(code: int): (level: Level)
    ensures level == Warning <==> code >= 0 && LeadingDigit(code) == 5
  {
    DigitsLead(if code < 0 then -code else code);
    if Decimal(code)[0] == '5' then Warning else Error
  }

  /** For the three-digit status codes HTTP defines, a warning means exactly 500 to 599. */
  lemma ThreeDigitStatus(code: int)
    requires 100 <= code <= 999
    ensures Classify(code) == Warning <==> 500 <= code <= 599
  {
    var n: nat := code;
    assert LeadingDigit(n / 10) == LeadingDigit(n / 100);
    assert LeadingDigit(n) == n / 100;
  }

  /** A negative status code is never a server error. */
  lemma NegativeStatus(code: int)
    requires code < 0
    ensures Classify(code) == Error
  {
  }

  /** The level a failed update is logged at: HTTP by classification, anything else as a warning. */
  function FailureLevel(o: Outcome): (level: Level)
    requires !o.Updated?
    ensures o.Failed? ==> level == Warning
    ensures o.HttpError? ==> level == Classify(o.status)
  {
    match o
    case HttpError(code, _) => Classify(code)
    case Failed => Warning
  }

  /** The response data of a crash report: status and text for HTTP failures, nothing otherwise. */
  function ResponseOf(o: Outcome): (r: Option<Response>)
    requires !o.Updated?
    ensures r.Some? <==> o.HttpError?
    ensures o.HttpError? ==> r.value.code == o.status && r.value.text == o.text
  {
    match o
    case HttpError(code, text) => Some(Response(code, text))
    case Failed => None
  }

  // ---------------------------------------------------------------------------
  // update_block
  // ---------------------------------------------------------------------------

  /**
   The sleep after a successful item: `delay - elapsed`, or 0 when that is not positive.
   The gap between the start of this item and the start of the next is then at
   least `delay`, and never longer than needed.
   */
  function SleepTime(delay: nat, elapsed: nat): (s: nat)
    ensures s <= delay
    ensures elapsed >= delay ==> s == 0
    ensures elapsed + s >= delay
    ensures s > 0 ==> elapsed + s == delay
  {
    var sleep: int := delay - elapsed;
    if sleep > 0 then sleep else 0
  }

  /**
   Whether the change callback raises out of the call at `change_callback(item, change)`.
   `new_dota_rank` catches everything; `new_lol_rank` unpacks its change into
   three parts before its `try`, so any change other than a triple raises.
   */
  predicate Raises(cb: Callback, change: Change): (r: bool)
    ensures cb == NotifyDotaRank ==> !r
    ensures change.Triple? ==> !r
    ensures cb == NotifyLolRank && change.Single? ==> r
  {
    match cb
    case NotifyDotaRank => false
    case NotifyLolRank => !change.Triple?
  }

  /**
   Whether an item ends the block with an exception: its update succeeded with a
   truthy change and the callback is absent (calling `None` raises) or raises.
   */
  predicate Fatal(a: Attempt, callback: Option<Callback>): (r: bool)
    ensures r ==> a.outcome.Updated? && Truthy(a.outcome.change)
    ensures callback == Some(NotifyDotaRank) ==> !r
    ensures callback.None? ==> (r <==> a.outcome.Updated? && Truthy(a.outcome.change))
  {
    a.outcome.Updated? && Truthy(a.outcome.change)
    && (callback.None? || Raises(callback.value, a.outcome.change))
  }

  /** The events of one item and whether an exception leaves the block there. */
  datatype Step = Step(events: seq<Event>, escapes: bool)

  /** One iteration of the `for item in block` loop. */
  function ItemStep(i: nat, a: Attempt, delay: nat, callback: Option<Callback>): (r: Step)
    ensures 1 <= |r.events| <= 3 && r.events[0] == Updating(i)
    ensures r.escapes <==> Fatal(a, callback)
  {
    match a.outcome
    case HttpError(code, text) =>
      Step([Updating(i), Logged(i, Classify(code)), Reported(i, Some(Response(code, text)))], false)
    case Failed =>
      Step([Updating(i), Logged(i, Warning), Reported(i, None)], false)
    case Updated(change) =>
      if !Truthy(change) then
        Step([Updating(i), Slept(i, SleepTime(delay, a.elapsed))], false)
      else if callback.None? then
        Step([Updating(i)], true)
      else if Raises(callback.value, change) then
        Step([Updating(i), Called(i, change)], true)
      else
        Step([Updating(i), Called(i, change), Slept(i, SleepTime(delay, a.elapsed))], false)
  }

  /** `Attempted` over a trace of at most three events, written out. */
  lemma AttemptedUnfold(t: seq<Event>)
    requires 1 <= |t| <= 3
    ensures Attempted(t) ==
              (if t[0].Updating? then [t[0].item] else [])
              + (if |t| > 1 && t[1].Updating? then [t[1].item] else [])
              + (if |t| > 2 && t[2].Updating? then [t[2].item] else [])
  {
    if |t| > 1 {
      assert t[1..][0] == t[1];
      if |t| > 2 {
        assert t[1..][1..][0] == t[2];
        assert t[1..][1..][1..] == [];
      } else {
        assert t[1..][1..] == [];
      }
    }
  }

  /** `Only` over a single event. */
  lemma OnlyOne(e: Event, keep: Event -> bool)
    ensures Only([e], keep) == if keep(e) then [e] else []
  {
    assert [e][1..] == [];
  }

  /** `Only` over a trace of at most three events, written out. */
  lemma {:induction false} OnlyUnfold(t: seq<Event>, keep: Event -> bool)
    requires 1 <= |t| <= 3
    ensures Only(t, keep) ==
              (if keep(t[0]) then [t[0]] else [])
              + (if |t| > 1 && keep(t[1]) then [t[1]] else [])
              + (if |t| > 2 && keep(t[2]) then [t[2]] else [])
  {
    OnlyOne(t[0], keep);
    if |t| == 1 {
      assert t == [t[0]];
    } else {
      OnlyOne(t[1], keep);
      OnlyAppend([t[0]], t[1..], keep);
      assert t == [t[0]] + t[1..];
      if |t| == 2 {
        assert t[1..] == [t[1]];
      } else {
        OnlyOne(t[2], keep);
        OnlyAppend([t[1]], [t[2]], keep);
        assert t[1..] == [t[1]] + [t[2]];
      }
    }
  }

  /** Every event of an item's step is about that item, and the step starts it exactly once. */
  lemma ItemAttempted(i: nat, a: Attempt, delay: nat, callback: Option<Callback>)
    ensures forall e <- ItemStep(i, a, delay, callback).events :: e.item == i
    ensures Attempted(ItemStep(i, a, delay, callback).events) == [i]
  {
    AttemptedUnfold(ItemStep(i, a, delay, callback).events);
  }

  /** A failed item is logged once, at its level; a successful one is not logged. */
  lemma ItemLogs(i: nat, a: Attempt, delay: nat, callback: Option<Callback>)
    ensures Only(ItemStep(i, a, delay, callback).events, IsLog) ==
              (if a.outcome.Updated? then [] else [Logged(i, FailureLevel(a.outcome))])
  {
    OnlyUnfold(ItemStep(i, a, delay, callback).events, IsLog);
  }

  /** A failed item gets exactly one crash report, with its response data; a successful one none. */
  lemma ItemReports(i: nat, a: Attempt, delay: nat, callback: Option<Callback>)
    ensures Only(ItemStep(i, a, delay, callback).events, IsReport) ==
              (if a.outcome.Updated? then [] else [Reported(i, ResponseOf(a.outcome))])
  {
    OnlyUnfold(ItemStep(i, a, delay, callback).events, IsReport);
  }

  /** The callback is called once exactly for a truthy change when one is given; never after a failure. */
  lemma ItemCalls(i: nat, a: Attempt, delay: nat, callback: Option<Callback>)
    ensures Only(ItemStep(i, a, delay, callback).events, IsCall) ==
              (if a.outcome.Updated? && Truthy(a.outcome.change) && callback.Some?
               then [Called(i, a.outcome.change)] else [])
  {
    OnlyUnfold(ItemStep(i, a, delay, callback).events, IsCall);
  }

  /** A successful item sleeps `SleepTime(delay, elapsed)` once unless its callback raised; a failed one never sleeps. */
  lemma ItemSleeps(i: nat, a: Attempt, delay: nat, callback: Option<Callback>)
    ensures Only(ItemStep(i, a, delay, callback).events, IsSleep) ==
              (if a.outcome.Updated? && !Fatal(a, callback)
               then [Slept(i, SleepTime(delay, a.elapsed))] else [])
  {
    OnlyUnfold(ItemStep(i, a, delay, callback).events, IsSleep);
  }

  /** The trace of a block run, and the item whose exception left the block, if any. */
  datatype BlockRun = BlockRun(trace: seq<Event>, escaped: Option<nat>)

  /** The run of the items from position `i` on. */
  function RunFrom(block: seq<Attempt>, i: nat, delay: nat, callback: Option<Callback>): (r: BlockRun)
    requires i <= |block|
    ensures r.escaped.Some? ==> i <= r.escaped.value < |block|
    decreases |block| - i
  {
    if i == |block| then BlockRun([], None)
    else
      var step := ItemStep(i, block[i], delay, callback);
      if step.escapes then BlockRun(step.events, Some(i))
      else
        var rest := RunFrom(block, i + 1, delay, callback);
        BlockRun(step.events + rest.trace, rest.escaped)
  }

  function Run(block: seq<Attempt>, delay: nat, callback: Option<Callback>): BlockRun {
    RunFrom(block, 0, delay, callback)
  }

  /** One past the last item attempted: the item that raised, or the end of the block. */
  function End(r: BlockRun, n: nat): nat {
    if r.escaped.Some? then r.escaped.value + 1 else n
  }

  /**
   Only the change callback can end a block early: the block runs to its end
   exactly when no item is fatal, and otherwise stops at the first fatal item.
   A failing `update` is never fatal.
   */
  lemma {:induction false} RunEscape(block: seq<Attempt>, i: nat, delay: nat, callback: Option<Callback>)
    requires i <= |block|
    ensures var r := RunFrom(block, i, delay, callback);
      (r.escaped.None? <==> forall j :: i <= j < |block| ==> !Fatal(block[j], callback))
      && (r.escaped.Some? ==>
            Fatal(block[r.escaped.value], callback)
            && forall j :: i <= j < r.escaped.value ==> !Fatal(block[j], callback))
    decreases |block| - i
  {
    if i < |block| {
      RunEscape(block, i + 1, delay, callback);
    }
  }

  /** Every item up to the end of the run is attempted exactly once, in list order. */
  lemma {:induction false} RunAttempts(block: seq<Attempt>, i: nat, delay: nat, callback: Option<Callback>)
    requires i <= |block|
    ensures var r := RunFrom(block, i, delay, callback);
      Attempted(r.trace) == Range(i, End(r, |block|))
    decreases |block| - i
  {
    if i < |block| {
      var step := ItemStep(i, block[i], delay, callback);
      var r := RunFrom(block, i, delay, callback);
      ItemAttempted(i, block[i], delay, callback);
      if step.escapes {
        assert r == BlockRun(step.events, Some(i));
        assert Range(i, i + 1) == [i];
      } else {
        var rest := RunFrom(block, i + 1, delay, callback);
        assert r == BlockRun(step.events + rest.trace, rest.escaped);
        RunAttempts(block, i + 1, delay, callback);
        AttemptedAppend(step.events, rest.trace);
        assert End(r, |block|) == End(rest, |block|) > i;
        assert Range(i, End(rest, |block|)) == [i] + Range(i + 1, End(rest, |block|));
      }
    } else {
      assert RunFrom(block, i, delay, callback).trace == [];
    }
  }

  /** The events of item `j` in item `i`'s step: the whole step when `j == i`, none otherwise. */
  lemma StepFor(i: nat, a: Attempt, delay: nat, callback: Option<Callback>, j: nat)
    ensures For(ItemStep(i, a, delay, callback).events, j) ==
              if i == j then ItemStep(i, a, delay, callback).events else []
  {
    ItemAttempted(i, a, delay, callback);
    ForSingleItem(ItemStep(i, a, delay, callback).events, i, j);
  }

  /**
   The events about item `j` in a block run are exactly that item's own step when
   `j` was attempted, and nothing otherwise; so the per-item guarantees of
   `ItemStep` (one report per failure, no callback or sleep after a failure, ...)
   hold of the whole trace.
   */
  lemma {:induction false} RunPerItem(block: seq<Attempt>, i: nat, delay: nat, callback: Option<Callback>, j: nat)
    requires i <= |block|
    ensures var r := RunFrom(block, i, delay, callback);
      For(r.trace, j) == if i <= j < End(r, |block|) then ItemStep(j, block[j], delay, callback).events else []
  {
    var r := RunFrom(block, i, delay, callback);
    if i <= j < End(r, |block|) {
      RunForAttempted(block, i, delay, callback, j);
    } else {
      RunForUnattempted(block, i, delay, callback, j);
    }
  }

  lemma {:induction false} RunForAttempted(block: seq<Attempt>, i: nat, delay: nat, callback: Option<Callback>, j: nat)
    requires i <= |block| && i <= j < End(RunFrom(block, i, delay, callback), |block|)
    ensures For(RunFrom(block, i, delay, callback).trace, j) == ItemStep(j, block[j], delay, callback).events
    decreases |block| - i
  {
    var step := ItemStep(i, block[i], delay, callback);
    var r := RunFrom(block, i, delay, callback);
    StepFor(i, block[i], delay, callback, j);
    if step.escapes {
      assert r == BlockRun(step.events, Some(i));
    } else {
      var rest := RunFrom(block, i + 1, delay, callback);
      assert r == BlockRun(step.events + rest.trace, rest.escaped);
      ForAppend(step.events, rest.trace, j);
      if j == i {
        RunForUnattempted(block, i + 1, delay, callback, j);
      } else {
        RunForAttempted(block, i + 1, delay, callback, j);
      }
    }
  }

  lemma {:induction false} RunForUnattempted(block: seq<Attempt>, i: nat, delay: nat, callback: Option<Callback>, j: nat)
    requires i <= |block|
    requires !(i <= j < End(RunFrom(block, i, delay, callback), |block|))
    ensures For(RunFrom(block, i, delay, callback).trace, j) == []
    decreases |block| - i
  {
    if i < |block| {
      var step := ItemStep(i, block[i], delay, callback);
      var r := RunFrom(block, i, delay, callback);
      StepFor(i, block[i], delay, callback, j);
      if step.escapes {
        assert r == BlockRun(step.events, Some(i));
        assert End(r, |block|) == i + 1 && j != i;
        assert For(r.trace, j) == For(step.events, j) == [];
      } else {
        var rest := RunFrom(block, i + 1, delay, callback);
        assert r == BlockRun(step.events + rest.trace, rest.escaped);
        assert End(r, |block|) == End(rest, |block|) > i && j != i;
        ForAppend(step.events, rest.trace, j);
        RunForUnattempted(block, i + 1, delay, callback, j);
        assert For(step.events, j) == [] && For(rest.trace, j) == [];
        assert For(r.trace, j) == [] + [];
      }
    } else {
      assert RunFrom(block, i, delay, callback).trace == [];
      assert For([], j) == [];
    }
  }

  /** The crash reports an attempted range of the block must produce: one per failed item, in order. */
  function FailureReports(block: seq<Attempt>, lo: nat, hi: nat): seq<Event>
    requires lo <= hi <= |block|
    decreases hi - lo
  {
    if lo == hi then []
    else
      (if block[lo].outcome.Updated? then [] else [Reported(lo, ResponseOf(block[lo].outcome))])
      + FailureReports(block, lo + 1, hi)
  }

  /** The callback calls an attempted range must produce: one per truthy change, when a callback is given. */
  function ChangeCalls(block: seq<Attempt>, lo: nat, hi: nat, callback: Option<Callback>): seq<Event>
    requires lo <= hi <= |block|
    decreases hi - lo
  {
    if lo == hi || callback.None? then []
    else
      (if block[lo].outcome.Updated? && Truthy(block[lo].outcome.change)
       then [Called(lo, block[lo].outcome.change)] else [])
      + ChangeCalls(block, lo + 1, hi, callback)
  }

  /** The crash reports of a block run are exactly the failures among the attempted items. */
  lemma {:induction false} RunReports(block: seq<Attempt>, i: nat, delay: nat, callback: Option<Callback>)
    requires i <= |block|
    ensures var r := RunFrom(block, i, delay, callback);
      End(r, |block|) <= |block| && Only(r.trace, IsReport) == FailureReports(block, i, End(r, |block|))
    decreases |block| - i
  {
    if i < |block| {
      var step := ItemStep(i, block[i], delay, callback);
      ItemReports(i, block[i], delay, callback);
      if step.escapes {
        assert FailureReports(block, i + 1, i + 1) == [];
      } else {
        var rest := RunFrom(block, i + 1, delay, callback);
        RunReports(block, i + 1, delay, callback);
        OnlyAppend(step.events, rest.trace, IsReport);
      }
    }
  }

  /** The callback calls of a block run are exactly the truthy changes among the attempted items. */
  lemma {:induction false} RunCalls(block: seq<Attempt>, i: nat, delay: nat, callback: Option<Callback>)
    requires i <= |block|
    ensures var r := RunFrom(block, i, delay, callback);
      End(r, |block|) <= |block| && Only(r.trace, IsCall) == ChangeCalls(block, i, End(r, |block|), callback)
    decreases |block| - i
  {
    if i < |block| {
      var step := ItemStep(i, block[i], delay, callback);
      ItemCalls(i, block[i], delay, callback);
      if step.escapes {
        assert ChangeCalls(block, i + 1, i + 1, callback) == [];
      } else {
        var rest := RunFrom(block, i + 1, delay, callback);
        RunCalls(block, i + 1, delay, callback);
        OnlyAppend(step.events, rest.trace, IsCall);
      }
    }
  }

  /**
   A block without a callback (Steam, osu!, Overwatch) raises out of the block
   exactly when some item's update returns a truthy change.
   */
  lemma NoCallbackEscape(block: seq<Attempt>, delay: nat)
    ensures Run(block, delay, None).escaped.Some? <==>
              exists j :: 0 <= j < |block| && block[j].outcome.Updated? && Truthy(block[j].outcome.change)
  {
    RunEscape(block, 0, delay, None);
  }

  /**
   One iteration of the loop of `update_block`: the events item `i` produces and
   whether an exception leaves the block there.
   */
  method UpdateItem(i: nat, a: Attempt, delay: nat, callback: Option<Callback>)
    returns (part: seq<Event>, raised: bool)
    ensures Step(part, raised) == ItemStep(i, a, delay, callback)
    ensures raised <==> Fatal(a, callback)
  {
    part := [Updating(i)];
    raised := false;
    match a.outcome {
      case HttpError(code, text) =>
        var level := if Decimal(code)[0] == '5' then Warning else Error;
        part := part + [Logged(i, level), Reported(i, Some(Response(code, text)))];
      case Failed =>
        part := part + [Logged(i, Warning), Reported(i, None)];
      case Updated(change) =>
        if Truthy(change) {
          if callback.None? {
            raised := true;
          } else {
            part := part + [Called(i, change)];
            raised := Raises(callback.value, change);
          }
        }
        if !raised {
          var sleep: int := delay - a.elapsed;
          part := part + [Slept(i, if sleep > 0 then sleep else 0)];
        }
    }
  }

  /** One item of the loop of `update_block`, seen from the run of the whole block. */
  lemma RunAdvance(block: seq<Attempt>, i: nat, delay: nat, callback: Option<Callback>, prefix: seq<Event>)
    requires i < |block|
    requires Run(block, delay, callback) ==
               BlockRun(prefix + RunFrom(block, i, delay, callback).trace, RunFrom(block, i, delay, callback).escaped)
    ensures var step := ItemStep(i, block[i], delay, callback);
      if step.escapes then Run(block, delay, callback) == BlockRun(prefix + step.events, Some(i))
      else Run(block, delay, callback) ==
             BlockRun((prefix + step.events) + RunFrom(block, i + 1, delay, callback).trace,
                      RunFrom(block, i + 1, delay, callback).escaped)
  {
    var step := ItemStep(i, block[i], delay, callback);
    if !step.escapes {
      var rest := RunFrom(block, i + 1, delay, callback);
      assert prefix + (step.events + rest.trace) == (prefix + step.events) + rest.trace;
    }
  }

  /** What the run of a whole block promises: where it stops, and which items it attempted. */
  lemma RunSummary(block: seq<Attempt>, delay: nat, callback: Option<Callback>)
    ensures var r := Run(block, delay, callback);
      && (r.escaped.None? <==> forall j :: 0 <= j < |block| ==> !Fatal(block[j], callback))
      && (r.escaped.Some? ==> r.escaped.value < |block| && Fatal(block[r.escaped.value], callback))
      && Attempted(r.trace) == Range(0, End(r, |block|))
  {
    RunEscape(block, 0, delay, callback);
    RunAttempts(block, 0, delay, callback);
  }

  /**
   `update_block(session, block, delay, change_callback)`. Returns the trace and
   the item whose exception left the block, if one did.
   */
  method UpdateBlock(block: seq<Attempt>, delay: nat, callback: Option<Callback>)
    returns (trace: seq<Event>, escaped: Option<nat>)
    ensures BlockRun(trace, escaped) == Run(block, delay, callback)
    ensures escaped.None? <==> forall j :: 0 <= j < |block| ==> !Fatal(block[j], callback)
    ensures escaped.Some? ==> escaped.value < |block| && Fatal(block[escaped.value], callback)
    ensures Attempted(trace) == Range(0, End(BlockRun(trace, escaped), |block|))
  {
    trace, escaped := [], None;
    var i := 0;
    while i < |block|
      invariant 0 <= i <= |block|
      invariant escaped.None?
      invariant Run(block, delay, callback) ==
                  BlockRun(trace + RunFrom(block, i, delay, callback).trace, RunFrom(block, i, delay, callback).escaped)
    {
      var part, raised := UpdateItem(i, block[i], delay, callback);
      RunAdvance(block, i, delay, callback, trace);
      trace := trace + part;
      if raised {
        escaped := Some(i);
        break;
      }
      i := i + 1;
    }
    RunSummary(block, delay, callback);
  }

  // ---------------------------------------------------------------------------
  // Notifications: new_dota_rank and new_lol_rank
  // ---------------------------------------------------------------------------

  datatype Queue = SoloDuo | Flex | ThreeVThree

  /** Position of a queue in the order the League of Legends notifications are sent. */
  function QueueOrder(q: Queue): nat {
    match q
    case SoloDuo => 0
    case Flex => 1
    case ThreeVThree => 2
  }

  /** The persisted data of a Dota profile that its notification shows. */
  datatype DotaProfile = DotaProfile(username: string, rankName: string, rankNumber: string)

  /**
   A Telegram message to the main group: a Dota rank-up in plain text, or a new
   League of Legends queue rank `before -> after` in Markdown.
   */
  datatype Message =
    | DotaRankUp(username: string, rankName: string, rankNumber: string)
    | NewQueueRank(username: string, queue: Queue, before: Rank, after: Rank)

  predicate Markdown(m: Message) {
    m.NewQueueRank?
  }

  /** The messages that reached Telegram, and whether a failed send was logged as a warning. */
  datatype Delivery = Delivery(delivered: seq<Message>, warned: bool)

  /**
   Sends `ms` in order inside one `try`: the send numbered `failAt` (counting from
   0), if there is one, raises; the exception is swallowed with a warning and the
   later sends are skipped.
   */
  function Deliver(ms: seq<Message>, failAt: Option<nat>): (d: Delivery)
    ensures d.warned <==> failAt.Some? && failAt.value < |ms|
    ensures d.delivered <= ms
    ensures d.warned ==> |d.delivered| == failAt.value
    ensures !d.warned ==> d.delivered == ms
  {
    if failAt.Some? && failAt.value < |ms| then Delivery(ms[..failAt.value], true) else Delivery(ms, false)
  }

  /** `new_dota_rank`: one rank-up message about the profile; the change itself is ignored. */
  function NewDotaRank(profile: DotaProfile, failAt: Option<nat>): (d: Delivery)
    ensures |d.delivered| <= 1
    ensures d.warned <==> failAt == Some(0)
    ensures !d.warned ==> d.delivered == [DotaRankUp(profile.username, profile.rankName, profile.rankNumber)]
  {
    Deliver([DotaRankUp(profile.username, profile.rankName, profile.rankNumber)], failAt)
  }

  /** The sub-delta of queue `q` in the League of Legends change tuple. */
  function SubDelta(q: Queue, solo: Option<Delta>, flex: Option<Delta>, twtr: Option<Delta>): Option<Delta> {
    match q
    case SoloDuo => solo
    case Flex => flex
    case ThreeVThree => twtr
  }

  function Announce(username: string, q: Queue, d: Option<Delta>): (ms: seq<Message>)
    ensures |ms| == if d.Some? then 1 else 0
    ensures forall m <- ms :: m == NewQueueRank(username, q, d.value.initial, d.value.current)
  {
    if d.Some? then [NewQueueRank(username, q, d.value.initial, d.value.current)] else []
  }

  function Present(d: Option<Delta>): nat {
    if d.Some? then 1 else 0
  }

  /**
   The messages `new_lol_rank` sends when no send fails: one per present
   sub-delta, in the order SOLO/DUO, FLEX, 3V3, each showing that queue's
   old and new rank.
   */
  function LolMessages(username: string, solo: Option<Delta>, flex: Option<Delta>, twtr: Option<Delta>): (ms: seq<Message>)
    ensures |ms| == Present(solo) + Present(flex) + Present(twtr) <= 3
    ensures forall m <- ms :: Markdown(m) && m.NewQueueRank? && m.username == username
              && SubDelta(m.queue, solo, flex, twtr) == Some(Delta(m.before, m.after))
    ensures forall k, l :: 0 <= k < l < |ms| ==> QueueOrder(ms[k].queue) < QueueOrder(ms[l].queue)
  {
    Announce(username, SoloDuo, solo) + Announce(username, Flex, flex) + Announce(username, ThreeVThree, twtr)
  }

  /** `new_lol_rank`, with the change tuple already unpacked into its three parts. */
  function NewLolRank(username: string, solo: Option<Delta>, flex: Option<Delta>, twtr: Option<Delta>,
                      failAt: Option<nat>): (d: Delivery)
    ensures |d.delivered| <= 3
    ensures d.delivered <= LolMessages(username, solo, flex, twtr)
    ensures d.warned <==> failAt.Some? && failAt.value < Present(solo) + Present(flex) + Present(twtr)
    ensures !d.warned ==> d.delivered == LolMessages(username, solo, flex, twtr)
  {
    Deliver(LolMessages(username, solo, flex, twtr), failAt)
  }

  /** A tuple with only the FLEX sub-delta present yields exactly one FLEX message. */
  lemma FlexOnly(username: string, d: Delta)
    ensures NewLolRank(username, None, Some(d), None, None) ==
              Delivery([NewQueueRank(username, Flex, d.initial, d.current)], false)
  {
  }

  /**
   A tuple with all three parts absent is still truthy, so `update_block` calls
   `new_lol_rank`, which then sends nothing.
   */
  lemma EmptyTupleCallsButSendsNothing(username: string, failAt: Option<nat>)
    ensures Truthy(Triple(None, None, None)) && !Raises(NotifyLolRank, Triple(None, None, None))
    ensures NewLolRank(username, None, None, None, failAt) == Delivery([], false)
  {
  }

  // ---------------------------------------------------------------------------
  // One pass of process()
  // ---------------------------------------------------------------------------

  datatype Kind = Steam | Dota | LeagueOfLegends | Osu | Overwatch

  /** A block of `process`: which table it queries, its delay and its callback. */
  datatype BlockConfig = BlockConfig(kind: Kind, delay: nat, callback: Option<Callback>)

  const Schedule: seq<BlockConfig> := [
    BlockConfig(Steam, 0, None),
    BlockConfig(Dota, 5, Some(NotifyDotaRank)),
    BlockConfig(LeagueOfLegends, 5, Some(NotifyLolRank)),
    BlockConfig(Osu, 5, None),
    BlockConfig(Overwatch, 5, None)
  ]

  /** Seconds `process` sleeps after a full pass. */
  const Cooldown: nat := 1800

  datatype PassEvent =
    | Ran(kind: Kind, trace: seq<Event>)   // update_block over the queried items
    | Committed(kind: Kind)                // session.commit() after that block
    | Paused(seconds: nat)                 // the sleep after the pass

  /** The log of a pass, and the block whose exception ended it (and the worker), if any. */
  datatype PassRun = PassRun(log: seq<PassEvent>, crashed: Option<Kind>)

  /** The tables in the order the pass visits them. */
  const Order: seq<Kind> := [Steam, Dota, LeagueOfLegends, Osu, Overwatch]

  lemma ScheduleOrder()
    ensures |Order| == |Schedule|
    ensures forall k :: 0 <= k < |Schedule| ==> Schedule[k].kind == Order[k]
  {
  }

  /** The run of every block of the schedule over the items `query` returns for its table. */
  function BlockRuns(query: Kind -> seq<Attempt>): (runs: seq<BlockRun>)
    ensures |runs| == |Schedule|
    ensures forall k :: 0 <= k < |Schedule| ==>
              runs[k] == Run(query(Schedule[k].kind), Schedule[k].delay, Schedule[k].callback)
  {
    seq(|Schedule|, k requires 0 <= k < |Schedule| =>
      Run(query(Schedule[k].kind), Schedule[k].delay, Schedule[k].callback))
  }

  /** The pass from schedule entry `k` on, given the run of every block. */
  function PassFrom(runs: seq<BlockRun>, k: nat): PassRun
    requires |runs| == |Order| && k <= |Order|
    decreases |Order| - k
  {
    if k == |Order| then PassRun([Paused(Cooldown)], None)
    else if runs[k].escaped.Some? then PassRun([Ran(Order[k], runs[k].trace)], Some(Order[k]))
    else
      var rest := PassFrom(runs, k + 1);
      PassRun([Ran(Order[k], runs[k].trace), Committed(Order[k])] + rest.log, rest.crashed)
  }

  /** The first block from `k` on whose run raised, or `|Order|` when none did. */
  function CrashAt(runs: seq<BlockRun>, k: nat): (m: nat)
    requires |runs| == |Order| && k <= |Order|
    ensures k <= m <= |Order|
    ensures m < |Order| ==> runs[m].escaped.Some?
    decreases |Order| - k
  {
    if k == |Order| || runs[k].escaped.Some? then k else CrashAt(runs, k + 1)
  }

  /** One past the last block a pass runs: the block that raised is run, the ones after it are not. */
  function LastBlock(runs: seq<BlockRun>, k: nat): (e: nat)
    requires |runs| == |Order| && k <= |Order|
    ensures k <= e <= |Order|
  {
    var m := CrashAt(runs, k);
    if m < |Order| then m + 1 else |Order|
  }

  function Commits(log: seq<PassEvent>): seq<Kind> {
    if log == [] then [] else (if log[0].Committed? then [log[0].kind] else []) + Commits(log[1..])
  }

  function Blocks(log: seq<PassEvent>): seq<Kind> {
    if log == [] then [] else (if log[0].Ran? then [log[0].kind] else []) + Blocks(log[1..])
  }

  function Pauses(log: seq<PassEvent>): seq<nat> {
    if log == [] then [] else (if log[0].Paused? then [log[0].seconds] else []) + Pauses(log[1..])
  }

  /** The tables `Order[lo]` to `Order[hi - 1]`. */
  function Kinds(lo: nat, hi: nat): seq<Kind>
    requires lo <= hi <= |Order|
    decreases hi - lo
  {
    if lo == hi then [] else [Order[lo]] + Kinds(lo + 1, hi)
  }

  lemma {:induction false} CommitsAppend(a: seq<PassEvent>, b: seq<PassEvent>)
    ensures Commits(a + b) == Commits(a) + Commits(b)
  {
    if a != [] {
      assert (a + b)[1..] == a[1..] + b;
      CommitsAppend(a[1..], b);
    } else {
      assert a + b == b;
    }
  }

  lemma {:induction false} BlocksAppend(a: seq<PassEvent>, b: seq<PassEvent>)
    ensures Blocks(a + b) == Blocks(a) + Blocks(b)
  {
    if a != [] {
      assert (a + b)[1..] == a[1..] + b;
      BlocksAppend(a[1..], b);
    } else {
      assert a + b == b;
    }
  }

  lemma {:induction false} PausesAppend(a: seq<PassEvent>, b: seq<PassEvent>)
    ensures Pauses(a + b) == Pauses(a) + Pauses(b)
  {
    if a != [] {
      assert (a + b)[1..] == a[1..] + b;
      PausesAppend(a[1..], b);
    } else {
      assert a + b == b;
    }
  }

  /** The blocks before the first one that raised all completed; the pass ends with that block's exception. */
  lemma {:induction false} PassCrash(runs: seq<BlockRun>, k: nat)
    requires |runs| == |Order| && k <= |Order|
    ensures forall j :: k <= j < CrashAt(runs, k) ==> runs[j].escaped.None?
    ensures PassFrom(runs, k).crashed ==
              if CrashAt(runs, k) < |Order| then Some(Order[CrashAt(runs, k)]) else None
    decreases |Order| - k
  {
    if k < |Order| && runs[k].escaped.None? {
      PassCrash(runs, k + 1);
    }
  }

  /**
   A pass commits once after every block that completed, in schedule order, and
   runs the blocks up to and including the one that raised.
   */
  lemma {:induction false} PassCommits(runs: seq<BlockRun>, k: nat)
    requires |runs| == |Order| && k <= |Order|
    ensures Commits(PassFrom(runs, k).log) == Kinds(k, CrashAt(runs, k))
    decreases |Order| - k
  {
    if k < |Order| {
      var p := PassFrom(runs, k);
      if runs[k].escaped.Some? {
        assert p.log == [Ran(Order[k], runs[k].trace)];
        assert p.log[1..] == [];
      } else {
        var head := [Ran(Order[k], runs[k].trace), Committed(Order[k])];
        var rest := PassFrom(runs, k + 1);
        assert p.log == head + rest.log;
        PassCommits(runs, k + 1);
        CommitsAppend(head, rest.log);
        assert head[1..][1..] == [];
        assert Commits(head) == [Order[k]];
      }
    }
  }

  /** A pass runs the blocks in schedule order, up to and including the one that raised. */
  lemma {:induction false} PassBlocks(runs: seq<BlockRun>, k: nat)
    requires |runs| == |Order| && k <= |Order|
    ensures Blocks(PassFrom(runs, k).log) == Kinds(k, LastBlock(runs, k))
    decreases |Order| - k
  {
    if k < |Order| {
      var p := PassFrom(runs, k);
      if runs[k].escaped.Some? {
        assert Blocks(p.log) == [Order[k]] by {
          assert p.log == [Ran(Order[k], runs[k].trace)];
          assert p.log[1..] == [];
        }
        assert Kinds(k, k + 1) == [Order[k]] by {
          assert Kinds(k + 1, k + 1) == [];
        }
      } else {
        var head := [Ran(Order[k], runs[k].trace), Committed(Order[k])];
        var rest := PassFrom(runs, k + 1);
        assert Blocks(p.log) == [Order[k]] + Blocks(rest.log) by {
          assert p.log == head + rest.log;
          BlocksAppend(head, rest.log);
          assert head[1..][1..] == [];
        }
        PassBlocks(runs, k + 1);
        assert LastBlock(runs, k) == LastBlock(runs, k + 1);
      }
    }
  }

  /** The cooldown sleep happens once, as the last step, exactly when no block raised. */
  lemma {:induction false} PassPauses(runs: seq<BlockRun>, k: nat)
    requires |runs| == |Order| && k <= |Order|
    ensures Pauses(PassFrom(runs, k).log) == (if CrashAt(runs, k) == |Order| then [Cooldown] else [])
    decreases |Order| - k
  {
    if k < |Order| {
      var p := PassFrom(runs, k);
      if runs[k].escaped.Some? {
        assert p.log == [Ran(Order[k], runs[k].trace)];
        assert p.log[1..] == [];
      } else {
        var head := [Ran(Order[k], runs[k].trace), Committed(Order[k])];
        var rest := PassFrom(runs, k + 1);
        assert p.log == head + rest.log;
        PassPauses(runs, k + 1);
        PausesAppend(head, rest.log);
        assert head[1..][1..] == [];
        assert Pauses(head) == [];
      }
    }
  }

  /** When no block raised, the last thing a pass does is the cooldown sleep. */
  lemma {:induction false} PassEndsWithCooldown(runs: seq<BlockRun>, k: nat)
    requires |runs| == |Order| && k <= |Order|
    requires CrashAt(runs, k) == |Order|
    ensures var log := PassFrom(runs, k).log; |log| > 0 && log[|log| - 1] == Paused(Cooldown)
    decreases |Order| - k
  {
    if k < |Order| {
      PassEndsWithCooldown(runs, k + 1);
    }
  }

  /** No table is visited twice in a pass. */
  lemma {:induction false} KindsDistinct(lo: nat, m: nat)
    requires lo <= m < |Order|
    ensures Order[m] !in Kinds(lo, m)
    decreases m - lo
  {
    if lo < m {
      KindsDistinct(lo + 1, m);
    }
  }

  /** Runs block `k` of the schedule and commits after it unless it raised. */
  method RunBlock(query: Kind -> seq<Attempt>, k: nat) returns (log: seq<PassEvent>, crashed: Option<Kind>)
    requires k < |Schedule|
    ensures var run := BlockRuns(query)[k];
      crashed == (if run.escaped.Some? then Some(Order[k]) else None)
      && log == [Ran(Order[k], run.trace)] + (if run.escaped.Some? then [] else [Committed(Order[k])])
  {
    var c := Schedule[k];
    var trace, escaped := UpdateBlock(query(c.kind), c.delay, c.callback);
    ScheduleOrder();
    log := [Ran(c.kind, trace)];
    if escaped.Some? {
      return log, Some(c.kind);
    }
    log := log + [Committed(c.kind)];
    crashed := None;
  }

  /**
   What a whole pass promises: when no block raised, a commit after each of the
   five blocks in schedule order and then exactly one cooldown sleep, as the last
   step; when a block raised, no cooldown and no commit of that block.
   */
  lemma PassOutcome(runs: seq<BlockRun>)
    requires |runs| == |Order|
    ensures var p := PassFrom(runs, 0);
      (p.crashed.None? ==>
         Commits(p.log) == [Steam, Dota, LeagueOfLegends, Osu, Overwatch]
         && Pauses(p.log) == [Cooldown] && |p.log| > 0 && p.log[|p.log| - 1] == Paused(Cooldown))
      && (p.crashed.Some? ==> Pauses(p.log) == [] && p.crashed.value !in Commits(p.log))
  {
    PassCrash(runs, 0);
    PassCommits(runs, 0);
    PassPauses(runs, 0);
    var m := CrashAt(runs, 0);
    if m == |Order| {
      PassEndsWithCooldown(runs, 0);
      assert Kinds(0, 5) == Order;
    } else {
      KindsDistinct(0, m);
    }
  }

  /** Appending the log of block `j` to the log so far keeps it a prefix of the whole pass. */
  lemma PassAdvance(runs: seq<BlockRun>, j: nat, prefix: seq<PassEvent>, part: seq<PassEvent>)
    requires |runs| == |Order| && j < |Order|
    requires PassFrom(runs, 0) == PassRun(prefix + PassFrom(runs, j).log, PassFrom(runs, j).crashed)
    requires part == [Ran(Order[j], runs[j].trace)] + (if runs[j].escaped.Some? then [] else [Committed(Order[j])])
    ensures runs[j].escaped.Some? ==> PassFrom(runs, 0) == PassRun(prefix + part, Some(Order[j]))
    ensures runs[j].escaped.None? ==>
              PassFrom(runs, 0) == PassRun((prefix + part) + PassFrom(runs, j + 1).log, PassFrom(runs, j + 1).crashed)
  {
    if runs[j].escaped.None? {
      var rest := PassFrom(runs, j + 1);
      assert part == [Ran(Order[j], runs[j].trace), Committed(Order[j])];
      assert PassFrom(runs, j).log == part + rest.log;
      assert prefix + (part + rest.log) == (prefix + part) + rest.log;
    }
  }

  /**
   One pass of `process`: the five blocks in order, a commit after each, then
   the cooldown. An exception out of a block ends the pass there.
   */
  method Pass(query: Kind -> seq<Attempt>) returns (log: seq<PassEvent>, crashed: Option<Kind>)
    ensures PassRun(log, crashed) == PassFrom(BlockRuns(query), 0)
    ensures crashed.None? ==>
              Commits(log) == [Steam, Dota, LeagueOfLegends, Osu, Overwatch]
              && Pauses(log) == [Cooldown] && log[|log| - 1] == Paused(Cooldown)
    ensures crashed.Some? ==> Pauses(log) == [] && crashed.value !in Commits(log)
  {
    ghost var runs := BlockRuns(query);
    PassOutcome(runs);
    log, crashed := [], None;
    var k := 0;
    while k < |Schedule|
      invariant 0 <= k <= |Schedule| && crashed.None?
      invariant PassFrom(runs, 0) == PassRun(log + PassFrom(runs, k).log, PassFrom(runs, k).crashed)
    {
      var part;
      part, crashed := RunBlock(query, k);
      PassAdvance(runs, k, log, part);
      log := log + part;
      if crashed.Some? {
        return;
      }
      k := k + 1;
    }
    assert PassFrom(runs, |Order|) == PassRun([Paused(Cooldown)], None);
    log := log + [Paused(Cooldown)];
  }
}
