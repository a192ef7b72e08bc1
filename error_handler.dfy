/** The error handler of IgemArm_Optimized_v2.0/error_handler.py: a bounded error
    history, per-type statistics, and recovery strategies tried in the order they were
    registered. Timestamps, tracebacks, the free-form context dictionary, logging and
    the lock are not modelled. */
module ErrorHandling {
  import opened Wrappers

  /** `ErrorType`: the seven kinds of error the system reports. */
  datatype ErrorType =
    | CommunicationError
    | BoundaryError
    | CalibrationError
    | ImageProcessingError
    | RobotControlError
    | ConfigError
    | UnknownError

  /** `ErrorInfo`, reduced to the fields that decide behaviour. */
  datatype ErrorInfo = ErrorInfo(kind: ErrorType, message: string)

  /** What a user-registered strategy's `execute` does when called. */
  datatype Behaviour = ReturnsTrue | ReturnsFalse | Raises

  /** A recovery strategy object. `CommunicationRecovery` carries its mutable retry
      counter; a user-registered strategy is described by the error kinds its
      `can_handle` accepts and by what its `execute` does. */
  datatype Strategy =
    | CommunicationRecovery(maxRetries: int, retryCount: int)
    | BoundaryRecovery
    | CalibrationRecovery
    | Custom(handles: set<ErrorType>, behaviour: Behaviour)

  /** `can_handle` */
  predicate CanHandle(s: Strategy, e: ErrorInfo) {
    match s
    case CommunicationRecovery(_, _) => e.kind == CommunicationError
    case BoundaryRecovery => e.kind == BoundaryError
    case CalibrationRecovery => e.kind == CalibrationError
    case Custom(handles, _) => e.kind in handles
  }

  /** The outcome of `execute` as seen by the handler (a raise counts as a failure)
      and the strategy object afterwards. */
  datatype Attempt = Attempt(succeeded: bool, after: Strategy)

  /** `execute`. The communication strategy refuses once its counter has reached
      `max_retries` and otherwise counts one more retry and succeeds; the boundary and
      calibration strategies always succeed. */
  function Execute(s: Strategy, e: ErrorInfo): (a: Attempt)
    ensures !a.succeeded ==> a.after == s
    ensures s.CommunicationRecovery? ==>
      && a.after.CommunicationRecovery?
      && a.after.maxRetries == s.maxRetries
      && (a.succeeded <==> s.retryCount < s.maxRetries)
      && a.after.retryCount == (if a.succeeded then s.retryCount + 1 else s.retryCount)
    ensures s.BoundaryRecovery? || s.CalibrationRecovery? ==> a == Attempt(true, s)
  {
    match s
    case CommunicationRecovery(maxRetries, retryCount) =>
      if retryCount >= maxRetries then Attempt(false, s)
      else Attempt(true, CommunicationRecovery(maxRetries, retryCount + 1))
    case BoundaryRecovery => Attempt(true, s)
    case CalibrationRecovery => Attempt(true, s)
    case Custom(_, behaviour) => Attempt(behaviour == ReturnsTrue, s)
  }

  /** The retry counter of the communication strategy never passes `max_retries` and
      never goes down, however often it is executed. */
  lemma RetryCountBounded(s: Strategy, e: ErrorInfo)
    requires s.CommunicationRecovery? && 0 <= s.retryCount <= s.maxRetries
    ensures Execute(s, e).after.CommunicationRecovery?
    ensures s.retryCount <= Execute(s, e).after.retryCount <= s.maxRetries
    ensures Execute(s, e).after.retryCount == s.maxRetries ==>
      !Execute(Execute(s, e).after, e).succeeded
  {
  }

  /** Each built-in strategy handles exactly one kind of error. */
  lemma BuiltinStrategiesPartition(e: ErrorInfo, max: int, count: int)
    ensures CanHandle(CommunicationRecovery(max, count), e) <==> e.kind == CommunicationError
    ensures CanHandle(BoundaryRecovery, e) <==> e.kind == BoundaryError
    ensures CanHandle(CalibrationRecovery, e) <==> e.kind == CalibrationError
  {
  }

  predicate Recovers(s: Strategy, e: ErrorInfo) {
    CanHandle(s, e) && Execute(s, e).succeeded
  }

  /** The first strategy at or after `from` that can handle `e` and whose `execute`
      succeeds. */
  function FirstRecoverer(strategies: seq<Strategy>, e: ErrorInfo, from: nat): (r: Option<nat>)
    requires from <= |strategies|
    ensures r.Some? ==>
      && from <= r.value < |strategies|
      && Recovers(strategies[r.value], e)
      && forall j :: from <= j < r.value ==> !Recovers(strategies[j], e)
    ensures r.None? ==> forall j :: from <= j < |strategies| ==> !Recovers(strategies[j], e)
    decreases |strategies| - from
  {
    if from == |strategies| then None
    else if Recovers(strategies[from], e) then Some(from)
    else FirstRecoverer(strategies, e, from + 1)
  }

  /** The strategy list after a recovery attempt: only the strategy that recovered has
      run to success, so only it may have changed. */
  function AfterRecovery(strategies: seq<Strategy>, e: ErrorInfo): seq<Strategy> {
    match FirstRecoverer(strategies, e, 0)
    case None => strategies
    case Some(k) => strategies[k := Execute(strategies[k], e).after]
  }

  /** Recovery succeeds exactly when some registered strategy can handle the error and
      its `execute` succeeds. */
  lemma RecoverySucceedsIff(strategies: seq<Strategy>, e: ErrorInfo)
    ensures FirstRecoverer(strategies, e, 0).Some? <==>
      exists i :: 0 <= i < |strategies| && Recovers(strategies[i], e)
  {
    if FirstRecoverer(strategies, e, 0).Some? {
      var k := FirstRecoverer(strategies, e, 0).value;
      assert Recovers(strategies[k], e);
    }
  }

  /** Python's `len(xs)` bounds for the slice start `xs[start:]`. */
  function SliceStart(n: nat, start: int): (k: nat)
    ensures k <= n
    ensures start >= 0 ==> k == if start <= n then start else n
    ensures start < 0 ==> k == if n + start >= 0 then n + start else 0
  {
    if start >= 0 then (if start <= n then start else n)
    else if n + start >= 0 then n + start else 0
  }

  /** `_add_to_history`: append, then drop the oldest entry once the history is longer
      than its maximum size. */
  function Pushed(history: seq<ErrorInfo>, e: ErrorInfo, maxSize: nat): (h: seq<ErrorInfo>)
    requires maxSize > 0
    ensures |history| <= maxSize ==> |h| <= maxSize
    ensures |h| > 0 && h[|h| - 1] == e
    ensures h <= history + [e] || h == (history + [e])[1..]
    ensures |history| < maxSize ==> h == history + [e]
    ensures |history| >= maxSize ==> h == history[1..] + [e]
  {
    var appended := history + [e];
    if |appended| > maxSize then appended[1..] else appended
  }

  /** Several `handle_error` reports in order: each record pushed in turn. */
  function PushedAll(history: seq<ErrorInfo>, es: seq<ErrorInfo>, maxSize: nat): (h: seq<ErrorInfo>)
    requires maxSize > 0
    ensures |history| <= maxSize ==> |h| <= maxSize
    ensures es != [] ==> |h| > 0 && h[|h| - 1] == es[|es| - 1]
  {
    if es == [] then history
    else Pushed(PushedAll(history, es[..|es| - 1], maxSize), es[|es| - 1], maxSize)
  }

  /** The strategies after recovery has been attempted for several errors in order. */
  function RecoveredAll(strategies: seq<Strategy>, es: seq<ErrorInfo>): seq<Strategy> {
    if es == [] then strategies
    else AfterRecovery(RecoveredAll(strategies, es[..|es| - 1]), es[|es| - 1])
  }

  /** Reports made in two runs are the reports of the runs together. */
  lemma {:induction false} ReportsAppend(history: seq<ErrorInfo>, strategies: seq<Strategy>,
                                         a: seq<ErrorInfo>, b: seq<ErrorInfo>, maxSize: nat)
    requires maxSize > 0
    ensures PushedAll(PushedAll(history, a, maxSize), b, maxSize) == PushedAll(history, a + b, maxSize)
    ensures RecoveredAll(RecoveredAll(strategies, a), b) == RecoveredAll(strategies, a + b)
  {
    if b == [] {
      assert a + b == a;
    } else {
      var init := b[..|b| - 1];
      assert (a + b)[..|a + b| - 1] == a + init && (a + b)[|a + b| - 1] == b[|b| - 1];
      ReportsAppend(history, strategies, a, init, maxSize);
    }
  }

  /** Number of records of one kind. */
  function Count(history: seq<ErrorInfo>, kind: ErrorType): nat {
    if history == [] then 0
    else Count(history[..|history| - 1], kind) + (if history[|history| - 1].kind == kind then 1 else 0)
  }

  /** The per-type counts add up to the length of the history. */
  lemma {:induction false} CountsSumToLength(history: seq<ErrorInfo>)
    ensures Count(history, CommunicationError) + Count(history, BoundaryError)
      + Count(history, CalibrationError) + Count(history, ImageProcessingError)
      + Count(history, RobotControlError) + Count(history, ConfigError)
      + Count(history, UnknownError) == |history|
  {
    if history != [] {
      CountsSumToLength(history[..|history| - 1]);
    }
  }

  /** What a decorated call did: returned a value or raised with a message. */
  datatype CallOutcome<T> = Returned(value: T) | Raised(message: string)

  class ErrorHandler {
    var strategies: seq<Strategy>
    var history: seq<ErrorInfo>
    const maxHistorySize: nat

    ghost predicate Valid()
      reads this
    {
      maxHistorySize == 100 && |history| <= maxHistorySize
    }

    /** `ErrorHandler.__init__`: empty history of at most 100 records and the three
        built-in strategies, communication first. */
    constructor ()
      ensures Valid()
      ensures history == []
      ensures strategies == [CommunicationRecovery(3, 0), BoundaryRecovery, CalibrationRecovery]
    {
      maxHistorySize := 100;
      history := [];
      strategies := [CommunicationRecovery(3, 0), BoundaryRecovery, CalibrationRecovery];
    }

    /** `register_recovery_strategy`: the new strategy is tried after all earlier ones. */
    method RegisterRecoveryStrategy(s: Strategy)
      modifies this
      ensures strategies == old(strategies) + [s]
      ensures history == old(history)
    {
      strategies := strategies + [s];
    }

    /** `_add_to_history` */
    method AddToHistory(e: ErrorInfo)
      requires Valid()
      modifies this
      ensures Valid()
      ensures history == Pushed(old(history), e, maxHistorySize)
      ensures strategies == old(strategies)
    {
      history := history + [e];
      if |history| > maxHistorySize {
        history := history[1..];
      }
    }

    /** `_attempt_recovery`: the strategies in registration order; the first that can
        handle the error and succeeds ends the search. */
    method AttemptRecovery(e: ErrorInfo) returns (recovered: bool)
      modifies this
      ensures recovered == FirstRecoverer(old(strategies), e, 0).Some?
      ensures strategies == AfterRecovery(old(strategies), e)
      ensures history == old(history)
    {
      var i := 0;
      while i < |strategies|
        invariant 0 <= i <= |strategies|
        invariant strategies == old(strategies) && history == old(history)
        invariant FirstRecoverer(strategies, e, 0) == FirstRecoverer(strategies, e, i)
      {
        var s := strategies[i];
        if CanHandle(s, e) {
          var attempt := Execute(s, e);
          strategies := strategies[i := attempt.after];
          if attempt.succeeded {
            return true;
          }
        }
        i := i + 1;
      }
      return false;
    }

    /** `handle_error`: exactly one record is added to the history before recovery
        is attempted. */
    method HandleError(kind: ErrorType, message: string) returns (recovered: bool)
      requires Valid()
      modifies this
      ensures Valid()
      ensures history == Pushed(old(history), ErrorInfo(kind, message), maxHistorySize)
      ensures recovered == FirstRecoverer(old(strategies), ErrorInfo(kind, message), 0).Some?
      ensures strategies == AfterRecovery(old(strategies), ErrorInfo(kind, message))
    {
      var e := ErrorInfo(kind, message);
      AddToHistory(e);
      recovered := AttemptRecovery(e);
    }

    /** `get_error_history(limit)`, Python slice `history[-limit:]`: the last `limit`
        records for a positive limit, the whole history for 0 (since `-0 == 0`), and
        the history without its first `-limit` records for a negative limit. */
    function GetErrorHistory(limit: int): (r: seq<ErrorInfo>)
      reads this
      ensures |r| <= |history| && r == history[|history| - |r|..]
      ensures limit > 0 ==> |r| == if limit <= |history| then limit else |history|
      ensures limit == 0 ==> r == history
      ensures limit < 0 ==> |r| == if -limit <= |history| then |history| + limit else 0
    {
      history[SliceStart(|history|, -limit)..]
    }

    /** `clear_error_history` */
    method ClearErrorHistory()
      modifies this
      ensures history == [] && strategies == old(strategies)
    {
      history := [];
    }

    /** `get_error_statistics`: one entry per kind that occurs, holding its count. */
    method GetErrorStatistics() returns (stats: map<ErrorType, nat>)
      ensures forall k :: k in stats <==> Count(history, k) > 0
      ensures forall k :: k in stats ==> stats[k] == Count(history, k)
    {
      stats := map[];
      var i := 0;
      while i < |history|
        invariant 0 <= i <= |history|
        invariant forall k :: k in stats <==> Count(history[..i], k) > 0
        invariant forall k :: k in stats ==> stats[k] == Count(history[..i], k)
      {
        assert history[..i + 1][..i] == history[..i];
        var kind := history[i].kind;
        var before := if kind in stats then stats[kind] else 0;
        stats := stats[kind := before + 1];
        i := i + 1;
      }
      assert history[..i] == history;
    }

    /** `error_handler_decorator(kind, reraise=...)` applied to a call with the given
        outcome: a returned value passes through untouched; a raise is reported and
        swallowed (the wrapper returns None), unless `reraise` is set and recovery
        failed, in which case it propagates. */
    method Decorated<T>(call: CallOutcome<T>, kind: ErrorType, reraise: bool)
      returns (r: Result<Option<T>, string>)
      requires Valid()
      modifies this
      ensures Valid()
      ensures call.Returned? ==>
        r == Ok(Some(call.value)) && history == old(history) && strategies == old(strategies)
      ensures call.Raised? ==>
        && history == Pushed(old(history), ErrorInfo(kind, call.message), maxHistorySize)
        && strategies == AfterRecovery(old(strategies), ErrorInfo(kind, call.message))
        && var recovered := FirstRecoverer(old(strategies), ErrorInfo(kind, call.message), 0).Some?;
           r == (if reraise && !recovered then Err(call.message) else Ok(None))
    {
      match call
      case Returned(v) =>
        r := Ok(Some(v));
      case Raised(message) =>
        var recovered := HandleError(kind, message);
        if reraise && !recovered {
          r := Err(message);
        } else {
          r := Ok(None);
        }
    }
  }
}
