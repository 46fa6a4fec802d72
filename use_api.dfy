/** The generic request hook `useApi`: a `{data, loading, error}` record and a
    `request(...args)` that calls `args[0]` with the rest of the arguments,
    up to three attempts.

    What the called function answers is an oracle: a fixed script of
    outcomes, one per invocation, and a log of the argument lists it was
    invoked with. The 500 ms wait between attempts is a no-op. */
module UseApi {
  import opened Wrappers
  import opened Seqs
  import Json
  import Messages

  /** The hook's own `maxRetries`: attempts per request. */
  const MaxRetries: nat := 3

  /** The hook's state record. */
  datatype ApiState<T> = ApiState(data: Option<T>, loading: bool, error: Option<string>)

  /** One argument of `request`: a function value, or any other value. */
  datatype Arg = Callable | Plain(value: Json.Json)

  /** What one invocation of the api function does. */
  datatype Outcome<T> = Returned(value: T) | Threw

  function Initial<T>(): ApiState<T> {
    ApiState(None, false, None)
  }

  /** The updater at the start of every attempt. */
  function Loading<T>(s: ApiState<T>): (r: ApiState<T>)
    ensures r.loading && r.error == None && r.data == s.data
  {
    s.(loading := true, error := None)
  }

  /** The state after a successful invocation. */
  function Loaded<T>(v: T): ApiState<T> {
    ApiState(Some(v), false, None)
  }

  /** The state after the last failed attempt. */
  function Failed<T>(): ApiState<T> {
    ApiState(None, false, Some(Messages.LoadFailed))
  }

  /** `args[0]` is a function: otherwise `apiFunction(...)` throws a
      `TypeError` inside the `try`, and the attempt fails without a call. */
  predicate Invocable(args: seq<Arg>) {
    |args| > 0 && args[0].Callable?
  }

  /** `args.slice(1)`: the arguments passed on to the api function. */
  function ApiArgs(args: seq<Arg>): (r: seq<Arg>)
    ensures |args| > 0 ==> args == [args[0]] + r
  {
    if |args| == 0 then [] else args[1..]
  }

  /** The outcome of invocation number `i`; past the end of the script every
      invocation throws. */
  function OutcomeAt<T>(script: seq<Outcome<T>>, i: nat): Outcome<T> {
    if i < |script| then script[i] else Threw
  }

  /** The final state, what `request` returns, and how many attempts ran. */
  datatype RequestEffect<T> = RequestEffect(state: ApiState<T>, result: Option<T>, attempts: nat)

  /** The retry loop from attempt `r` on, when invocation `from + k` answers
      attempt `k` (if the first argument is a function at all). */
  function Tries<T>(invocable: bool, script: seq<Outcome<T>>, from: nat, r: nat): (e: RequestEffect<T>)
    requires r < MaxRetries
    decreases MaxRetries - r
    ensures r < e.attempts <= MaxRetries
  {
    var outcome := if invocable then OutcomeAt(script, from + r) else Threw;
    match outcome
    case Returned(v) => RequestEffect(Loaded(v), Some(v), r + 1)
    case Threw =>
      if r + 1 >= MaxRetries then RequestEffect(Failed(), None, r + 1)
      else Tries(invocable, script, from, r + 1)
  }

  /** The number of invocations `attempts` attempts make. */
  function Invocations(invocable: bool, attempts: nat): nat {
    if invocable then attempts else 0
  }

  // ---------------------------------------------------------------------
  // Properties of the specification

  /** The loop runs attempts until the first returned invocation, at most
      three: every attempt before the last threw, and the last decides. */
  lemma {:induction false} TriesOutcome<T>(invocable: bool, script: seq<Outcome<T>>, from: nat, r: nat)
    requires r < MaxRetries
    decreases MaxRetries - r
    ensures var e := Tries(invocable, script, from, r);
      && (invocable ==> forall i :: from + r <= i < from + e.attempts - 1 ==> OutcomeAt(script, i).Threw?)
      && (if invocable && OutcomeAt(script, from + (e.attempts - 1)).Returned?
          then e == RequestEffect(Loaded(OutcomeAt(script, from + (e.attempts - 1)).value),
                                  Some(OutcomeAt(script, from + (e.attempts - 1)).value), e.attempts)
          else e == RequestEffect(Failed(), None, MaxRetries))
  {
    var outcome := if invocable then OutcomeAt(script, from + r) else Threw;
    if outcome.Threw? && r + 1 < MaxRetries {
      TriesOutcome(invocable, script, from, r + 1);
    }
  }

  /** `request` returns null exactly when no invocation among the first
      three returned (in particular when `args[0]` is not a function), and
      then the state is the fixed failure record after three attempts. */
  lemma NullAfterThreeFailures<T>(invocable: bool, script: seq<Outcome<T>>, from: nat)
    ensures var e := Tries(invocable, script, from, 0);
      && (e.result.None? <==>
            !invocable || forall i :: from <= i < from + MaxRetries ==> OutcomeAt(script, i).Threw?)
      && (e.result.None? ==> e.attempts == MaxRetries && e.state == Failed())
  {
    TriesOutcome(invocable, script, from, 0);
    var e := Tries(invocable, script, from, 0);
    if invocable && forall i :: from <= i < from + MaxRetries ==> OutcomeAt(script, i).Threw? {
      assert OutcomeAt(script, from + (e.attempts - 1)).Threw?;
    }
  }

  /** The first returned invocation among the first three is the result,
      and it becomes `data` with the flags and the error cleared. */
  lemma FirstAnswerIsResult<T>(script: seq<Outcome<T>>, from: nat, k: nat)
    requires k < MaxRetries && OutcomeAt(script, from + k).Returned?
    requires forall i :: from <= i < from + k ==> OutcomeAt(script, i).Threw?
    ensures var e := Tries(true, script, from, 0);
      && e.attempts == k + 1
      && e.result == Some(OutcomeAt(script, from + k).value)
      && e.state == ApiState(e.result, false, None)
  {
    TriesOutcome(true, script, from, 0);
  }

  /** Once `request` has finished, nothing is loading, and there is an error
      exactly when there is no data. */
  lemma RequestSettles<T>(invocable: bool, script: seq<Outcome<T>>, from: nat)
    ensures var e := Tries(invocable, script, from, 0);
      && !e.state.loading
      && e.state.data == e.result
      && (e.state.error.Some? <==> e.result.None?)
      && Invocations(invocable, e.attempts) <= MaxRetries
  {
    TriesOutcome(invocable, script, from, 0);
  }

  // ---------------------------------------------------------------------
  // The hook

  class ApiHook<T> {
    /** The answers of the api functions passed to `request`, one per
        invocation. */
    const script: seq<Outcome<T>>
    /** The argument lists of every invocation so far. */
    var calls: seq<seq<Arg>>
    var state: ApiState<T>
    /** The state shown while each attempt was outstanding, one per attempt. */
    ghost var inFlight: seq<ApiState<T>>

    /** `useApi()`. */
    constructor (script: seq<Outcome<T>>)
      ensures this.script == script && calls == [] && inFlight == []
      ensures state == Initial()
    {
      this.script := script;
      calls := [];
      state := Initial();
      inFlight := [];
    }

    /** The request loop has ended with effect `e`, from the given earlier
        state, log and arguments. */
    ghost predicate Settled(e: RequestEffect<T>, s: ApiState<T>, called: seq<seq<Arg>>,
                            shown: seq<ApiState<T>>, args: seq<Arg>)
      reads this
    {
      && state == e.state
      && calls == called + Repeat(ApiArgs(args), Invocations(Invocable(args), e.attempts))
      && inFlight == shown + Repeat(Loading(s), e.attempts)
    }

    /** The loop of `request` before attempt `r`, on its way to effect `e`:
        attempts `0 .. r-1` all threw. */
    ghost predicate Retrying(e: RequestEffect<T>, s: ApiState<T>, called: seq<seq<Arg>>,
                             shown: seq<ApiState<T>>, args: seq<Arg>, r: nat)
      reads this
    {
      && r < MaxRetries
      && state == (if r == 0 then s else Loading(s))
      && calls == called + Repeat(ApiArgs(args), Invocations(Invocable(args), r))
      && inFlight == shown + Repeat(Loading(s), r)
      && Tries(Invocable(args), script, |called|, r) == e
    }

    /** `request(...args)`: the result, and the state, the invocation log and
        the in-flight log, are those of `Tries` from the state before. */
    method Request(args: seq<Arg>) returns (result: Option<T>)
      modifies this
      ensures var e := Tries(Invocable(args), script, |old(calls)|, 0);
        && result == e.result
        && Settled(e, old(state), old(calls), old(inFlight), args)
    {
      ghost var s0, called0, shown0 := state, calls, inFlight;
      ghost var e := Tries(Invocable(args), script, |called0|, 0);
      var retryCount := 0;
      while retryCount < MaxRetries
        invariant Retrying(e, s0, called0, shown0, args, retryCount)
      {
        var done;
        done, result := Attempt(args, retryCount, e, s0, called0, shown0);
        if done {
          return;
        }
        retryCount := retryCount + 1;
      }
      assert false;
    }

    /** One pass of the loop body: show the loading state, invoke `args[0]`
        with the rest of the arguments, and either settle (`done`) or count
        the failure and go round again. */
    method Attempt(args: seq<Arg>, retryCount: nat, ghost e: RequestEffect<T>, ghost s: ApiState<T>,
                   ghost called: seq<seq<Arg>>, ghost shown: seq<ApiState<T>>)
      returns (done: bool, result: Option<T>)
      requires Retrying(e, s, called, shown, args, retryCount)
      modifies this
      ensures done ==> result == e.result && Settled(e, s, called, shown, args)
      ensures !done ==> Retrying(e, s, called, shown, args, retryCount + 1)
    {
      ghost var flying := Loading(s);
      state := Loading(state);
      inFlight := inFlight + [state];
      assert Repeat(flying, retryCount) + [flying] == Repeat(flying, retryCount + 1);
      var outcome := Threw;
      if |args| > 0 && args[0].Callable? {
        outcome := Invoke(args[1..]);
        assert Repeat(ApiArgs(args), retryCount) + [args[1..]] == Repeat(ApiArgs(args), retryCount + 1);
      }
      match outcome {
        case Returned(response) =>
          state := Loaded(response);
          result := Some(response);
          done := true;
        case Threw =>
          var next := retryCount + 1;
          if next >= MaxRetries {
            state := Failed();
            result := None;
            done := true;
          } else {
            result := None;
            done := false;
          }
      }
    }

    /** One invocation of the api function. */
    method Invoke(apiArgs: seq<Arg>) returns (outcome: Outcome<T>)
      modifies this`calls
      ensures calls == old(calls) + [apiArgs]
      ensures outcome == OutcomeAt(script, |old(calls)|)
    {
      outcome := OutcomeAt(script, |calls|);
      calls := calls + [apiArgs];
    }

    /** `reset()`: the initial record. */
    method Reset()
      modifies this`state
      ensures state == Initial()
    {
      state := Initial();
    }

    /** `setData(data)`: only `data` changes. */
    method SetData(data: Option<T>)
      modifies this`state
      ensures state == old(state).(data := data)
    {
      state := state.(data := data);
    }
  }
}
