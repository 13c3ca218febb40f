/**
  The reconnect loops: Node's and Python's `connect` generators, which differ only in their numbers, and Go's
  `OnBenchmarkJob`. A generator runs without interruption between two suspensions (an await or the yield);
  `disconnect` may be called at any of them.
*/
module Reconnect {
  import opened Wrappers

  type Handle = nat

  function Pow2(k: nat): nat {
    if k == 0 then 1 else 2 * Pow2(k - 1)
  }

  function Min(a: nat, b: nat): nat {
    if a <= b then a else b
  }

  /** Delays in milliseconds. */
  datatype Config = Config(base: nat, cap: nat, maxAttempts: nat) {
    function Delay(attempt: nat): nat {
      Min(base * Pow2(attempt), cap)
    }

    /** All the delays before the given attempt. */
    function Total(attempt: nat): nat {
      if attempt == 0 then 0 else Total(attempt - 1) + Delay(attempt - 1)
    }
  }

  function Node(maxAttempts: nat): Config { Config(1000, 60000, maxAttempts) }

  const PYTHON := Config(1000, 30000, 10)

  datatype Ending = Disconnected | AuthFailed | GaveUp | Cancelled | Returned

  /** What happens once the `finally` block is done. */
  datatype After = Again | End(ending: Ending)

  datatype Suspension = Connecting | Fetching | AtYield | Sleeping | Closing(after: After) | Ended(ending: Ending)

  /** `errors` counts the errors caught, and `slept` adds up the delays, since the last successful connect. */
  datatype State = State(at: Suspension, attempt: nat, handle: Option<Handle>, stop: bool, connected: bool,
                         opens: seq<Handle>, closes: seq<Handle>, errors: nat, slept: nat)

  /** `connect` begins with both flags cleared. */
  const INITIAL := State(Connecting, 0, None, false, false, [], [], 0, 0)

  datatype Action =
    | ConnectOk(h: Handle) | ConnectFails(auth: bool)
    | GotEvent | GotNull | FetchFails(auth: bool)
    | Next | Return | Throw(auth: bool)
    | SleepDone | Cancel | CloseDone | Disconnect

  // The stretches between two suspensions.

  function Loop(s: State): State {
    if s.stop then s.(at := Ended(Disconnected)) else s.(at := Connecting)
  }

  function Proceed(s: State, a: After): State {
    if a.Again? then Loop(s) else s.(at := Ended(a.ending))
  }

  function Finally(s: State, a: After): State {
    if s.handle.Some?
    then s.(connected := false, at := Closing(a), closes := s.closes + [s.handle.value], handle := None)
    else Proceed(s.(connected := false), a)
  }

  function Inner(s: State): State {
    if s.stop then Finally(s, Again) else s.(at := Fetching)
  }

  function Caught(c: Config, s: State, auth: bool): State {
    if auth then Finally(s, End(AuthFailed))
    else if s.attempt >= c.maxAttempts then Finally(s.(errors := s.errors + 1), End(GaveUp))
    else s.(at := Sleeping, errors := s.errors + 1)
  }

  /** A failing event callback is a `FetchFails`; only Python's awaits can be cancelled, Node's never see `Cancel`. */
  function Step(c: Config, s: State, a: Action): Option<State> {
    match (a, s.at)
    case (ConnectOk(h), Connecting) =>
      Some(Inner(s.(handle := Some(h), opens := s.opens + [h], connected := true,
                    attempt := 0, errors := 0, slept := 0)))
    case (ConnectFails(auth), Connecting) => Some(Caught(c, s, auth))
    case (GotEvent, Fetching) => Some(s.(at := AtYield))
    case (GotNull, Fetching) => Some(Finally(s, Again))
    case (FetchFails(auth), Fetching) => Some(Caught(c, s, auth))
    case (Next, AtYield) => Some(Inner(s))
    case (Return, AtYield) => Some(Finally(s, End(Returned)))
    case (Throw(auth), AtYield) => Some(Caught(c, s, auth))
    case (SleepDone, Sleeping) =>
      Some(Finally(s.(attempt := s.attempt + 1, slept := s.slept + c.Delay(s.attempt)), Again))
    case (Cancel, Closing(_)) => Some(s.(at := Ended(Cancelled)))
    case (Cancel, Ended(_)) => None
    case (Cancel, _) => Some(Finally(s, End(Cancelled)))
    case (CloseDone, Closing(after)) => Some(Proceed(s, after))
    case (Disconnect, _) => Some(s.(stop := true, connected := false))
    case _ => None
  }

  function Run(c: Config, actions: seq<Action>): Option<State> {
    if actions == [] then Some(INITIAL)
    else match Run(c, actions[..|actions| - 1])
      case None => None
      case Some(s) => Step(c, s, actions[|actions| - 1])
  }

  // ---- The generator ----

  class Transport {
    const config: Config
    var at: Suspension
    var attempt: nat
    var handle: Option<Handle>
    var shouldDisconnect: bool
    var connected: bool
    ghost var opens: seq<Handle>
    ghost var closes: seq<Handle>
    ghost var errors: nat
    ghost var slept: nat

    ghost function View(): State
      reads this
    {
      State(at, attempt, handle, shouldDisconnect, connected, opens, closes, errors, slept)
    }

    constructor (c: Config)
      ensures View() == INITIAL && config == c
    {
      config := c;
      at, attempt, handle, shouldDisconnect, connected := Connecting, 0, None, false, false;
      opens, closes, errors, slept := [], [], 0, 0;
    }

    method DoDisconnect()
      modifies this
      ensures Some(View()) == Step(config, old(View()), Disconnect)
    {
      shouldDisconnect := true;
      connected := false;
    }

    /** The `finally` block up to the awaited close, and what follows if there is nothing to close. */
    method RunFinally(after: After)
      modifies this
      ensures View() == old(Finally(View(), after))
    {
      connected := false;
      if handle.Some? {
        closes := closes + [handle.value];
        handle, at := None, Closing(after);
      } else {
        RunAfter(after);
      }
    }

    method RunAfter(after: After)
      modifies this
      ensures View() == old(Proceed(View(), after))
    {
      match after {
        case Again => at := if !shouldDisconnect then Connecting else Ended(Disconnected);
        case End(how) => at := Ended(how);
      }
    }

    method RunInner()
      modifies this
      ensures View() == old(Inner(View()))
    {
      if !shouldDisconnect { at := Fetching; } else { RunFinally(Again); }
    }

    method RunCatch(auth: bool)
      modifies this
      ensures View() == old(Caught(config, View(), auth))
    {
      if auth { RunFinally(End(AuthFailed)); return; }
      errors := errors + 1;
      if attempt >= config.maxAttempts { RunFinally(End(GaveUp)); return; }
      at := Sleeping;
    }

    /** One continuation: whatever ends the current suspension, up to the next one. */
    method Continue(a: Action)
      requires Step(config, View(), a).Some? && !a.Disconnect?
      modifies this
      ensures Some(View()) == Step(config, old(View()), a)
    {
      match a {
        case ConnectOk(h) =>
          handle, connected, attempt := Some(h), true, 0;
          opens, errors, slept := opens + [h], 0, 0;
          RunInner();
        case ConnectFails(auth) => RunCatch(auth);
        case GotEvent => at := AtYield;
        case GotNull => RunFinally(Again);
        case FetchFails(auth) => RunCatch(auth);
        case Next => RunInner();
        case Return => RunFinally(End(Returned));
        case Throw(auth) => RunCatch(auth);
        case SleepDone =>
          slept := slept + config.Delay(attempt);
          attempt := attempt + 1;
          RunFinally(Again);
        case Cancel =>
          if at.Closing? { at := Ended(Cancelled); } else { RunFinally(End(Cancelled)); }
        case CloseDone => RunAfter(at.after);
      }
    }
  }

  // ---- What holds after every run ----

  ghost predicate Inv(c: Config, s: State) {
    && s.opens == s.closes + (if s.handle.Some? then [s.handle.value] else [])
    && (s.at.Closing? || s.at.Ended? || s.at.Connecting? ==> s.handle.None?)
    && (s.at.Fetching? || s.at.AtYield? ==> s.handle.Some?)
    && s.attempt <= c.maxAttempts && s.slept == c.Total(s.attempt)
    && (s.at.Connecting? || s.at.Fetching? || s.at.AtYield? ==> s.errors == s.attempt)
    && (s.at.Sleeping? ==> s.errors == s.attempt + 1 && s.attempt < c.maxAttempts)
    && (s.at.Closing? && s.at.after.Again? ==> s.errors == s.attempt)
    && (Over(s) == Some(GaveUp) ==> s.attempt == c.maxAttempts && s.errors == c.maxAttempts + 1)
    && (s.errors <= c.maxAttempts || Over(s) == Some(GaveUp) || Over(s) == Some(Cancelled))
    && (s.at == Ended(Disconnected) ==> s.stop) && s.at != Closing(End(Disconnected))
    && (s.connected <==> s.handle.Some? && !s.stop)
  }

  /** The ending a generator has come to, or is about to come to once its handle is closed. */
  function Over(s: State): Option<Ending> {
    if s.at.Ended? then Some(s.at.ending)
    else if s.at.Closing? && s.at.after.End? then Some(s.at.after.ending)
    else None
  }

  lemma FinallyKeeps(c: Config, s: State, a: After)
    requires s.opens == s.closes + (if s.handle.Some? then [s.handle.value] else [])
    requires s.attempt <= c.maxAttempts && s.slept == c.Total(s.attempt)
    requires a.Again? ==> s.errors == s.attempt
    requires a == End(GaveUp) ==> s.attempt == c.maxAttempts && s.errors == c.maxAttempts + 1
    requires s.errors <= c.maxAttempts || a == End(GaveUp) || a == End(Cancelled)
    requires a != End(Disconnected)
    ensures Inv(c, Finally(s, a))
  {
  }

  lemma StepKeeps(c: Config, s: State, a: Action)
    requires Inv(c, s) && Step(c, s, a).Some?
    ensures Inv(c, Step(c, s, a).value)
  {
    hide Config.Delay, Pow2;
    match (a, s.at)
    case (ConnectOk(h), Connecting) =>
      var t := s.(handle := Some(h), opens := s.opens + [h], connected := true, attempt := 0, errors := 0, slept := 0);
      FinallyKeeps(c, t, Again);
    case (ConnectFails(auth), Connecting) => CaughtKeeps(c, s, auth);
    case (GotNull, Fetching) => FinallyKeeps(c, s, Again);
    case (FetchFails(auth), Fetching) => CaughtKeeps(c, s, auth);
    case (Next, AtYield) => FinallyKeeps(c, s, Again);
    case (Return, AtYield) => FinallyKeeps(c, s, End(Returned));
    case (Throw(auth), AtYield) => CaughtKeeps(c, s, auth);
    case (SleepDone, Sleeping) =>
      FinallyKeeps(c, s.(attempt := s.attempt + 1, slept := s.slept + c.Delay(s.attempt)), Again);
    case (Cancel, Closing(_)) =>
    case (Cancel, _) => FinallyKeeps(c, s, End(Cancelled));
    case _ =>
  }

  lemma CaughtKeeps(c: Config, s: State, auth: bool)
    requires Inv(c, s) && (s.at.Connecting? || s.at.Fetching? || s.at.AtYield?)
    ensures Inv(c, Caught(c, s, auth))
  {
    if auth { FinallyKeeps(c, s, End(AuthFailed)); }
    else if s.attempt >= c.maxAttempts { FinallyKeeps(c, s.(errors := s.errors + 1), End(GaveUp)); }
  }

  lemma {:induction false} RunKeeps(c: Config, actions: seq<Action>)
    requires Run(c, actions).Some?
    ensures Inv(c, Run(c, actions).value)
  {
    if actions != [] {
      RunKeeps(c, actions[..|actions| - 1]);
      StepKeeps(c, Run(c, actions[..|actions| - 1]).value, actions[|actions| - 1]);
    }
  }

  /** The handles that connects have returned, in order. */
  function Opened(actions: seq<Action>): seq<Handle> {
    if actions == [] then []
    else
      var last := actions[|actions| - 1];
      Opened(actions[..|actions| - 1]) + if last.ConnectOk? then [last.h] else []
  }

  /** An error that is not about authentication, wherever it comes from. */
  predicate IsError(a: Action) {
    a == ConnectFails(false) || a == FetchFails(false) || a == Throw(false)
  }

  /** Errors since the last connect that succeeded. */
  function ErrorsInARow(actions: seq<Action>): nat {
    if actions == [] then 0
    else
      var last := actions[|actions| - 1];
      if last.ConnectOk? then 0 else ErrorsInARow(actions[..|actions| - 1]) + if IsError(last) then 1 else 0
  }

  lemma StepCounts(c: Config, s: State, a: Action)
    requires Step(c, s, a).Some?
    ensures var t := Step(c, s, a).value;
            && t.opens == s.opens + (if a.ConnectOk? then [a.h] else [])
            && t.errors == if a.ConnectOk? then 0 else s.errors + if IsError(a) then 1 else 0
  {
    hide Config.Delay;
    assert s.opens + [] == s.opens;
  }

  lemma {:induction false} OpensAreConnects(c: Config, actions: seq<Action>)
    requires Run(c, actions).Some?
    ensures Run(c, actions).value.opens == Opened(actions)
    ensures Run(c, actions).value.errors == ErrorsInARow(actions)
  {
    if actions != [] {
      var init, last := actions[..|actions| - 1], actions[|actions| - 1];
      OpensAreConnects(c, init);
      StepCounts(c, Run(c, init).value, last);
      hide Step;
    }
  }

  /**
    Where the generator goes as long as nobody disconnects: a session lasts until its stream ends or fails, an
    authentication failure ends it all, any other error is followed by a pause unless it is the (max+1)-th in a row,
    and behind every pause and every stream that ends comes the next connect.
  */
  lemma WhereItGoes(c: Config, actions: seq<Action>, a: Action)
    requires Run(c, actions).Some? && !Run(c, actions).value.stop && Step(c, Run(c, actions).value, a).Some?
    ensures var s, t := Run(c, actions).value, Step(c, Run(c, actions).value, a).value;
            && (a.ConnectOk? ==> t.at == Fetching && t.handle == Some(a.h) && t.attempt == 0)
            && (a == GotEvent ==> t.at == AtYield) && (a == Next ==> t.at == Fetching)
            && (a == ConnectFails(true) || a == FetchFails(true) || a == Throw(true) ==> Over(t) == Some(AuthFailed))
            && (a == ConnectFails(false) || a == FetchFails(false) || a == Throw(false) ==>
                  if ErrorsInARow(actions) < c.maxAttempts then t.at == Sleeping else Over(t) == Some(GaveUp))
            && (a == GotNull ==> t.at == Closing(Again))
            && (a == SleepDone ==> t.at == if s.handle.Some? then Closing(Again) else Connecting)
            && (a == CloseDone ==> t.at == if s.at == Closing(Again) then Connecting else Ended(s.at.after.ending))
            && (a == Return ==> Over(t) == Some(Returned)) && (a == Cancel ==> Over(t) == Some(Cancelled))
  {
    RunKeeps(c, actions);
    OpensAreConnects(c, actions);
    hide Run, Config.Delay, Config.Total;
  }

  /** What may end each suspension, and that `disconnect` may be called at any of them. */
  lemma EndsSuspension(c: Config, s: State, h: Handle, auth: bool)
    ensures Step(c, s, ConnectOk(h)).Some? <==> s.at == Connecting
    ensures Step(c, s, ConnectFails(auth)).Some? <==> s.at == Connecting
    ensures Step(c, s, GotEvent).Some? <==> s.at == Fetching
    ensures Step(c, s, GotNull).Some? <==> s.at == Fetching
    ensures Step(c, s, FetchFails(auth)).Some? <==> s.at == Fetching
    ensures Step(c, s, Next).Some? <==> s.at == AtYield
    ensures Step(c, s, Return).Some? <==> s.at == AtYield
    ensures Step(c, s, Throw(auth)).Some? <==> s.at == AtYield
    ensures Step(c, s, SleepDone).Some? <==> s.at == Sleeping
    ensures Step(c, s, CloseDone).Some? <==> s.at.Closing?
    ensures Step(c, s, Cancel).Some? <==> !s.at.Ended?
    ensures Step(c, s, Disconnect).Some?
  {
  }

  function Rank(at: Suspension): nat {
    match at
    case Connecting => 5
    case Fetching => 4
    case AtYield => 3
    case Sleeping => 2
    case Closing(_) => 1
    case Ended(_) => 0
  }

  /**
    After `disconnect` the flag stays up, nothing is connected or fetched any more, and every step brings the
    generator closer to its end; unless something else ends it first, that end is the disconnect.
  */
  lemma DisconnectEndsIt(c: Config, actions: seq<Action>, a: Action)
    requires Run(c, actions).Some? && Step(c, Run(c, actions).value, a).Some?
    ensures var s, t := Run(c, actions).value, Step(c, Run(c, actions).value, a).value;
            && (t.stop <==> s.stop || a == Disconnect)
            && (a == Disconnect ==> t.at == s.at && t.handle == s.handle && t.closes == s.closes && !t.connected)
            && (s.stop && a != Disconnect ==> Rank(t.at) < Rank(s.at) && !t.at.Connecting? && !t.at.Fetching?)
            && (s.stop && (a == SleepDone || a == CloseDone) && t.at.Ended? ==>
                  t.at.ending == if s.at.Closing? && s.at.after.End? then s.at.after.ending else Disconnected)
  {
    RunKeeps(c, actions);
    hide Run, Config.Delay, Config.Total;
  }

  /**
    At any moment, including a consumer that walks away at a yield and an await that is cancelled, at most one
    opened handle has not been closed, and it is the last one; when the generator has ended, every handle it
    opened has had exactly one close call, in order.
  */
  lemma HandlesAccounted(c: Config, actions: seq<Action>)
    requires Run(c, actions).Some?
    ensures var s := Run(c, actions).value;
            && s.closes <= s.opens && |s.opens| - |s.closes| <= 1
            && (s.at.Ended? || s.at.Connecting? ==> s.opens == s.closes)
            && (s.connected <==> s.opens != s.closes && !s.stop)
            && s.opens == Opened(actions)
  {
    RunKeeps(c, actions);
    OpensAreConnects(c, actions);
  }

  /**
    The loop gives up exactly when the (max+1)-th error in a row is caught, after having slept every one of the
    delays for 0, ..., max-1; until then every error but an authentication failure leads to another connect.
  */
  lemma GivesUpAfterAllAttempts(c: Config, actions: seq<Action>)
    requires Run(c, actions).Some?
    ensures var s := Run(c, actions).value;
            && s.attempt <= c.maxAttempts && s.slept == c.Total(s.attempt) && s.errors == ErrorsInARow(actions)
            && (Over(s) == Some(GaveUp) ==> s.errors == c.maxAttempts + 1 && s.slept == c.Total(c.maxAttempts))
            && (s.errors > c.maxAttempts ==> Over(s) == Some(GaveUp) || Over(s) == Some(Cancelled))
  {
    hide Run, Step, Config.Total, Config.Delay, Pow2;
    RunKeeps(c, actions);
    OpensAreConnects(c, actions);
  }

  /**
    During a backoff pause a session that failed keeps its handle: only a failed connect has none, and the handle
    is closed in `finally`, after the pause.
  */
  lemma PauseKeepsHandle(c: Config, actions: seq<Action>, a: Action)
    requires Run(c, actions).Some? && Step(c, Run(c, actions).value, a).Some?
    requires !Run(c, actions).value.at.Sleeping? && Step(c, Run(c, actions).value, a).value.at.Sleeping?
    ensures var t := Step(c, Run(c, actions).value, a).value;
            && (t.handle.Some? <==> !a.ConnectFails?)
            && (t.handle.Some? ==> t.opens == t.closes + [t.handle.value])
            && var after := Step(c, t, SleepDone).value;
               after.opens == after.closes && (after.at.Closing? <==> t.handle.Some?)
  {
    RunKeeps(c, actions);
    StepKeeps(c, Run(c, actions).value, a);
  }

  // ---- Go: doubling with a cap ----

  /** How a session ended; after an error the context may be cancelled during the wait. */
  datatype SessionEnd = WithError(cancelledInWait: bool) | Cleanly | ContextDone

  predicate Stops(e: SessionEnd) {
    e.ContextDone? || (e.WithError? && e.cancelledInWait)
  }

  /** How many sessions in a row, the last ones, ended with an error. */
  function Streak(ends: seq<SessionEnd>): nat {
    if ends == [] || !ends[|ends| - 1].WithError? then 0 else 1 + Streak(ends[..|ends| - 1])
  }

  /** Doubling k times from one second, cut at 60 each time. */
  function Doubled(k: nat): nat {
    if k == 0 then 1 else if 2 * Doubled(k - 1) > 60 then 60 else 2 * Doubled(k - 1)
  }

  lemma {:induction false} DoubledIsClosedForm(k: nat)
    ensures Doubled(k) == Min(Pow2(k), 60)
  {
    if k > 0 { DoubledIsClosedForm(k - 1); }
  }

  /** Go's iterated capped doubling, in seconds, and Node's closed form, in milliseconds, wait equally long. */
  lemma {:induction false} GoWaitsLikeNode(maxAttempts: nat, k: nat)
    ensures Doubled(k) * 1000 == Node(maxAttempts).Delay(k)
  {
    DoubledIsClosedForm(k);
  }

  /**
    `ends[i]` is how the i-th session ends; the method stops with the context or when the script does, and
    `waits[i]` is what follows that session, in seconds. A session that ends with an error is followed by a
    wait of min(2^k, 60), where k errors came right before it, which is what Node waits at that count; so the
    first error after a clean end is followed by one second.
  */
  method OnBenchmarkJob(ends: seq<SessionEnd>) returns (waits: seq<nat>)
    ensures |waits| <= |ends|
    ensures forall i | 0 <= i < |waits| - 1 :: !Stops(ends[i])
    ensures |waits| < |ends| ==> |waits| > 0 && Stops(ends[|waits| - 1])
    ensures forall i | 0 <= i < |waits| ::
              waits[i] == if ends[i].WithError? then Min(Pow2(Streak(ends[..i])), 60) else 0
    ensures forall i, maxAttempts | 0 <= i < |waits| && ends[i].WithError? ::
              waits[i] * 1000 == Node(maxAttempts).Delay(Streak(ends[..i]))
    ensures forall i | 0 < i < |waits| && ends[i - 1].Cleanly? && ends[i].WithError? :: waits[i] == 1
  {
    hide Streak, Pow2, Config.Delay;
    var reconnectDelay, maxDelay := 1, 60;
    assert Streak(ends[..0]) == 0 by { NoStreak(); }
    waits := [];
    var sessions := 0;
    while sessions < |ends|
      invariant sessions == |waits| <= |ends| && reconnectDelay == Doubled(Streak(ends[..sessions]))
      invariant forall i | 0 <= i < sessions :: !Stops(ends[i])
      invariant forall i | 0 <= i < sessions ::
                  waits[i] == if ends[i].WithError? then Doubled(Streak(ends[..i])) else 0
      decreases |ends| - sessions
    {
      var end := ends[sessions];
      sessions := sessions + 1;
      StreakSnoc(ends, sessions);
      waits := waits + [if end.WithError? then reconnectDelay else 0];
      if end.ContextDone? { break; }
      if end.WithError? {
        if end.cancelledInWait { break; }
        reconnectDelay := reconnectDelay * 2;
        if reconnectDelay > maxDelay { reconnectDelay := maxDelay; }
      } else {
        reconnectDelay := 1;
      }
    }
    hide Doubled;
    WaitsOf(ends, waits);
  }

  lemma WaitsOf(ends: seq<SessionEnd>, waits: seq<nat>)
    requires |waits| <= |ends|
    requires forall i | 0 <= i < |waits| :: waits[i] == if ends[i].WithError? then Doubled(Streak(ends[..i])) else 0
    ensures forall i | 0 <= i < |waits| ::
              waits[i] == if ends[i].WithError? then Min(Pow2(Streak(ends[..i])), 60) else 0
    ensures forall i, maxAttempts | 0 <= i < |waits| && ends[i].WithError? ::
              waits[i] * 1000 == Node(maxAttempts).Delay(Streak(ends[..i]))
    ensures forall i | 0 < i < |waits| && ends[i - 1].Cleanly? && ends[i].WithError? :: waits[i] == 1
  {
    hide Streak, Pow2, Config.Delay;
    forall i | 0 <= i < |waits| && ends[i].WithError? ensures waits[i] == Min(Pow2(Streak(ends[..i])), 60) {
      DoubledIsClosedForm(Streak(ends[..i]));
    }
    forall i, m | 0 <= i < |waits| && ends[i].WithError?
      ensures waits[i] * 1000 == Node(m).Delay(Streak(ends[..i]))
    {
      GoWaitsLikeNode(m, Streak(ends[..i]));
    }
    forall i | 0 < i < |waits| && ends[i - 1].Cleanly? && ends[i].WithError? ensures waits[i] == 1 {
      StreakSnoc(ends, i);
      assert Doubled(0) == 1;
    }
  }

  lemma NoStreak()
    ensures Streak([]) == 0
  {
  }

  lemma StreakSnoc(ends: seq<SessionEnd>, i: nat)
    requires 0 < i <= |ends|
    ensures Streak(ends[..i]) == if ends[i - 1].WithError? then 1 + Streak(ends[..i - 1]) else 0
  {
    assert ends[..i][..i - 1] == ends[..i - 1];
  }

  lemma {:induction false} Pow2Monotone(j: nat, k: nat)
    requires j <= k
    ensures Pow2(j) <= Pow2(k)
  {
    if j < k { Pow2Monotone(j, k - 1); }
  }

  /** The delays never shrink and never pass the cap. */
  lemma DelaysMonotone(c: Config, j: nat, k: nat)
    requires j <= k
    ensures c.Delay(j) <= c.Delay(k) <= c.cap
  {
    Pow2Monotone(j, k);
    ScaleMonotone(c.base, Pow2(j), Pow2(k));
  }

  lemma ScaleMonotone(b: nat, x: nat, y: nat)
    requires x <= y
    ensures b * x <= b * y
  {
  }

  /** What a full run of failures costs: with Python's numbers, 31 + 5 * 30 seconds. */
  lemma PythonGivesUpAfter(actions: seq<Action>)
    requires Run(PYTHON, actions).Some? && Over(Run(PYTHON, actions).value) == Some(GaveUp)
    ensures Run(PYTHON, actions).value.errors == 11 && Run(PYTHON, actions).value.slept == 181000
  {
    RunKeeps(PYTHON, actions);
    assert Pow2(5) == 32 && Pow2(4) == 16 && Pow2(3) == 8 && Pow2(2) == 4;
    Pow2Monotone(5, 6);
    Pow2Monotone(5, 7);
    Pow2Monotone(5, 8);
    Pow2Monotone(5, 9);
    assert PYTHON.Total(5) == 31000;
    assert PYTHON.Total(8) == 121000;
    assert PYTHON.Total(10) == 181000;
  }
}
