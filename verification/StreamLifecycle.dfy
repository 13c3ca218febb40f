/**
  The Go stream lifecycle: one reader goroutine, a consumer, a context and any number of `close` calls.

  Each action is one atomic step of one goroutine (or of the world outside), and a run is any sequence of
  actions: every interleaving is covered. The counters and sequences at the end of `State` only record
  what happened.
*/
module StreamLifecycle {
  import opened Wrappers

  const CAPACITY := 16

  type Event = string
  type Closer = nat

  datatype Who = Reader | Caller(c: Closer)

  /** sync.Once: a second caller of `Do` waits until the first call has finished. */
  datatype Once = Fresh | Running(owner: Who) | Finished

  datatype ReaderPc =
    | AtCheck               // select on ctx.Done() at the top of the loop
    | AtCall                // about to call nextEvent
    | InCall                // nextEvent is running
    | AtSend(event: Event)  // select on events, ctx.Done(), default
    | AtOnce                // deferred: closeOnce.Do
    | InOnce                // deferred: closeHandle is running
    | AtDone                // deferred: close(done)
    | AtEvents              // deferred: close(events)
    | Ended

  datatype CloserPc = AtCancel | AtCloserOnce | InCloserOnce | AtWait | Returned

  datatype State = State(
    reader: ReaderPc, closers: map<Closer, CloserPc>, once: Once, cancelled: bool,
    buffer: seq<Event>, done: bool, eventsClosed: bool,
    closes: nat, lateCalls: nat, raws: nat, malformed: nat,
    received: seq<Event>, consumed: seq<Event>, dropped: nat, abandoned: nat)

  const INITIAL := State(AtCheck, map[], Fresh, false, [], false, false, 0, 0, 0, 0, [], [], 0, 0)

  datatype NextResult = Failure | EndOfStream | Malformed | Decoded(event: Event)

  datatype Action =
    | Check | BeginCall | EndCall(result: NextResult) | Send | Abandon | Drop
    | EnterOnce(who: Who) | LeaveOnce(who: Who) | PassOnce(who: Who)
    | CloseDone | CloseEvents
    | CallClose(c: Closer) | Cancel(c: Closer) | SeeDone(c: Closer)
    | ParentCancels | Consume

  predicate AtOnceGate(s: State, who: Who) {
    match who
    case Reader => s.reader == AtOnce
    case Caller(c) => c in s.closers && s.closers[c] == AtCloserOnce
  }

  function Move(s: State, who: Who, reader: ReaderPc, closer: CloserPc): State {
    match who
    case Reader => s.(reader := reader)
    case Caller(c) => s.(closers := s.closers[c := closer])
  }

  /** What the action does, or None where it is not enabled. */
  function Step(s: State, a: Action): Option<State> {
    match a
    case Check => if s.reader != AtCheck then None else Some(s.(reader := if s.cancelled then AtOnce else AtCall))
    case BeginCall =>
      if s.reader != AtCall then None
      else Some(s.(reader := InCall, lateCalls := s.lateCalls + if s.cancelled then 1 else 0))
    case EndCall(r) =>
      if s.reader != InCall then None
      else (match r
        case Failure => Some(s.(reader := AtOnce))
        case EndOfStream => Some(s.(reader := AtOnce))
        case Malformed => Some(s.(reader := AtCheck, raws := s.raws + 1, malformed := s.malformed + 1))
        case Decoded(e) => Some(s.(reader := AtSend(e), raws := s.raws + 1, received := s.received + [e])))
    case Send =>
      if !s.reader.AtSend? || |s.buffer| >= CAPACITY then None
      else Some(s.(reader := AtCheck, buffer := s.buffer + [s.reader.event]))
    case Abandon =>
      if !s.reader.AtSend? || !s.cancelled then None
      else Some(s.(reader := AtOnce, abandoned := s.abandoned + 1))
    case Drop =>
      if !s.reader.AtSend? || |s.buffer| < CAPACITY || s.cancelled then None
      else Some(s.(reader := AtCheck, dropped := s.dropped + 1))
    case EnterOnce(who) =>
      if !AtOnceGate(s, who) || s.once != Fresh then None
      else Some(Move(s, who, InOnce, InCloserOnce).(once := Running(who)))
    case LeaveOnce(who) =>
      if s.once != Running(who) then None
      else Some(Move(s, who, AtDone, AtWait).(once := Finished, closes := s.closes + 1))
    case PassOnce(who) =>
      if !AtOnceGate(s, who) || s.once != Finished then None
      else Some(Move(s, who, AtDone, AtWait))
    case CloseDone => if s.reader != AtDone then None else Some(s.(reader := AtEvents, done := true))
    case CloseEvents => if s.reader != AtEvents then None else Some(s.(reader := Ended, eventsClosed := true))
    case CallClose(c) => if c in s.closers then None else Some(s.(closers := s.closers[c := AtCancel]))
    case Cancel(c) =>
      if c !in s.closers || s.closers[c] != AtCancel then None
      else Some(s.(closers := s.closers[c := AtCloserOnce], cancelled := true))
    case SeeDone(c) =>
      if c !in s.closers || s.closers[c] != AtWait || !s.done then None
      else Some(s.(closers := s.closers[c := Returned]))
    case ParentCancels => Some(s.(cancelled := true))
    case Consume =>
      if s.buffer == [] then None else Some(s.(consumed := s.consumed + [s.buffer[0]], buffer := s.buffer[1..]))
  }

  function Run(actions: seq<Action>): Option<State> {
    if actions == [] then Some(INITIAL)
    else match Run(actions[..|actions| - 1])
      case None => None
      case Some(s) => Step(s, actions[|actions| - 1])
  }

  // ---- Subsequences ----

  predicate Subsequence(a: seq<Event>, b: seq<Event>) {
    if a == [] then true
    else if b == [] then false
    else
      || Subsequence(a, b[..|b| - 1])
      || (a[|a| - 1] == b[|b| - 1] && Subsequence(a[..|a| - 1], b[..|b| - 1]))
  }

  lemma SubsequenceSkip(a: seq<Event>, b: seq<Event>, e: Event)
    requires Subsequence(a, b)
    ensures Subsequence(a, b + [e])
  {
    assert (b + [e])[..|b|] == b;
  }

  lemma SubsequenceTake(a: seq<Event>, b: seq<Event>, e: Event)
    requires Subsequence(a, b)
    ensures Subsequence(a + [e], b + [e])
  {
    assert (a + [e])[..|a|] == a && (b + [e])[..|b|] == b;
  }

  // ---- The invariant ----

  predicate ReaderLeft(s: State) {
    s.reader.AtOnce? || s.reader.InOnce? || PastOnce(s.reader)
  }

  predicate PastOnce(pc: ReaderPc) {
    pc.AtDone? || pc.AtEvents? || pc.Ended?
  }

  /** Who is inside or behind the once gate, and what has been closed. */
  ghost predicate GateOk(s: State) {
    && s.closes == (if s.once == Finished then 1 else 0)
    && (s.reader == InOnce <==> s.once == Running(Reader))
    && (forall c <- s.closers :: s.closers[c] == InCloserOnce <==> s.once == Running(Caller(c)))
    && (s.once.Running? && s.once.owner.Caller? ==> s.once.owner.c in s.closers)
    && (PastOnce(s.reader) ==> s.once == Finished)
    && (forall c <- s.closers :: s.closers[c].AtWait? || s.closers[c].Returned? ==> s.once == Finished)
    && (s.done <==> s.reader.AtEvents? || s.reader.Ended?) && (s.eventsClosed <==> s.reader == Ended)
    && (forall c <- s.closers :: s.closers[c] == Returned ==> s.done)
    && (forall c <- s.closers :: s.closers[c] != AtCancel ==> s.cancelled)
  }

  ghost predicate CallsOk(s: State) {
    && s.lateCalls <= 1 && (s.lateCalls == 1 ==> s.cancelled && s.reader != AtCall)
    && (s.abandoned > 0 ==> s.cancelled && ReaderLeft(s))
  }

  function InFlight(s: State): nat {
    if s.reader.AtSend? then 1 else 0
  }

  ghost predicate EventsOk(s: State) {
    && |s.buffer| <= CAPACITY
    && s.raws == |s.received| + s.malformed
    && |s.received| == |s.consumed| + |s.buffer| + s.dropped + s.abandoned + InFlight(s)
    && s.abandoned + InFlight(s) <= 1
    && (if s.reader.AtSend?
        then s.received != [] && s.received[|s.received| - 1] == s.reader.event
             && Subsequence(s.consumed + s.buffer, s.received[..|s.received| - 1])
        else Subsequence(s.consumed + s.buffer, s.received))
  }

  ghost predicate Inv(s: State) {
    GateOk(s) && CallsOk(s) && EventsOk(s)
  }

  /** Steps away from the gate and the two channels. */
  lemma GateUntouched(s: State, t: State)
    requires GateOk(s) && t.once == s.once && t.closes == s.closes && t.closers == s.closers
    requires t.done == s.done && t.eventsClosed == s.eventsClosed && (s.cancelled ==> t.cancelled)
    requires t.reader == s.reader || !(s.reader.InOnce? || PastOnce(s.reader) || t.reader.InOnce? || PastOnce(t.reader))
    ensures GateOk(t)
  {
  }

  lemma ReaderGateKept(s: State, a: Action)
    requires GateOk(s) && Step(s, a).Some?
    requires || a == EnterOnce(Reader) || a == LeaveOnce(Reader) || a == PassOnce(Reader)
             || a == CloseDone || a == CloseEvents
    ensures GateOk(Step(s, a).value)
  {
  }

  lemma CloserGateKept(s: State, a: Action, c: Closer)
    requires GateOk(s) && Step(s, a).Some?
    requires a == EnterOnce(Caller(c)) || a == LeaveOnce(Caller(c)) || a == PassOnce(Caller(c))
    ensures GateOk(Step(s, a).value)
  {
  }

  lemma CloserKept(s: State, a: Action, c: Closer)
    requires GateOk(s) && Step(s, a).Some?
    requires a == CallClose(c) || a == Cancel(c) || a == SeeDone(c)
    ensures GateOk(Step(s, a).value)
  {
  }

  lemma GateKept(s: State, a: Action)
    requires GateOk(s) && Step(s, a).Some?
    ensures GateOk(Step(s, a).value)
  {
    match a
    case EnterOnce(who) => if who.Reader? { ReaderGateKept(s, a); } else { CloserGateKept(s, a, who.c); }
    case LeaveOnce(who) => if who.Reader? { ReaderGateKept(s, a); } else { CloserGateKept(s, a, who.c); }
    case PassOnce(who) => if who.Reader? { ReaderGateKept(s, a); } else { CloserGateKept(s, a, who.c); }
    case CloseDone => ReaderGateKept(s, a);
    case CloseEvents => ReaderGateKept(s, a);
    case CallClose(c) => CloserKept(s, a, c);
    case Cancel(c) => CloserKept(s, a, c);
    case SeeDone(c) => CloserKept(s, a, c);
    case _ => GateUntouched(s, Step(s, a).value);
  }

  lemma CallsKept(s: State, a: Action)
    requires Inv(s) && Step(s, a).Some?
    ensures CallsOk(Step(s, a).value)
  {
  }

  /** The event the reader holds leaves the received ones before it unchanged. */
  lemma SendKept(s: State, a: Action)
    requires EventsOk(s) && Step(s, a).Some? && (a == Send || a == Abandon || a == Drop)
    ensures EventsOk(Step(s, a).value)
  {
    hide Subsequence;
    var t := Step(s, a).value;
    var init := s.received[..|s.received| - 1];
    assert s.received == init + [s.reader.event];
    if a == Send {
      SubsequenceTake(s.consumed + s.buffer, init, s.reader.event);
      assert t.consumed + t.buffer == s.consumed + s.buffer + [s.reader.event];
    } else {
      SubsequenceSkip(s.consumed + s.buffer, init, s.reader.event);
    }
  }

  lemma ReceiveKept(s: State, r: NextResult)
    requires EventsOk(s) && Step(s, EndCall(r)).Some?
    requires s.abandoned == 0
    ensures EventsOk(Step(s, EndCall(r)).value)
  {
    if r.Decoded? {
      assert (s.received + [r.event])[..|s.received|] == s.received;
    }
  }

  lemma ConsumeKept(s: State)
    requires EventsOk(s) && Step(s, Consume).Some?
    ensures EventsOk(Step(s, Consume).value)
  {
    hide Subsequence;
    var t := Step(s, Consume).value;
    assert t.consumed + t.buffer == s.consumed + s.buffer;
  }

  /** Steps that touch no event. */
  lemma EventsUntouched(s: State, a: Action)
    requires EventsOk(s) && Step(s, a).Some? && (s.once == Running(Reader) ==> s.reader == InOnce)
    requires !a.EndCall? && a != Send && a != Abandon && a != Drop && a != Consume
    ensures EventsOk(Step(s, a).value)
  {
    hide Subsequence;
  }

  lemma EventsKept(s: State, a: Action)
    requires Inv(s) && Step(s, a).Some?
    ensures EventsOk(Step(s, a).value)
  {
    assert s.once == Running(Reader) ==> s.reader == InOnce;
    assert s.reader == InCall ==> s.abandoned == 0;
    if a == Send || a == Abandon || a == Drop { SendKept(s, a); }
    else if a == Consume { ConsumeKept(s); }
    else if a.EndCall? { ReceiveKept(s, a.result); }
    else { EventsUntouched(s, a); }
  }

  lemma {:induction false} RunKeeps(actions: seq<Action>)
    requires Run(actions).Some?
    ensures Inv(Run(actions).value)
  {
    if actions != [] {
      var init, last := actions[..|actions| - 1], actions[|actions| - 1];
      RunKeeps(init);
      GateKept(Run(init).value, last);
      CallsKept(Run(init).value, last);
      EventsKept(Run(init).value, last);
    }
  }

  // ---- What holds after every run ----

  /**
    `closeHandle` runs at most once, and it has run by the time `done` closes; `events` is closed only behind
    the last send and `done` before it, so no goroutine can send on or close a closed channel; and a `close`
    that has returned has seen `done`.
  */
  lemma HandleClosedOnce(actions: seq<Action>)
    requires Run(actions).Some?
    ensures var s := Run(actions).value;
            && s.closes <= 1 && (s.done ==> s.closes == 1)
            && (s.reader.AtSend? ==> !s.eventsClosed && !s.done)
            && (s.reader == AtDone ==> !s.done) && (s.reader == AtEvents ==> !s.eventsClosed)
            && (forall c <- s.closers :: s.closers[c] == Returned ==> s.done && s.closes == 1)
            && (forall c <- s.closers :: s.closers[c] != AtCancel ==> s.cancelled)
            && (s.eventsClosed ==> s.done)
  {
    RunKeeps(actions);
  }

  /** Whenever the context is cancelled, the reader begins at most one more `nextEvent`. */
  lemma AtMostOneLateCall(actions: seq<Action>)
    requires Run(actions).Some?
    ensures Run(actions).value.lateCalls <= 1
  {
    RunKeeps(actions);
  }

  /** Nothing is invented, duplicated or reordered, and everything that came in is accounted for. */
  lemma EventsConserved(actions: seq<Action>)
    requires Run(actions).Some?
    ensures var s := Run(actions).value;
            && |s.buffer| <= 16 && Subsequence(s.consumed + s.buffer, s.received)
            && s.raws == |s.consumed| + |s.buffer| + s.dropped + s.malformed + s.abandoned + InFlight(s)
            && s.abandoned + InFlight(s) <= 1 && (s.abandoned > 0 ==> s.cancelled)
  {
    hide Run, Step, GateOk, Subsequence;
    RunKeeps(actions);
    var s := Run(actions).value;
    if s.reader.AtSend? {
      SubsequenceSkip(s.consumed + s.buffer, s.received[..|s.received| - 1], s.reader.event);
      assert s.received == s.received[..|s.received| - 1] + [s.reader.event];
    }
  }

  /** What the others may do at any time, and where each `close` stands after each of its steps. */
  lemma OthersGoOn(s: State, c: Closer)
    ensures Step(s, CallClose(c)) == (if c in s.closers then None else Some(s.(closers := s.closers[c := AtCancel])))
    ensures c in s.closers && s.closers[c] == AtCancel ==>
              && Step(s, Cancel(c)).Some? && Step(s, Cancel(c)).value.cancelled
              && Step(s, Cancel(c)).value.closers == s.closers[c := AtCloserOnce]
    ensures c in s.closers && s.closers[c] == AtCloserOnce && s.once == Fresh ==>
              Step(s, EnterOnce(Caller(c))).Some? && Step(s, EnterOnce(Caller(c))).value.once == Running(Caller(c))
    ensures c in s.closers && s.closers[c] == AtCloserOnce && s.once == Finished ==>
              Step(s, PassOnce(Caller(c))) == Some(s.(closers := s.closers[c := AtWait]))
    ensures c in s.closers && s.closers[c] == AtWait ==>
              Step(s, SeeDone(c)) == if s.done then Some(s.(closers := s.closers[c := Returned])) else None
    ensures Step(s, ParentCancels) == Some(s.(cancelled := true))
    ensures s.buffer != [] ==> Step(s, Consume).Some? && Step(s, Consume).value.consumed == s.consumed + [s.buffer[0]]
  {
  }

  function DecodedEvents(actions: seq<Action>): seq<Event> {
    if actions == [] then []
    else
      var last := actions[|actions| - 1];
      DecodedEvents(actions[..|actions| - 1])
      + if last.EndCall? && last.result.Decoded? then [last.result.event] else []
  }

  function MalformedReplies(actions: seq<Action>): nat {
    if actions == [] then 0
    else
      var last := actions[|actions| - 1];
      MalformedReplies(actions[..|actions| - 1]) + if last.EndCall? && last.result.Malformed? then 1 else 0
  }

  /** Received is what the foreign calls returned and the decoder accepted, in order; malformed what it refused. */
  lemma {:induction false} ReceivedIsDecoded(actions: seq<Action>)
    requires Run(actions).Some?
    ensures Run(actions).value.received == DecodedEvents(actions)
    ensures Run(actions).value.malformed == MalformedReplies(actions)
  {
    if actions != [] {
      var init, last := actions[..|actions| - 1], actions[|actions| - 1];
      ReceivedIsDecoded(init);
      StepReceives(Run(init).value, last);
      hide Step;
    }
  }

  lemma StepReceives(s: State, a: Action)
    requires Step(s, a).Some?
    ensures var t, decoded := Step(s, a).value, a.EndCall? && a.result.Decoded?;
            && t.received == s.received + (if decoded then [a.result.event] else [])
            && t.malformed == s.malformed + if a.EndCall? && a.result.Malformed? then 1 else 0
  {
    assert s.received + [] == s.received;
  }

  /**
    An event is dropped only if 16 are waiting. With room in the channel and no cancellation, the only step of the
    reader that holds an event is to put it behind those that wait.
  */
  lemma DroppedOnlyWhenFull(actions: seq<Action>, a: Action)
    requires Run(actions).Some? && Step(Run(actions).value, a).Some?
    ensures var s, t := Run(actions).value, Step(Run(actions).value, a).value;
            && (t.dropped > s.dropped ==> |s.buffer| == 16 && !s.cancelled && s.reader.AtSend?)
            && (t.abandoned > s.abandoned ==> s.cancelled)
            && (s.reader.AtSend? && |s.buffer| < 16 && !s.cancelled ==>
                  t.reader == s.reader || (t.reader == AtCheck && t.buffer == s.buffer + [s.reader.event]))
            && (a.Consume? ==> t.consumed + t.buffer == s.consumed + s.buffer && |t.consumed| == |s.consumed| + 1)
  {
    RunKeeps(actions);
    assert GateOk(Run(actions).value);
    hide Run, GateOk, EventsOk, CallsOk;
    StepDrops(Run(actions).value, a);
  }

  lemma StepDrops(s: State, a: Action)
    requires Step(s, a).Some? && |s.buffer| <= 16 && (s.reader.AtSend? ==> s.once != Running(Reader))
    ensures var t := Step(s, a).value;
            && (t.dropped > s.dropped ==> |s.buffer| == 16 && !s.cancelled && s.reader.AtSend?)
            && (t.abandoned > s.abandoned ==> s.cancelled)
            && (s.reader.AtSend? && |s.buffer| < 16 && !s.cancelled ==>
                  t.reader == s.reader || (t.reader == AtCheck && t.buffer == s.buffer + [s.reader.event]))
            && (a.Consume? ==> t.consumed + t.buffer == s.consumed + s.buffer && |t.consumed| == |s.consumed| + 1)
  {
    if a.Consume? { assert s.buffer == [s.buffer[0]] + s.buffer[1..]; }
  }

  /** The reader is never stuck: whatever it holds, and however a call comes back, it has a next step. */
  lemma ReaderGoesOn(actions: seq<Action>)
    requires Run(actions).Some?
    ensures var s := Run(actions).value;
            && (s.reader == AtCheck ==> Step(s, Check).Some?) && (s.reader == AtCall ==> Step(s, BeginCall).Some?)
            && (s.reader == InCall ==> forall r :: Step(s, EndCall(r)).Some?)
            && (s.reader.AtSend? ==>
                  Step(s, if |s.buffer| < 16 then Send else if s.cancelled then Abandon else Drop).Some?)
            && (s.reader == AtOnce && !s.once.Running? ==>
                  Step(s, if s.once == Fresh then EnterOnce(Reader) else PassOnce(Reader)).Some?)
            && (s.once.Running? ==> Step(s, LeaveOnce(s.once.owner)).Some?)
            && (s.reader == AtDone ==> Step(s, CloseDone).Some?)
            && (s.reader == AtEvents ==> Step(s, CloseEvents).Some?)
  {
    RunKeeps(actions);
  }

  /** All along the run the context was not cancelled, and the consumer never more than 16 events behind. */
  predicate KeptUp(actions: seq<Action>) {
    && Run(actions).Some? && !Run(actions).value.cancelled
    && |Run(actions).value.received| <= |Run(actions).value.consumed| + 16
    && (actions != [] ==> KeptUp(actions[..|actions| - 1]))
  }

  lemma {:induction false} NothingDropped(actions: seq<Action>)
    requires KeptUp(actions)
    ensures Run(actions).value.dropped == 0 && Run(actions).value.abandoned == 0
  {
    if actions != [] {
      var init, last := actions[..|actions| - 1], actions[|actions| - 1];
      NothingDropped(init);
      RunKeeps(init);
      DroppedOnlyWhenFull(init, last);
    }
  }

  lemma {:induction false} SameLengthSubsequence(a: seq<Event>, b: seq<Event>)
    requires Subsequence(a, b)
    ensures |a| <= |b| && (|a| == |b| ==> a == b)
  {
    if a != [] {
      var n, m := |a| - 1, |b| - 1;
      if Subsequence(a, b[..m]) {
        SameLengthSubsequence(a, b[..m]);
      } else {
        SameLengthSubsequence(a[..n], b[..m]);
        assert a == a[..n] + [a[n]] && b == b[..m] + [b[m]];
      }
    }
  }

  function Held(s: State): seq<Event> {
    if s.reader.AtSend? then [s.reader.event] else []
  }

  lemma AllAreThere(s: State)
    requires EventsOk(s) && s.dropped == 0 && s.abandoned == 0
    ensures s.consumed + s.buffer + Held(s) == s.received
  {
    hide Subsequence;
    var had := s.consumed + s.buffer;
    if s.reader.AtSend? {
      var init := s.received[..|s.received| - 1];
      SameLengthSubsequence(had, init);
      assert s.received == init + [s.reader.event];
    } else {
      SameLengthSubsequence(had, s.received);
      assert had + [] == had;
    }
  }

  /** A consumer that keeps up gets everything: what it has had, what waits and what is in flight is what came in. */
  lemma NothingIsLost(actions: seq<Action>)
    requires KeptUp(actions)
    ensures var s := Run(actions).value;
            s.consumed + s.buffer + (if s.reader.AtSend? then [s.reader.event] else []) == DecodedEvents(actions)
  {
    NothingDropped(actions);
    RunKeeps(actions);
    ReceivedIsDecoded(actions);
    hide Run, KeptUp, EventsOk, GateOk, CallsOk;
    AllAreThere(Run(actions).value);
  }

  /** The reader leaves its loop for a failed call, the end of the stream or the cancelled context, and for good. */
  lemma ReaderLeavesIff(actions: seq<Action>, a: Action)
    requires Run(actions).Some? && Step(Run(actions).value, a).Some?
    ensures var s, t := Run(actions).value, Step(Run(actions).value, a).value;
            && (!ReaderLeft(s) && ReaderLeft(t) ==>
                  a == EndCall(Failure) || a == EndCall(EndOfStream) || (s.cancelled && (a == Check || a == Abandon)))
            && (a == EndCall(Failure) || a == EndCall(EndOfStream) || (s.cancelled && a == Check) ==> ReaderLeft(t))
            && (ReaderLeft(s) ==> ReaderLeft(t) && a != BeginCall)
            && (a == EndCall(Malformed) ==> t.reader == AtCheck)
            && (a == Check && !s.cancelled ==> t.reader == AtCall)
  {
    RunKeeps(actions);
    assert Run(actions).value.once == Running(Reader) ==> Run(actions).value.reader == InOnce;
  }

  /** The actions of the goroutines themselves; `EndCall` is the foreign call coming back. */
  predicate Internal(a: Action) {
    !a.CallClose? && !a.ParentCancels? && !a.Consume?
  }

  /** While some `close` has not returned, some goroutine can move: closers and reader never block each other. */
  lemma NoDeadlock(actions: seq<Action>, c: Closer)
    requires Run(actions).Some? && c in Run(actions).value.closers && Run(actions).value.closers[c] != Returned
    ensures exists a :: Internal(a) && Step(Run(actions).value, a).Some?
  {
    RunKeeps(actions);
    var s := Run(actions).value;
    if s.closers[c] == AtCancel {
      assert Step(s, Cancel(c)).Some? && Internal(Cancel(c));
    } else if s.once.Running? {
      assert Step(s, LeaveOnce(s.once.owner)).Some? && Internal(LeaveOnce(s.once.owner));
    } else if s.closers[c] == AtCloserOnce {
      var a := if s.once == Fresh then EnterOnce(Caller(c)) else PassOnce(Caller(c));
      assert Step(s, a).Some? && Internal(a);
    } else {
      ReaderMoves(s, c);
    }
  }

  lemma ReaderMoves(s: State, c: Closer)
    requires Inv(s) && c in s.closers && s.closers[c] == AtWait
    ensures exists a :: Internal(a) && Step(s, a).Some?
  {
    var a := match s.reader
      case AtCheck => Check
      case AtCall => BeginCall
      case InCall => EndCall(Failure)
      case AtSend(_) => Abandon
      case AtOnce => PassOnce(Reader)
      case InOnce => LeaveOnce(Reader)
      case AtDone => CloseDone
      case AtEvents => CloseEvents
      case Ended => SeeDone(c);
    assert Internal(a) && Step(s, a).Some?;
  }

  function Rank(pc: ReaderPc): nat {
    match pc
    case AtCall => 8
    case InCall => 7
    case AtSend(_) => 6
    case AtCheck => 5
    case AtOnce => 4
    case InOnce => 3
    case AtDone => 2
    case AtEvents => 1
    case Ended => 0
  }

  /** Once the context is cancelled every step of the reader brings it closer to its end, and no one else moves it. */
  lemma CancelledReaderWindsDown(s: State, a: Action)
    requires GateOk(s) && s.cancelled && Step(s, a).Some?
    ensures var t := Step(s, a).value; t.cancelled && (t.reader == s.reader || Rank(t.reader) < Rank(s.reader))
    ensures a in {Check, BeginCall, Send, Abandon, Drop, EnterOnce(Reader), PassOnce(Reader), CloseDone, CloseEvents}
            || a.EndCall? || (a == LeaveOnce(Reader) && s.reader == InOnce)
            ==> Rank(Step(s, a).value.reader) < Rank(s.reader)
  {
  }
}
