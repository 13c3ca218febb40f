/**
  The Go wrapper around the foreign client handle: an RWMutex guards the handle, an atomic flag and a
  sync.Once guard `Close`. Any number of threads call methods and `Close`; the finalizer is one more
  caller of `Close`. Each action is one atomic step of one thread.
*/
module HandleGuard {
  import opened Wrappers

  type Thread = nat

  /** Almost every method takes the read lock; the two setters take the write lock. */
  datatype Kind = Shared | Exclusive

  datatype Pc =
    | Acquiring(kind: Kind, late: bool)     // c.mu.RLock() or c.mu.Lock()
    | CheckFlag(kind: Kind, late: bool)     // c.closed.Load()
    | CheckHandle(kind: Kind, late: bool)   // c.handle == nil
    | InC(kind: Kind, late: bool)           // the foreign call
    | Releasing(kind: Kind, late: bool, ok: bool)
    | AtOnce            // Close: closeOnce.Do
    | Storing           // c.closed.Store(true)
    | Locking           // c.mu.Lock()
    | Freeing           // hai_client_free, c.handle = nil
    | Unlocking         // deferred c.mu.Unlock()
    | Finishing         // the once is marked done

  datatype Once = Fresh | Running(owner: Thread) | Finished

  /** What a method call returned; `late` if it began when some `Close` had already returned. */
  datatype Outcome = Outcome(late: bool, ok: bool)

  /**
    `waiting` is the writer that has announced itself and waits for the readers to leave; it keeps new readers
    and other writers out. `live` is "the handle is not nil"; a thread with no entry in `pcs` is in neither a
    method nor Close. `refused` counts the calls that were told "client is closed".
  */
  datatype State = State(pcs: map<Thread, Pc>, readers: set<Thread>, waiting: Option<Thread>, writer: Option<Thread>,
                         once: Once, closed: bool, live: bool, frees: nat, refused: nat, closeReturned: bool,
                         outcomes: seq<Outcome>)

  const INITIAL := State(map[], {}, None, None, Fresh, false, true, 0, 0, false, [])

  datatype Action =
    | CallMethod(t: Thread, kind: Kind) | Announce(t: Thread) | Acquire(t: Thread)
    | ReadFlag(t: Thread) | ReadHandle(t: Thread) | LeaveC(t: Thread, ok: bool) | Release(t: Thread)
    | CallClose(t: Thread) | EnterOnce(t: Thread) | PassOnce(t: Thread) | StoreFlag(t: Thread)
    | Lock(t: Thread) | Free(t: Thread) | Unlock(t: Thread) | Finish(t: Thread)

  function At(s: State, t: Thread): Option<Pc> {
    if t in s.pcs then Some(s.pcs[t]) else None
  }

  function Goto(s: State, t: Thread, pc: Pc): State {
    s.(pcs := s.pcs[t := pc])
  }

  /** c.mu.Lock() has been called. */
  predicate WantsToWrite(pc: Pc) {
    pc.Locking? || (pc.Acquiring? && pc.kind.Exclusive?)
  }

  function Step(s: State, a: Action): Option<State> {
    var t := a.t;
    match (a, At(s, t))
    case (CallMethod(_, kind), None) => Some(Goto(s, t, Acquiring(kind, s.closeReturned)))
    case (Announce(_), Some(pc)) =>
      if !WantsToWrite(pc) || s.waiting.Some? || s.writer.Some? then None else Some(s.(waiting := Some(t)))
    case (Acquire(_), Some(Acquiring(Shared, late))) =>
      if s.waiting.Some? || s.writer.Some? then None
      else Some(Goto(s.(readers := s.readers + {t}), t, CheckFlag(Shared, late)))
    case (Acquire(_), Some(Acquiring(Exclusive, late))) =>
      if s.waiting != Some(t) || s.readers != {} then None
      else Some(Goto(s.(waiting := None, writer := Some(t)), t, CheckFlag(Exclusive, late)))
    case (ReadFlag(_), Some(CheckFlag(kind, late))) =>
      Some(if s.closed then Goto(s.(refused := s.refused + 1), t, Releasing(kind, late, false))
           else Goto(s, t, CheckHandle(kind, late)))
    case (ReadHandle(_), Some(CheckHandle(kind, late))) =>
      Some(if !s.live then Goto(s.(refused := s.refused + 1), t, Releasing(kind, late, false))
           else Goto(s, t, InC(kind, late)))
    case (LeaveC(_, ok), Some(InC(kind, late))) => Some(Goto(s, t, Releasing(kind, late, ok)))
    case (Release(_), Some(Releasing(kind, late, ok))) =>
      Some(s.(pcs := s.pcs - {t}, outcomes := s.outcomes + [Outcome(late, ok)],
              readers := s.readers - {t}, writer := if kind.Exclusive? then None else s.writer))
    case (CallClose(_), None) => Some(Goto(s, t, AtOnce))
    case (EnterOnce(_), Some(AtOnce)) =>
      if s.once != Fresh then None else Some(Goto(s.(once := Running(t)), t, Storing))
    case (PassOnce(_), Some(AtOnce)) =>
      if s.once != Finished then None else Some(s.(pcs := s.pcs - {t}, closeReturned := true))
    case (StoreFlag(_), Some(Storing)) => Some(Goto(s.(closed := true), t, Locking))
    case (Lock(_), Some(Locking)) =>
      if s.waiting != Some(t) || s.readers != {} then None
      else Some(Goto(s.(waiting := None, writer := Some(t)), t, Freeing))
    case (Free(_), Some(Freeing)) =>
      Some(Goto(if s.live then s.(live := false, frees := s.frees + 1) else s, t, Unlocking))
    case (Unlock(_), Some(Unlocking)) => Some(Goto(s.(writer := None), t, Finishing))
    case (Finish(_), Some(Finishing)) => Some(s.(pcs := s.pcs - {t}, once := Finished, closeReturned := true))
    case _ => None
  }

  function Run(actions: seq<Action>): Option<State> {
    if actions == [] then Some(INITIAL)
    else match Run(actions[..|actions| - 1])
      case None => None
      case Some(s) => Step(s, actions[|actions| - 1])
  }

  // ---- The invariant ----

  predicate Holding(pc: Pc, kind: Kind) {
    match pc
    case Acquiring(_, _) => false
    case AtOnce => false
    case Storing => false
    case Locking => false
    case Finishing => false
    case Freeing => kind == Exclusive
    case Unlocking => kind == Exclusive
    case _ => pc.kind == kind
  }

  predicate Closing(pc: Pc) {
    pc.Storing? || pc.Locking? || pc.Freeing? || pc.Unlocking? || pc.Finishing?
  }

  ghost predicate LocksOk(s: State) {
    && (forall t <- s.pcs :: t in s.readers <==> Holding(s.pcs[t], Shared))
    && (forall t <- s.pcs :: s.writer == Some(t) <==> Holding(s.pcs[t], Exclusive))
    && (forall t <- s.readers :: t in s.pcs) && (s.writer.Some? ==> s.writer.value in s.pcs)
    && (s.writer.Some? ==> s.readers == {} && s.waiting.None?)
    && (s.waiting.Some? ==> s.waiting.value in s.pcs && WantsToWrite(s.pcs[s.waiting.value]))
  }

  ghost predicate CloseOk(s: State) {
    && (forall t <- s.pcs :: s.once == Running(t) <==> Closing(s.pcs[t]))
    && (s.once.Running? ==> s.once.owner in s.pcs)
    && (s.closed <==> s.once == Finished || (s.once.Running? && !s.pcs[s.once.owner].Storing?))
    && (s.live <==>
        s.once == Fresh || (s.once.Running? && !s.pcs[s.once.owner].Unlocking? && !s.pcs[s.once.owner].Finishing?))
    && s.frees == (if s.live then 0 else 1)
    && (s.closeReturned ==> s.once == Finished)
    && (s.refused > 0 ==> s.closed)
  }

  ghost predicate CallsOk(s: State) {
    && (forall t <- s.pcs :: s.pcs[t].InC? ==> s.live && !s.pcs[t].late)
    && (forall t <- s.pcs :: s.pcs[t].CheckHandle? ==> !s.pcs[t].late)
    && (forall t <- s.pcs :: s.pcs[t].Releasing? && s.pcs[t].late ==> !s.pcs[t].ok)
    && (forall t <- s.pcs :: !s.pcs[t].AtOnce? && !Closing(s.pcs[t]) && s.pcs[t].late ==> s.closeReturned)
    && (forall o <- s.outcomes :: o.late ==> !o.ok)
  }

  ghost predicate Inv(s: State) {
    LocksOk(s) && CloseOk(s) && CallsOk(s)
  }

  /** A move that neither takes nor gives up a lock. */
  lemma MoveKeepsLocks(s: State, r: State, t: Thread)
    requires LocksOk(s) && r.readers == s.readers && r.waiting == s.waiting && r.writer == s.writer
    requires t in s.pcs ==> !WantsToWrite(s.pcs[t])
    requires t in r.pcs ==> r.pcs == s.pcs[t := r.pcs[t]]
    requires t !in r.pcs ==> r.pcs == s.pcs - {t}
    requires forall kind :: (t in s.pcs && Holding(s.pcs[t], kind)) == (t in r.pcs && Holding(r.pcs[t], kind))
    ensures LocksOk(r)
  {
    assert t in s.readers ==> t in r.pcs;
  }

  lemma AcquireKeepsLocks(s: State, a: Action)
    requires LocksOk(s) && Step(s, a).Some? && (a.Announce? || a.Acquire? || a.Lock?)
    ensures LocksOk(Step(s, a).value)
  {
  }

  lemma ReleaseKeepsLocks(s: State, a: Action)
    requires LocksOk(s) && Step(s, a).Some? && (a.Release? || a.Unlock?)
    ensures LocksOk(Step(s, a).value)
  {
    assert forall t :: t in s.pcs && Holding(s.pcs[t], Exclusive) ==> s.writer == Some(t);
  }

  lemma LocksKept(s: State, a: Action)
    requires LocksOk(s) && Step(s, a).Some?
    ensures LocksOk(Step(s, a).value)
  {
    if a.Announce? || a.Acquire? || a.Lock? {
      AcquireKeepsLocks(s, a);
    } else if a.Release? || a.Unlock? {
      ReleaseKeepsLocks(s, a);
    } else {
      hide LocksOk;
      MoveKeepsLocks(s, Step(s, a).value, a.t);
    }
  }

  /** The write lock keeps everybody else out of the foreign code. */
  lemma WriterAlone(s: State, w: Thread, t: Thread)
    requires LocksOk(s) && s.writer == Some(w) && t in s.pcs && t != w
    ensures !s.pcs[t].InC?
  {
    assert t !in s.readers && !Holding(s.pcs[t], Shared) && !Holding(s.pcs[t], Exclusive);
  }

  lemma MethodKeepsClose(s: State, a: Action)
    requires CloseOk(s) && Step(s, a).Some?
    requires a.CallMethod? || a.Announce? || a.Acquire? || a.ReadFlag? || a.ReadHandle? || a.LeaveC? || a.Release?
    ensures CloseOk(Step(s, a).value)
  {
  }

  lemma CloseKeepsClose(s: State, a: Action)
    requires CloseOk(s) && Step(s, a).Some?
    requires a.CallClose? || a.EnterOnce? || a.PassOnce? || a.StoreFlag?
    ensures CloseOk(Step(s, a).value)
  {
  }

  lemma FreeKeepsClose(s: State, a: Action)
    requires CloseOk(s) && Step(s, a).Some?
    requires a.Lock? || a.Free? || a.Unlock? || a.Finish?
    ensures CloseOk(Step(s, a).value)
  {
  }

  lemma CloseKept(s: State, a: Action)
    requires CloseOk(s) && Step(s, a).Some?
    ensures CloseOk(Step(s, a).value)
  {
    if a.Lock? || a.Free? || a.Unlock? || a.Finish? { FreeKeepsClose(s, a); }
    else if a.CallClose? || a.EnterOnce? || a.PassOnce? || a.StoreFlag? { CloseKeepsClose(s, a); }
    else { MethodKeepsClose(s, a); }
  }

  lemma CallKeepsCalls(s: State, a: Action)
    requires CloseOk(s) && CallsOk(s) && Step(s, a).Some?
    requires a.CallMethod? || a.Announce? || a.Acquire? || a.ReadFlag? || a.ReadHandle? || a.LeaveC?
    ensures CallsOk(Step(s, a).value)
  {
  }

  lemma ReleaseKeepsCalls(s: State, a: Action)
    requires CallsOk(s) && Step(s, a).Some? && a.Release?
    ensures CallsOk(Step(s, a).value)
  {
  }

  lemma CloseKeepsCalls(s: State, a: Action)
    requires CallsOk(s) && Step(s, a).Some?
    requires a.CallClose? || a.EnterOnce? || a.PassOnce? || a.StoreFlag? || a.Lock? || a.Unlock? || a.Finish?
    ensures CallsOk(Step(s, a).value)
  {
  }

  lemma FreeKeepsCalls(s: State, a: Action)
    requires LocksOk(s) && CallsOk(s) && Step(s, a).Some? && a.Free?
    ensures CallsOk(Step(s, a).value)
  {
    assert Holding(s.pcs[a.t], Exclusive);
    forall t <- s.pcs | t != a.t ensures !s.pcs[t].InC? { WriterAlone(s, a.t, t); }
  }

  lemma CallsKept(s: State, a: Action)
    requires Inv(s) && Step(s, a).Some?
    ensures CallsOk(Step(s, a).value)
  {
    if a.Free? { FreeKeepsCalls(s, a); }
    else if a.Release? { ReleaseKeepsCalls(s, a); }
    else if a.CallMethod? || a.Announce? || a.Acquire? || a.ReadFlag? || a.ReadHandle? || a.LeaveC? {
      CallKeepsCalls(s, a);
    }
    else { CloseKeepsCalls(s, a); }
  }

  lemma {:induction false} RunKeeps(actions: seq<Action>)
    requires Run(actions).Some?
    ensures Inv(Run(actions).value)
  {
    if actions != [] {
      var init, last := actions[..|actions| - 1], actions[|actions| - 1];
      RunKeeps(init);
      LocksKept(Run(init).value, last);
      CloseKept(Run(init).value, last);
      CallsKept(Run(init).value, last);
    }
  }

  // ---- What holds after every run ----

  /** A thread inside the foreign code holds a live handle, nobody frees it meanwhile, and it is freed at most once. */
  lemma NoUseAfterFree(actions: seq<Action>)
    requires Run(actions).Some?
    ensures var s := Run(actions).value;
            && s.frees <= 1 && (s.frees == 1 <==> !s.live)
            && (forall t <- s.pcs :: s.pcs[t].InC? ==> s.live && s.frees == 0)
            && (forall t, u :: t in s.pcs && u in s.pcs && s.pcs[u].Freeing? ==> !s.pcs[t].InC?)
  {
    RunKeeps(actions);
    var s := Run(actions).value;
    forall t, u | t in s.pcs && u in s.pcs && s.pcs[u].Freeing? ensures !s.pcs[t].InC? {
      assert Holding(s.pcs[u], Exclusive);
      if t != u { WriterAlone(s, u, t); }
    }
  }

  /** A setter has the client to itself. */
  lemma SettersAreAlone(actions: seq<Action>, t: Thread, u: Thread)
    requires Run(actions).Some?
    requires t in Run(actions).value.pcs && u in Run(actions).value.pcs && t != u
    requires Run(actions).value.pcs[t].InC? && Run(actions).value.pcs[t].kind == Exclusive
    ensures !Run(actions).value.pcs[u].InC?
  {
    RunKeeps(actions);
    var s := Run(actions).value;
    assert Holding(s.pcs[t], Exclusive);
    WriterAlone(s, t, u);
  }

  /** When some `Close` has returned, to whichever of its callers, the handle is gone and every later call fails. */
  lemma ClosedForGood(actions: seq<Action>)
    requires Run(actions).Some?
    ensures var s := Run(actions).value;
            && (s.closeReturned ==> s.closed && !s.live && s.frees == 1 && forall t <- s.pcs :: !s.pcs[t].InC?)
            && (forall o <- s.outcomes :: o.late ==> !o.ok)
  {
    RunKeeps(actions);
  }

  /** The check fails exactly when some `Close` has stored the flag; before any `Close` begins no call is refused. */
  lemma RefusedOnlyWhenClosed(actions: seq<Action>, a: Action)
    requires Run(actions).Some? && Step(Run(actions).value, a).Some?
    ensures var s, t := Run(actions).value, Step(Run(actions).value, a).value;
            && (a.ReadFlag? ==> (t.refused > s.refused <==> s.closed) && (t.pcs[a.t].CheckHandle? <==> !s.closed))
            && (a.ReadHandle? ==> (t.refused > s.refused <==> !s.live) && (t.pcs[a.t].InC? <==> s.live))
            && (!s.live ==> s.closed)
            && ((forall b <- actions :: !b.CallClose?) ==> s.refused == 0 && !s.closed && s.live && s.frees == 0)
  {
    RunKeeps(actions);
    if forall b <- actions :: !b.CallClose? { NobodyCloses(actions); }
  }

  lemma {:induction false} NobodyCloses(actions: seq<Action>)
    requires Run(actions).Some? && forall b <- actions :: !b.CallClose?
    ensures Run(actions).value.once == Fresh && !Run(actions).value.closed
    ensures forall t <- Run(actions).value.pcs :: !Run(actions).value.pcs[t].AtOnce?
  {
    RunKeeps(actions);
    if actions != [] {
      var init, last := actions[..|actions| - 1], actions[|actions| - 1];
      assert forall b <- init :: b in actions;
      assert last in actions;
      NobodyCloses(init);
      RunKeeps(init);
      StaysOpen(Run(init).value, last);
      hide Step;
    }
  }

  lemma StaysOpen(s: State, a: Action)
    requires CloseOk(s) && s.once == Fresh && (forall t <- s.pcs :: !s.pcs[t].AtOnce?)
    requires Step(s, a).Some? && !a.CallClose?
    ensures var r := Step(s, a).value;
            r.once == Fresh && r.closed == s.closed && forall t <- r.pcs :: !r.pcs[t].AtOnce?
  {
  }

  // ---- What a call does when nobody else is there ----

  function From(s: State, actions: seq<Action>): Option<State>
    decreases |actions|
  {
    if actions == [] then Some(s)
    else match Step(s, actions[0])
      case None => None
      case Some(r) => From(r, actions[1..])
  }

  lemma {:induction false} FromStates(states: seq<State>, actions: seq<Action>)
    requires |states| == |actions| + 1
    requires forall i | 0 <= i < |actions| :: Step(states[i], actions[i]) == Some(states[i + 1])
    ensures From(states[0], actions) == Some(states[|actions|])
    decreases |actions|
  {
    hide Step;
    if actions != [] {
      var n := |actions| - 1;
      assert forall i | 0 <= i < n :: states[1..][i] == states[i + 1] && actions[1..][i] == actions[i + 1];
      assert forall i | 0 <= i < n :: Step(states[1..][i], actions[1..][i]) == Some(states[1..][i + 1]) by {
        forall i | 0 <= i < n ensures Step(states[1..][i], actions[1..][i]) == Some(states[1..][i + 1]) {
          assert Step(states[i + 1], actions[i + 1]) == Some(states[i + 1 + 1]);
        }
      }
      assert Step(states[0], actions[0]) == Some(states[0 + 1]);
      FromStates(states[1..], actions[1..]);
    }
  }

  predicate Unlocked(s: State) {
    s.readers == {} && s.waiting.None? && s.writer.None?
  }

  /** The state in which a thread has just got the lock. */
  function Locked(s: State, t: Thread, kind: Kind): State {
    Goto(if kind.Shared? then s.(readers := {t}) else s.(writer := Some(t)), t, CheckFlag(kind, s.closeReturned))
  }

  lemma Again(s: State, t: Thread, p: Pc, q: Pc)
    ensures s.pcs[t := p][t := q] == s.pcs[t := q]
    ensures t !in s.pcs ==> s.pcs[t := p] - {t} == s.pcs
  {
  }

  lemma ReadersBack(s: State, t: Thread)
    requires s.readers == {}
    ensures s.readers + {t} == {t} && {t} - {t} == s.readers && s.readers - {t} == s.readers
  {
  }

  lemma ReleasesAlone(s: State, t: Thread, kind: Kind, ok: bool)
    requires t !in s.pcs && Unlocked(s)
    ensures Step(Goto(Locked(s, t, kind), t, Releasing(kind, s.closeReturned, ok)), Release(t))
         == Some(s.(outcomes := s.outcomes + [Outcome(s.closeReturned, ok)]))
  {
    ReadersBack(s, t);
    Again(s, t, CheckFlag(kind, s.closeReturned), Releasing(kind, s.closeReturned, ok));
    Again(s, t, Releasing(kind, s.closeReturned, ok), AtOnce);
  }

  /** With the lock held, an open client is used, and left as it was. */
  lemma UsesAlone(s: State, t: Thread, kind: Kind, ok: bool)
    requires t !in s.pcs && Unlocked(s) && !s.closed && s.live
    ensures From(Locked(s, t, kind), [ReadFlag(t), ReadHandle(t), LeaveC(t, ok), Release(t)])
         == Some(s.(outcomes := s.outcomes + [Outcome(s.closeReturned, ok)]))
  {
    var late, s1 := s.closeReturned, Locked(s, t, kind);
    var s2, s3 := Goto(s1, t, CheckHandle(kind, late)), Goto(s1, t, InC(kind, late));
    var s4, end := Goto(s1, t, Releasing(kind, late, ok)), s.(outcomes := s.outcomes + [Outcome(late, ok)]);
    Again(s1, t, CheckHandle(kind, late), InC(kind, late));
    Again(s1, t, InC(kind, late), Releasing(kind, late, ok));
    assert Step(s1, ReadFlag(t)) == Some(s2);
    assert Step(s2, ReadHandle(t)) == Some(s3);
    assert Step(s3, LeaveC(t, ok)) == Some(s4);
    ReleasesAlone(s, t, kind, ok);
    hide Step;
    FromStates([s1, s2, s3, s4, end], [ReadFlag(t), ReadHandle(t), LeaveC(t, ok), Release(t)]);
  }

  lemma IsRefusedAlone(s: State, t: Thread, kind: Kind)
    requires t !in s.pcs && Unlocked(s) && s.closed
    ensures From(Locked(s, t, kind), [ReadFlag(t), Release(t)])
         == Some(s.(refused := s.refused + 1, outcomes := s.outcomes + [Outcome(s.closeReturned, false)]))
  {
    var late, s1 := s.closeReturned, Locked(s, t, kind);
    var s2 := Goto(s1.(refused := s.refused + 1), t, Releasing(kind, late, false));
    var end := s.(refused := s.refused + 1, outcomes := s.outcomes + [Outcome(late, false)]);
    ReadersBack(s, t);
    Again(s, t, CheckFlag(kind, late), Releasing(kind, late, false));
    Again(s, t, Releasing(kind, late, false), Releasing(kind, late, false));
    assert Step(s1, ReadFlag(t)) == Some(s2);
    assert Step(s2, Release(t)) == Some(end);
    hide Step;
    FromStates([s1, s2, end], [ReadFlag(t), Release(t)]);
  }

  lemma LocksAlone(s: State, t: Thread, kind: Kind)
    requires t !in s.pcs && Unlocked(s)
    ensures From(s, [CallMethod(t, kind)] + (if kind.Shared? then [] else [Announce(t)]) + [Acquire(t)])
         == Some(Locked(s, t, kind))
  {
    var s1, end := Goto(s, t, Acquiring(kind, s.closeReturned)), Locked(s, t, kind);
    ReadersBack(s, t);
    Again(s, t, Acquiring(kind, s.closeReturned), CheckFlag(kind, s.closeReturned));
    assert Step(s, CallMethod(t, kind)) == Some(s1);
    if kind.Shared? {
      assert Step(s1, Acquire(t)) == Some(end);
      hide Step;
      FromStates([s, s1, end], [CallMethod(t, kind), Acquire(t)]);
      assert [CallMethod(t, kind)] + [] + [Acquire(t)] == [CallMethod(t, kind), Acquire(t)];
    } else {
      var s2 := s1.(waiting := Some(t));
      assert Step(s1, Announce(t)) == Some(s2);
      assert Step(s2, Acquire(t)) == Some(end);
      hide Step;
      FromStates([s, s1, s2, end], [CallMethod(t, kind), Announce(t), Acquire(t)]);
      assert [CallMethod(t, kind)] + [Announce(t)] + [Acquire(t)] == [CallMethod(t, kind), Announce(t), Acquire(t)];
    }
  }

  lemma {:induction false} FromAppend(s: State, a: seq<Action>, b: seq<Action>)
    ensures From(s, a + b) == match From(s, a) case None => None case Some(r) => From(r, b)
    decreases |a|
  {
    hide Step;
    if a == [] {
      assert a + b == b;
    } else {
      assert (a + b)[1..] == a[1..] + b;
      if Step(s, a[0]).Some? { FromAppend(Step(s, a[0]).value, a[1..], b); }
    }
  }

  /**
    A method, when nobody else holds or wants the lock: in an open client it reaches the foreign code, returns what
    that returns and gives back the lock; in a closed one it fails without reaching the foreign code.
  */
  lemma CallAlone(s: State, t: Thread, kind: Kind, ok: bool)
    requires t !in s.pcs && Unlocked(s) && (s.closed <==> !s.live)
    ensures var start := [CallMethod(t, kind)] + (if kind.Shared? then [] else [Announce(t)]) + [Acquire(t)];
            if s.live then
              From(s, start + [ReadFlag(t), ReadHandle(t), LeaveC(t, ok), Release(t)])
              == Some(s.(outcomes := s.outcomes + [Outcome(s.closeReturned, ok)]))
            else
              From(s, start + [ReadFlag(t), Release(t)])
              == Some(s.(refused := s.refused + 1, outcomes := s.outcomes + [Outcome(s.closeReturned, false)]))
  {
    hide Step, From, Locked;
    LocksAlone(s, t, kind);
    var start := [CallMethod(t, kind)] + (if kind.Shared? then [] else [Announce(t)]) + [Acquire(t)];
    if s.live {
      FromAppend(s, start, [ReadFlag(t), ReadHandle(t), LeaveC(t, ok), Release(t)]);
      UsesAlone(s, t, kind, ok);
    } else {
      FromAppend(s, start, [ReadFlag(t), Release(t)]);
      IsRefusedAlone(s, t, kind);
    }
  }

  /** The first `Close` frees the handle and leaves the client closed; any other just returns. */
  lemma CloseAlone(s: State, t: Thread)
    requires t !in s.pcs && Unlocked(s)
    ensures s.once == Fresh && s.live ==>
              From(s, [CallClose(t), EnterOnce(t), StoreFlag(t), Announce(t), Lock(t), Free(t), Unlock(t), Finish(t)])
              == Some(s.(once := Finished, closed := true, live := false, frees := s.frees + 1, closeReturned := true))
    ensures s.once == Finished ==> From(s, [CallClose(t), PassOnce(t)]) == Some(s.(closeReturned := true))
  {
    if s.once == Finished {
      Again(s, t, AtOnce, AtOnce);
      var s1, end := Goto(s, t, AtOnce), s.(closeReturned := true);
      assert Step(s, CallClose(t)) == Some(s1) && Step(s1, PassOnce(t)) == Some(end);
      hide Step;
      FromStates([s, s1, end], [CallClose(t), PassOnce(t)]);
    } else if s.once == Fresh && s.live {
      ClosesAlone(s, t);
    }
  }

  /** Halfway through: the flag is stored and the writer announced. */
  function HalfClosed(s: State, t: Thread): State {
    Goto(s.(once := Running(t), closed := true, waiting := Some(t)), t, Locking)
  }

  lemma AnnouncesClose(s: State, t: Thread)
    requires t !in s.pcs && Unlocked(s)
    ensures Step(Goto(s.(once := Running(t), closed := true), t, Locking), Announce(t)) == Some(HalfClosed(s, t))
  {
  }

  lemma AnnouncesAlone(s: State, t: Thread)
    requires t !in s.pcs && Unlocked(s) && s.once == Fresh
    ensures From(s, [CallClose(t), EnterOnce(t), StoreFlag(t), Announce(t)]) == Some(HalfClosed(s, t))
  {
    var s1, s2 := Goto(s, t, AtOnce), Goto(s.(once := Running(t)), t, Storing);
    var s3 := Goto(s.(once := Running(t), closed := true), t, Locking);
    Again(s, t, AtOnce, Storing);
    Again(s, t, Storing, Locking);
    assert Step(s, CallClose(t)) == Some(s1);
    assert Step(s1, EnterOnce(t)) == Some(s2);
    assert Step(s2, StoreFlag(t)) == Some(s3);
    AnnouncesClose(s, t);
    hide Step, HalfClosed;
    FromStates([s, s1, s2, s3, HalfClosed(s, t)], [CallClose(t), EnterOnce(t), StoreFlag(t), Announce(t)]);
  }

  /** The handle has been freed, and the write lock given back. */
  function Freed(s: State, t: Thread): State {
    Goto(s.(once := Running(t), closed := true, live := false, frees := s.frees + 1), t, Finishing)
  }

  lemma LocksAndFrees(s: State, t: Thread)
    requires t !in s.pcs && Unlocked(s) && s.live
    ensures From(HalfClosed(s, t), [Lock(t), Free(t), Unlock(t)]) == Some(Freed(s, t))
  {
    var locked := s.(once := Running(t), closed := true, writer := Some(t));
    var s5, s6 := Goto(locked, t, Freeing), Goto(locked.(live := false, frees := s.frees + 1), t, Unlocking);
    GetsWriteLock(s, t);
    Again(locked, t, Freeing, Unlocking);
    Again(locked, t, Unlocking, Finishing);
    assert Step(s5, Free(t)) == Some(s6);
    assert Step(s6, Unlock(t)) == Some(Freed(s, t));
    hide Step;
    FromStates([HalfClosed(s, t), s5, s6, Freed(s, t)], [Lock(t), Free(t), Unlock(t)]);
  }

  lemma GetsWriteLock(s: State, t: Thread)
    requires t !in s.pcs && Unlocked(s)
    ensures Step(HalfClosed(s, t), Lock(t))
         == Some(Goto(s.(once := Running(t), closed := true, writer := Some(t)), t, Freeing))
  {
    Again(s, t, Locking, Freeing);
  }

  lemma FreesAlone(s: State, t: Thread)
    requires t !in s.pcs && Unlocked(s) && s.live
    ensures From(HalfClosed(s, t), [Lock(t), Free(t), Unlock(t)] + [Finish(t)])
         == Some(s.(once := Finished, closed := true, live := false, frees := s.frees + 1, closeReturned := true))
  {
    var end := s.(once := Finished, closed := true, live := false, frees := s.frees + 1, closeReturned := true);
    Again(s, t, Finishing, Finishing);
    assert Step(Freed(s, t), Finish(t)) == Some(end);
    FromStates([Freed(s, t), end], [Finish(t)]);
    hide Step, From, HalfClosed, Freed;
    LocksAndFrees(s, t);
    FromAppend(HalfClosed(s, t), [Lock(t), Free(t), Unlock(t)], [Finish(t)]);
  }

  lemma ClosesAlone(s: State, t: Thread)
    requires t !in s.pcs && Unlocked(s) && s.once == Fresh && s.live
    ensures From(s, [CallClose(t), EnterOnce(t), StoreFlag(t), Announce(t), Lock(t), Free(t), Unlock(t), Finish(t)])
         == Some(s.(once := Finished, closed := true, live := false, frees := s.frees + 1, closeReturned := true))
  {
    hide Step, From, HalfClosed;
    var a, b := [CallClose(t), EnterOnce(t), StoreFlag(t), Announce(t)], [Lock(t), Free(t), Unlock(t), Finish(t)];
    AnnouncesAlone(s, t);
    FreesAlone(s, t);
    assert b == [Lock(t), Free(t), Unlock(t)] + [Finish(t)];
    FromAppend(s, a, b);
    assert a + b == [CallClose(t), EnterOnce(t), StoreFlag(t), Announce(t), Lock(t), Free(t), Unlock(t), Finish(t)];
  }

  predicate Internal(a: Action) {
    !a.CallMethod? && !a.CallClose?
  }

  /** Whoever is inside a method or `Close`, some thread can go on, though a waiting writer keeps new readers out. */
  lemma NoDeadlock(actions: seq<Action>, t: Thread)
    requires Run(actions).Some? && t in Run(actions).value.pcs
    ensures exists a :: Internal(a) && Step(Run(actions).value, a).Some?
  {
    RunKeeps(actions);
    var s := Run(actions).value;
    if s.writer.Some? {
      HolderMoves(s, s.writer.value, Exclusive);
    } else if s.readers != {} {
      var u :| u in s.readers;
      HolderMoves(s, u, Shared);
    } else if s.waiting.Some? {
      var u := s.waiting.value;
      var a := if s.pcs[u].Locking? then Lock(u) else Acquire(u);
      assert Internal(a) && Step(s, a).Some?;
    } else {
      assert !Holding(s.pcs[t], Shared) && !Holding(s.pcs[t], Exclusive);
      UnlockedMoves(s, t);
    }
  }

  lemma UnlockedMoves(s: State, t: Thread)
    requires CloseOk(s) && t in s.pcs && s.writer.None? && s.waiting.None? && s.readers == {}
    requires s.once.Running? ==> !Holding(s.pcs[s.once.owner], Exclusive)
    requires !Holding(s.pcs[t], Shared) && !Holding(s.pcs[t], Exclusive)
    ensures exists a :: Internal(a) && Step(s, a).Some?
  {
    if s.once.Running? {
      var u := s.once.owner;
      assert Closing(s.pcs[u]);
      var a := if s.pcs[u].Storing? then StoreFlag(u) else if s.pcs[u].Locking? then Announce(u) else Finish(u);
      assert Internal(a) && Step(s, a).Some?;
    } else {
      assert !Closing(s.pcs[t]);
      var a := if s.pcs[t].Acquiring? then (if s.pcs[t].kind.Shared? then Acquire(t) else Announce(t))
               else if s.once == Fresh then EnterOnce(t) else PassOnce(t);
      assert Internal(a) && Step(s, a).Some?;
    }
  }

  /** Once a writer waits, `Close` among them, no reader and no other writer gets in before it. */
  lemma WaitingWriterIsNext(actions: seq<Action>, a: Action)
    requires Run(actions).Some? && Run(actions).value.waiting.Some? && Step(Run(actions).value, a).Some?
    ensures var s, t := Run(actions).value, Step(Run(actions).value, a).value;
            && t.readers <= s.readers
            && if t.writer.Some? then t.writer == s.waiting && t.readers == {} else t.waiting == s.waiting
  {
    RunKeeps(actions);
    hide Run, CloseOk, CallsOk;
    WaitingStep(Run(actions).value, a);
  }

  lemma WaitingStep(s: State, a: Action)
    requires LocksOk(s) && s.waiting.Some? && Step(s, a).Some?
    ensures var t := Step(s, a).value;
            && t.readers <= s.readers
            && if t.writer.Some? then t.writer == s.waiting && t.readers == {} else t.waiting == s.waiting
  {
  }

  lemma HolderMoves(s: State, t: Thread, kind: Kind)
    requires t in s.pcs && Holding(s.pcs[t], kind)
    ensures exists a :: Internal(a) && Step(s, a).Some?
  {
    var a := match s.pcs[t]
      case CheckFlag(_, _) => ReadFlag(t)
      case CheckHandle(_, _) => ReadHandle(t)
      case InC(_, _) => LeaveC(t, true)
      case Releasing(_, _, _) => Release(t)
      case Freeing => Free(t)
      case _ => Unlock(t);
    assert Step(s, a).Some? && Internal(a);
  }
}
