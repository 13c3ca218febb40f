/**
  Node's `wsEventStream`: callbacks fill a queue, an async generator drains it and sleeps on a promise
  when it is empty. JavaScript runs a callback, or the generator up to its next suspension, without
  interruption; each action below is one such stretch. `WsStream` is the code, `Step` what a stretch does.
*/
module WsQueue {
  import opened Wrappers

  type Message = string

  /** Where the generator is: not started, at `yield`, at the pending or the resolved promise, or ended and how. */
  datatype Suspension = NotStarted | AtYield | Asleep | Woken | Ended(thrown: Option<string>)

  datatype State = State(queue: seq<Message>, resolveWait: bool, closed: bool, error: Option<string>, at: Suspension,
                         received: seq<Message>, yielded: seq<Message>)

  const INITIAL := State([], false, false, None, NotStarted, [], [])

  /** `Next` is the consumer asking for an event, `Resume` the continuation of the resolved promise. */
  datatype Action = OnMessage(m: Message) | OnClose | OnError(e: string) | Next | Resume | Return

  function Wake(s: State): State {
    if s.resolveWait then s.(resolveWait := false, at := Woken) else s
  }

  /** From the head of the inner loop to the next suspension. */
  function Drain(s: State): State {
    if s.queue != [] then s.(queue := s.queue[1..], yielded := s.yielded + [s.queue[0]], at := AtYield)
    else if s.closed then s.(at := Ended(s.error))
    else s.(resolveWait := true, at := Asleep)
  }

  /** From the head of the outer loop: a closed stream is left without another look at the queue. */
  function Outer(s: State): State {
    if s.closed then s.(at := Ended(s.error)) else Drain(s)
  }

  /** Listeners exist from the first `Next` on and are never removed. */
  function Step(s: State, a: Action): Option<State> {
    match a
    case OnMessage(m) =>
      if s.at.NotStarted? then None
      else Some(Wake(s.(queue := s.queue + [m], received := s.received + [m])))
    case OnClose => if s.at.NotStarted? then None else Some(Wake(s.(closed := true)))
    case OnError(e) => if s.at.NotStarted? then None else Some(Wake(s.(error := Some(e), closed := true)))
    case Next => if s.at.NotStarted? then Some(Outer(s)) else if s.at.AtYield? then Some(Drain(s)) else None
    case Resume => if s.at.Woken? then Some(Outer(s)) else None
    case Return => if s.at.AtYield? then Some(s.(at := Ended(None))) else None
  }

  function Run(actions: seq<Action>): Option<State> {
    if actions == [] then Some(INITIAL)
    else match Run(actions[..|actions| - 1])
      case None => None
      case Some(s) => Step(s, actions[|actions| - 1])
  }

  class WsStream {
    var messageQueue: seq<Message>
    var resolveWait: bool
    var closed: bool
    var error: Option<string>
    var at: Suspension
    ghost var received: seq<Message>
    ghost var yielded: seq<Message>

    ghost function View(): State
      reads this
    {
      State(messageQueue, resolveWait, closed, error, at, received, yielded)
    }

    constructor ()
      ensures View() == INITIAL
    {
      messageQueue, resolveWait, closed, error, at, received, yielded := [], false, false, None, NotStarted, [], [];
    }

    method WakeUp()
      modifies this
      ensures View() == old(Wake(View()))
    {
      if resolveWait {
        resolveWait := false;
        at := Woken;
      }
    }

    method OnMessage(m: Message)
      requires !at.NotStarted?
      modifies this
      ensures Some(View()) == Step(old(View()), Action.OnMessage(m))
      ensures messageQueue == old(messageQueue) + [m]
    {
      messageQueue, received := messageQueue + [m], received + [m];
      WakeUp();
    }

    method OnClose()
      requires !at.NotStarted?
      modifies this
      ensures Some(View()) == Step(old(View()), Action.OnClose)
      ensures closed && messageQueue == old(messageQueue) && error == old(error)
    {
      closed := true;
      WakeUp();
    }

    method OnError(e: string)
      requires !at.NotStarted?
      modifies this
      ensures Some(View()) == Step(old(View()), Action.OnError(e))
      ensures closed && messageQueue == old(messageQueue) && error == Some(e)
    {
      error := Some(e);
      closed := true;
      WakeUp();
    }

    /** The generator body, from where it is suspended to the next suspension; an event if it yields one. */
    method Continue() returns (event: Option<Message>)
      requires !at.Ended? && !at.Asleep?
      modifies this
      ensures Some(View()) == Step(old(View()), if old(at).Woken? then Action.Resume else Action.Next)
      ensures event.Some? <==> at.AtYield?
      ensures event.Some? ==> yielded == old(yielded) + [event.value]
      ensures event.None? ==> yielded == old(yielded)
    {
      event := None;
      if at.NotStarted? || at.Woken? {
        if closed { at := Ended(error); return; }
      }
      if |messageQueue| > 0 {
        var m := messageQueue[0];
        messageQueue := messageQueue[1..];
        at, yielded := AtYield, yielded + [m];
        return Some(m);
      }
      if closed { at := Ended(error); return; }
      resolveWait, at := true, Asleep;
    }
  }

  // ---- What holds after every run ----

  ghost predicate Inv(s: State) {
    && (s.resolveWait <==> s.at.Asleep?)
    && (s.at.Asleep? ==> s.queue == [] && !s.closed)
    && s.received == s.yielded + s.queue
    && (s.error.Some? ==> s.closed)
  }

  lemma StepKeeps(s: State, a: Action)
    requires Inv(s) && Step(s, a).Some?
    ensures Inv(Step(s, a).value)
  {
    match a
    case OnMessage(m) => assert s.yielded + (s.queue + [m]) == s.yielded + s.queue + [m];
    case _ => assert s.queue != [] ==> s.yielded + [s.queue[0]] + s.queue[1..] == s.yielded + s.queue;
  }

  lemma {:induction false} RunKeeps(actions: seq<Action>)
    requires Run(actions).Some?
    ensures Inv(Run(actions).value)
  {
    if actions != [] {
      RunKeeps(actions[..|actions| - 1]);
      StepKeeps(Run(actions[..|actions| - 1]).value, actions[|actions| - 1]);
    }
  }

  function Arrived(actions: seq<Action>): seq<Message> {
    if actions == [] then []
    else
      var last := actions[|actions| - 1];
      Arrived(actions[..|actions| - 1]) + if last.OnMessage? then [last.m] else []
  }

  function LastError(actions: seq<Action>): Option<string> {
    if actions == [] then None
    else
      var last := actions[|actions| - 1];
      if last.OnError? then Some(last.e) else LastError(actions[..|actions| - 1])
  }

  /** Every message that arrives is kept, in order, and nothing else; so are the last error and the close. */
  lemma {:induction false} EverythingIsReceived(actions: seq<Action>)
    requires Run(actions).Some?
    ensures var s := Run(actions).value;
            && s.received == Arrived(actions) && s.error == LastError(actions)
            && (s.closed <==> exists a <- actions :: a.OnClose? || a.OnError?)
  {
    if actions != [] {
      var init, last := actions[..|actions| - 1], actions[|actions| - 1];
      EverythingIsReceived(init);
      StepReceives(Run(init).value, last);
      hide Step;
      assert actions == init + [last];
      assert forall a :: a in actions <==> a in init || a == last;
    }
  }

  lemma StepReceives(s: State, a: Action)
    requires Step(s, a).Some?
    ensures var t := Step(s, a).value;
            && t.received == s.received + (if a.OnMessage? then [a.m] else [])
            && t.error == (if a.OnError? then Some(a.e) else s.error)
            && t.closed == (s.closed || a.OnClose? || a.OnError?)
  {
    assert s.received + [] == s.received;
  }

  /**
    Where each stretch of code leads: a callback wakes a sleeping generator and leaves any other where it is; the
    generator ends, throwing the last error if there was one, when the stream is closed and it is not just behind a
    `yield` with messages left; otherwise it yields the oldest message, or sleeps if there is none.
  */
  lemma EachStretch(actions: seq<Action>, a: Action)
    requires Run(actions).Some? && Step(Run(actions).value, a).Some?
    ensures var s, t := Run(actions).value, Step(Run(actions).value, a).value;
            && (a.OnMessage? || a.OnClose? || a.OnError? ==> t.at == if s.at.Asleep? then Woken else s.at)
            && (a.Return? ==> s.at.AtYield? && t.at == Ended(None) && t.yielded == s.yielded)
            && (a.Next? || a.Resume? ==>
                  && (s.closed && (!s.at.AtYield? || s.queue == []) ==> t.at == Ended(LastError(actions)))
                  && (!(s.closed && !s.at.AtYield?) && s.queue != [] ==>
                        t.at == AtYield && t.yielded == s.yielded + [s.queue[0]] && t.queue == s.queue[1..])
                  && (!s.closed && s.queue == [] ==> t.at == Asleep && t.yielded == s.yielded))
  {
    RunKeeps(actions);
    EverythingIsReceived(actions);
  }

  /** Nothing but its end stops the generator: whoever asks at a `yield`, or has been woken, goes on. */
  lemma AlwaysGoesOn(actions: seq<Action>)
    requires Run(actions).Some?
    ensures var s := Run(actions).value;
            && (Step(s, Next).Some? <==> s.at.NotStarted? || s.at.AtYield?) && (Step(s, Resume).Some? <==> s.at.Woken?)
            && (forall m :: Step(s, OnMessage(m)).Some? <==> !s.at.NotStarted?)
  {
  }

  /** The generator never sleeps while there is something to do; it yields the first received events, in order. */
  lemma NoLostWakeup(actions: seq<Action>)
    requires Run(actions).Some?
    ensures var s := Run(actions).value;
            && (s.resolveWait ==> s.queue == [] && !s.closed)
            && (s.at.Asleep? ==> s.resolveWait)
            && s.yielded <= s.received && s.received == s.yielded + s.queue
  {
    RunKeeps(actions);
  }

  /**
    The generator ends with messages unread exactly when it is woken up, and not at a `yield`, to find the
    stream closed and the queue not empty. A consumer that keeps asking at a `yield` gets everything first.
  */
  lemma EndsWithUnreadMessagesIff(actions: seq<Action>, a: Action)
    requires Run(actions).Some? && (a == Next || a == Resume) && Step(Run(actions).value, a).Some?
    ensures var s, t := Run(actions).value, Step(Run(actions).value, a).value;
            (t.at.Ended? && t.yielded != t.received) <==> (s.at.Woken? && s.closed && s.queue != [])
  {
    RunKeeps(actions);
    StepKeeps(Run(actions).value, a);
    var s, t := Run(actions).value, Step(Run(actions).value, a).value;
    assert t.yielded == t.received <==> t.queue == [] by {
      assert |t.received| == |t.yielded| + |t.queue|;
      assert t.queue == [] ==> t.yielded + t.queue == t.yielded;
    }
  }

  /** Such a run exists: a message and the close arrive together while the generator sleeps. */
  lemma MessageLostAtClose(m: Message)
    ensures var run := [Next, OnMessage(m), OnClose, Resume];
            Run(run) == Some(State([m], false, true, None, Ended(None), [m], []))
  {
    var run := [Next, OnMessage(m), OnClose, Resume];
    assert run[..3] == [Next, OnMessage(m), OnClose] && run[..2] == [Next, OnMessage(m)] && run[..1] == [Next];
    assert run[..3][..2] == run[..2] && run[..2][..1] == run[..1] && run[..1][..0] == [];
    assert Run([Next]).value.at.Asleep?;
    assert Run(run[..2]).value.queue == [m];
  }
}
