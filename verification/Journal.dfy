/**
  The benchmark mediator's write-ahead journal.

  `State` is what a crash cannot be told apart from: the durable `jobs` table, the program counter
  of each live worker (a crash or an uncaught exception simply drops it), and the log of everything
  the outside world has seen. `Next` has one case per commit, provider call and submission, so a
  crash may fall between any two of them. `Mediator` is the Python code itself; its methods are
  proved to be runs of this machine.
*/
module Journal {
  import opened Wrappers

  const CONTRACT := "hai.benchmark.mediator/v1"
  const PROTOCOL := "v3.1"

  type JobId = string
  type Worker = nat

  datatype Request = Request(schema: string, protocolId: string, model: string, provider: string, prompt: string)

  /** A decoded event: a missing job id is "", a digest that is not a string is None. */
  datatype Event = Event(jobId: JobId, digest: Option<string>, request: Request)

  datatype Reply = Reply(content: string, model: string, provider: string, usage: string)

  /** What `complete(request)` does: it raises, or it returns a reply after so many milliseconds. */
  datatype Completion = Raised | Returned(reply: Reply, elapsedMs: nat)

  datatype Response = Response(message: string, schema: string, requestSha256: string,
                               model: string, provider: string, usage: string, processingMs: nat)

  datatype Row = Row(digest: string, response: Option<Response>, submitted: bool)

  type Table = map<JobId, Row>

  /** What the provider and the HAI server get to see. */
  datatype Effect =
    | Called(id: JobId, request: Request)
    | Submitted(id: JobId, response: Response, accepted: bool)

  datatype Pending = Pending(id: JobId, response: Response)

  datatype Pc =
    | Inserting(ev: Event)
    | Calling(ev: Event)
    | Saving(id: JobId, response: Response)
    | Submitting(id: JobId, response: Response, rest: seq<Pending>)
    | Marking(id: JobId, rest: seq<Pending>)

  /** A worker with no entry in `pcs` is waiting for an event, or is dead. */
  datatype State = State(db: Table, pcs: map<Worker, Pc>, log: seq<Effect>)

  // ---- The decisions of handle_job ----

  predicate Admissible(ev: Event) {
    && ev.request.schema == CONTRACT && ev.request.protocolId == PROTOCOL
    && ev.jobId != "" && ev.digest.Some? && |ev.digest.value| == 64
  }

  datatype Lookup = Refuse | Fresh | Replay(response: Response)

  function Decide(db: Table, ev: Event): Lookup {
    if !Admissible(ev) then Refuse
    else if ev.jobId !in db then Fresh
    else if db[ev.jobId].digest != ev.digest.value then Refuse
    else match db[ev.jobId].response
      case None => Refuse
      case Some(r) => Replay(r)
  }

  function ResponseTo(ev: Event, c: Completion): Option<Response>
    requires ev.digest.Some?
  {
    if c.Raised? || c.reply.model != ev.request.model || c.reply.provider != ev.request.provider then None
    else Some(Response(c.reply.content, CONTRACT, ev.digest.value, c.reply.model, c.reply.provider,
                       c.reply.usage, c.elapsedMs))
  }

  // ---- The steps ----

  function Goto(s: State, w: Worker, pc: Option<Pc>): State {
    s.(pcs := if pc.Some? then s.pcs[w := pc.value] else s.pcs - {w})
  }

  function Resume(rest: seq<Pending>): Option<Pc> {
    if rest == [] then None else Some(Submitting(rest[0].id, rest[0].response, rest[1..]))
  }

  /** The rows `resubmit_pending` selects, in whatever order the database returns them. */
  ghost predicate Lists(pending: seq<Pending>, db: Table) {
    && (forall p <- pending :: p.id in db && db[p.id].response == Some(p.response) && !db[p.id].submitted)
    && (forall id <- db :: db[id].response.Some? && !db[id].submitted ==> Pending(id, db[id].response.value) in pending)
    && (forall i, j | 0 <= i < j < |pending| :: pending[i].id != pending[j].id)
  }

  ghost predicate Deliver(s: State, t: State, w: Worker, ev: Event) {
    && w !in s.pcs
    && t == Goto(s, w, match Decide(s.db, ev)
                       case Refuse => None
                       case Fresh => Some(Inserting(ev))
                       case Replay(r) => Some(Submitting(ev.jobId, r, [])))
  }

  ghost predicate Reconnect(s: State, t: State, w: Worker, pending: seq<Pending>) {
    w !in s.pcs && Lists(pending, s.db) && t == Goto(s, w, Resume(pending))
  }

  /** The primary key turns a lost race for the row into an exception. */
  ghost predicate Insert(s: State, t: State, w: Worker) {
    && w in s.pcs && s.pcs[w].Inserting? && s.pcs[w].ev.digest.Some?
    && var ev := s.pcs[w].ev;
    t == if ev.jobId in s.db then Goto(s, w, None)
         else Goto(s.(db := s.db[ev.jobId := Row(ev.digest.value, None, false)]), w, Some(Calling(ev)))
  }

  ghost predicate Call(s: State, t: State, w: Worker, c: Completion) {
    && w in s.pcs && s.pcs[w].Calling? && s.pcs[w].ev.digest.Some?
    && var ev := s.pcs[w].ev;
    t == Goto(s.(log := s.log + [Called(ev.jobId, ev.request)]), w,
              match ResponseTo(ev, c) case None => None case Some(r) => Some(Saving(ev.jobId, r)))
  }

  ghost predicate Save(s: State, t: State, w: Worker) {
    && w in s.pcs && s.pcs[w].Saving?
    && var pc := s.pcs[w];
    t == Goto(s.(db := if pc.id in s.db then s.db[pc.id := s.db[pc.id].(response := Some(pc.response))] else s.db), w,
              Some(Submitting(pc.id, pc.response, [])))
  }

  ghost predicate Submit(s: State, t: State, w: Worker, accepted: bool) {
    && w in s.pcs && s.pcs[w].Submitting?
    && var pc := s.pcs[w];
    t == Goto(s.(log := s.log + [Submitted(pc.id, pc.response, accepted)]), w,
              if accepted then Some(Marking(pc.id, pc.rest)) else None)
  }

  ghost predicate Mark(s: State, t: State, w: Worker) {
    && w in s.pcs && s.pcs[w].Marking?
    && var pc := s.pcs[w];
    t == Goto(s.(db := if pc.id in s.db then s.db[pc.id := s.db[pc.id].(submitted := true)] else s.db), w,
              Resume(pc.rest))
  }

  ghost predicate Crash(s: State, t: State, w: Worker) {
    t == Goto(s, w, None)
  }

  ghost predicate Next(s: State, t: State) {
    exists w: Worker :: StepOf(s, t, w)
  }

  ghost predicate StepOf(s: State, t: State, w: Worker) {
    || (exists ev :: Deliver(s, t, w, ev))
    || (exists pending :: Reconnect(s, t, w, pending))
    || Insert(s, t, w)
    || (exists c :: Call(s, t, w, c))
    || Save(s, t, w)
    || (exists accepted :: Submit(s, t, w, accepted))
    || Mark(s, t, w)
    || Crash(s, t, w)
  }

  ghost predicate IsRun(run: seq<State>) {
    |run| > 0 && forall i | 0 <= i < |run| - 1 :: Next(run[i], run[i + 1])
  }

  const EMPTY := State(map[], map[], [])

  // ---- The invariant ----

  ghost predicate WasCalled(log: seq<Effect>, id: JobId) {
    exists e <- log :: e.Called? && e.id == id
  }

  ghost predicate WasAccepted(log: seq<Effect>, id: JobId) {
    exists e <- log :: e.Submitted? && e.id == id && e.accepted
  }

  ghost predicate Journaled(db: Table, id: JobId, r: Response) {
    id in db && db[id].response == Some(r)
  }

  predicate Buying(pc: Pc, id: JobId) {
    (pc.Calling? && pc.ev.jobId == id) || (pc.Saving? && pc.id == id)
  }

  ghost predicate PcOk(s: State, pc: Pc) {
    match pc
    case Inserting(ev) => Admissible(ev)
    case Calling(ev) =>
      && Admissible(ev) && !WasCalled(s.log, ev.jobId)
      && ev.jobId in s.db && s.db[ev.jobId] == Row(ev.digest.value, None, false)
    case Saving(id, r) =>
      id in s.db && s.db[id] == Row(r.requestSha256, None, false) && WasCalled(s.log, id)
    case Submitting(id, r, rest) => Journaled(s.db, id, r) && forall p <- rest :: Journaled(s.db, p.id, p.response)
    case Marking(id, rest) =>
      && id in s.db && s.db[id].response.Some? && WasAccepted(s.log, id)
      && forall p <- rest :: Journaled(s.db, p.id, p.response)
  }

  ghost predicate RowOk(s: State, id: JobId)
    requires id in s.db
  {
    var row := s.db[id];
    && (row.response.Some? ==> row.response.value.requestSha256 == row.digest && WasCalled(s.log, id))
    && (row.submitted ==> row.response.Some? && WasAccepted(s.log, id))
  }

  ghost predicate LogOk(s: State) {
    && (forall e <- s.log :: e.Called? ==> e.id in s.db)
    && (forall e <- s.log :: e.Submitted? ==> Journaled(s.db, e.id, e.response))
    && (forall i, j :: 0 <= i < j < |s.log| && s.log[i].Called? && s.log[j].Called? ==> s.log[i].id != s.log[j].id)
  }

  ghost predicate Inv(s: State) {
    && (forall w <- s.pcs :: PcOk(s, s.pcs[w]))
    && (forall w, v, id | w in s.pcs && v in s.pcs && Buying(s.pcs[w], id) && Buying(s.pcs[v], id) :: w == v)
    && (forall id <- s.db :: RowOk(s, id))
    && LogOk(s)
  }

  /** What no step ever undoes. */
  ghost predicate Extends(s: State, t: State) {
    && s.log <= t.log
    && forall id <- s.db :: id in t.db && RowExtends(s.db[id], t.db[id])
  }

  predicate RowExtends(a: Row, b: Row) {
    a.digest == b.digest && (a.response.Some? ==> b.response == a.response) && (a.submitted ==> b.submitted)
  }

  lemma WasMonotone(log: seq<Effect>, more: seq<Effect>, id: JobId)
    requires log <= more
    ensures WasCalled(log, id) ==> WasCalled(more, id)
    ensures WasAccepted(log, id) ==> WasAccepted(more, id)
  {
    assert forall e <- log :: e in more;
  }

  // ---- Every step keeps the invariant and undoes nothing ----

  /** A worker that did not move keeps its assertion as long as nobody touched the row it is buying. */
  lemma OthersKept(s: State, t: State, pc: Pc)
    requires Extends(s, t) && PcOk(s, pc)
    requires forall id | Buying(pc, id) ::
               id in t.db && t.db[id] == s.db[id] && (WasCalled(t.log, id) ==> WasCalled(s.log, id))
    ensures PcOk(t, pc)
  {
    match pc
    case Inserting(_) =>
    case Calling(ev) => assert Buying(pc, ev.jobId);
    case Saving(id, _) => assert Buying(pc, id); WasMonotone(s.log, t.log, id);
    case Submitting(_, _, _) =>
    case Marking(id, _) => WasMonotone(s.log, t.log, id);
  }

  lemma RowsKept(s: State, t: State, id: JobId)
    requires s.log <= t.log && id in s.db && id in t.db && RowOk(s, id) && t.db[id] == s.db[id]
    ensures RowOk(t, id)
  {
    WasMonotone(s.log, t.log, id);
  }

  /** A step that leaves the table and the log alone only has to account for the worker that moved. */
  lemma MoveKeeps(s: State, t: State, w: Worker, pc: Option<Pc>)
    requires Inv(s) && t == Goto(s, w, pc)
    requires pc.Some? ==> PcOk(s, pc.value) && forall id :: !Buying(pc.value, id)
    ensures Inv(t) && Extends(s, t)
  {
    forall v <- t.pcs ensures PcOk(t, t.pcs[v]) {
      OthersKept(s, t, if v == w && pc.Some? then pc.value else s.pcs[v]);
    }
    forall id <- t.db ensures RowOk(t, id) { RowsKept(s, t, id); }
  }

  lemma DeliverKeeps(s: State, t: State, w: Worker, ev: Event)
    requires Inv(s) && Deliver(s, t, w, ev)
    ensures Inv(t) && Extends(s, t)
  {
    var pc := match Decide(s.db, ev)
      case Refuse => None
      case Fresh => Some(Inserting(ev))
      case Replay(r) => Some(Submitting(ev.jobId, r, []));
    MoveKeeps(s, t, w, pc);
  }

  lemma ReconnectKeeps(s: State, t: State, w: Worker, pending: seq<Pending>)
    requires Inv(s) && Reconnect(s, t, w, pending)
    ensures Inv(t) && Extends(s, t)
  {
    if pending != [] { assert pending[0] in pending; }
    MoveKeeps(s, t, w, Resume(pending));
  }

  lemma InsertKeeps(s: State, t: State, w: Worker)
    requires Inv(s) && Insert(s, t, w)
    ensures Inv(t) && Extends(s, t)
  {
    var ev := s.pcs[w].ev;
    if ev.jobId in s.db {
      MoveKeeps(s, t, w, None);
    } else {
      assert !WasCalled(s.log, ev.jobId);
      forall v <- t.pcs | v != w ensures PcOk(t, t.pcs[v]) { OthersKept(s, t, s.pcs[v]); }
      forall id <- t.db ensures RowOk(t, id) { if id in s.db { RowsKept(s, t, id); } }
    }
  }

  lemma CallKeeps(s: State, t: State, w: Worker, c: Completion)
    requires Inv(s) && Call(s, t, w, c)
    ensures Inv(t) && Extends(s, t)
  {
    var ev := s.pcs[w].ev;
    var e := Called(ev.jobId, ev.request);
    assert t.log[|s.log|] == e && Buying(s.pcs[w], ev.jobId);
    assert WasCalled(t.log, ev.jobId) by { assert e in t.log; }
    forall v <- t.pcs | v != w ensures PcOk(t, t.pcs[v]) {
      forall id | Buying(s.pcs[v], id) ensures WasCalled(t.log, id) ==> WasCalled(s.log, id) {
        assert id != ev.jobId;
      }
      OthersKept(s, t, s.pcs[v]);
    }
    forall id <- t.db ensures RowOk(t, id) { RowsKept(s, t, id); }
    forall i | 0 <= i < |s.log| && s.log[i].Called? ensures s.log[i].id != ev.jobId {
      assert s.log[i] in s.log;
    }
  }

  lemma SaveKeeps(s: State, t: State, w: Worker)
    requires Inv(s) && Save(s, t, w)
    ensures Inv(t) && Extends(s, t)
  {
    assert Buying(s.pcs[w], s.pcs[w].id);
    forall v <- t.pcs | v != w ensures PcOk(t, t.pcs[v]) { OthersKept(s, t, s.pcs[v]); }
  }

  lemma SubmitKeeps(s: State, t: State, w: Worker, accepted: bool)
    requires Inv(s) && Submit(s, t, w, accepted)
    ensures Inv(t) && Extends(s, t)
  {
    var e := Submitted(s.pcs[w].id, s.pcs[w].response, accepted);
    assert accepted ==> WasAccepted(t.log, e.id) by { assert e in t.log; }
    forall v <- t.pcs | v != w ensures PcOk(t, t.pcs[v]) { OthersKept(s, t, s.pcs[v]); }
    forall id <- t.db ensures RowOk(t, id) { RowsKept(s, t, id); }
  }

  /** The row that gets marked has a response, so nobody is buying it. */
  lemma MarkKeepsOthers(s: State, t: State, w: Worker, v: Worker)
    requires Inv(s) && Mark(s, t, w) && Extends(s, t) && v in s.pcs && v != w
    ensures PcOk(t, s.pcs[v])
  {
    assert PcOk(s, s.pcs[w]) && PcOk(s, s.pcs[v]);
    hide Inv;
    forall id | Buying(s.pcs[v], id) ensures id != s.pcs[w].id { }
    OthersKept(s, t, s.pcs[v]);
  }

  lemma MarkKeeps(s: State, t: State, w: Worker)
    requires Inv(s) && Mark(s, t, w)
    ensures Inv(t) && Extends(s, t)
  {
    MarkKeepsRows(s, t, w);
    forall v <- t.pcs | v != w ensures PcOk(t, t.pcs[v]) { MarkKeepsOthers(s, t, w, v); }
    hide PcOk, RowOk, LogOk, Extends;
  }

  lemma MarkKeepsRows(s: State, t: State, w: Worker)
    requires Inv(s) && Mark(s, t, w)
    ensures Extends(s, t) && LogOk(t) && (forall id <- t.db :: RowOk(t, id)) && (w in t.pcs ==> PcOk(t, t.pcs[w]))
  {
    var pc := s.pcs[w];
    assert pc.rest != [] ==> pc.rest[0] in pc.rest;
    assert PcOk(s, pc);
  }

  lemma StepKeeps(s: State, t: State)
    requires Inv(s) && Next(s, t)
    ensures Inv(t) && Extends(s, t)
  {
    var w: Worker :| StepOf(s, t, w);
    if ev :| Deliver(s, t, w, ev) { DeliverKeeps(s, t, w, ev); }
    else if pending :| Reconnect(s, t, w, pending) { ReconnectKeeps(s, t, w, pending); }
    else if Insert(s, t, w) { InsertKeeps(s, t, w); }
    else if c :| Call(s, t, w, c) { CallKeeps(s, t, w, c); }
    else if Save(s, t, w) { SaveKeeps(s, t, w); }
    else if accepted :| Submit(s, t, w, accepted) { SubmitKeeps(s, t, w, accepted); }
    else if Mark(s, t, w) { MarkKeeps(s, t, w); }
    else { MoveKeeps(s, t, w, None); }
  }

  /** Who loses the race for a row gets the primary-key error, and is out before the provider call. */
  lemma RaceIsLost(s: State, t: State, w: Worker)
    requires w in s.pcs && s.pcs[w].Inserting? && s.pcs[w].ev.digest.Some? && s.pcs[w].ev.jobId in s.db
    ensures Insert(s, t, w) <==> t == State(s.db, s.pcs - {w}, s.log)
  {
  }

  // ---- What holds over every run ----

  function CallCount(log: seq<Effect>, id: JobId): nat {
    if log == [] then 0
    else (if log[0].Called? && log[0].id == id then 1 else 0) + CallCount(log[1..], id)
  }

  lemma {:induction false} NoCalls(log: seq<Effect>, id: JobId)
    ensures CallCount(log, id) == 0 <==> !WasCalled(log, id)
  {
    if log != [] {
      NoCalls(log[1..], id);
      assert forall e :: e in log <==> e == log[0] || e in log[1..];
    }
  }

  lemma {:induction false} DistinctCalls(log: seq<Effect>, id: JobId)
    requires forall i, j :: 0 <= i < j < |log| && log[i].Called? && log[j].Called? ==> log[i].id != log[j].id
    ensures CallCount(log, id) <= 1
  {
    if log != [] {
      DistinctCalls(log[1..], id);
      if log[0].Called? && log[0].id == id {
        forall i | 0 <= i < |log[1..]| ensures !(log[1..][i].Called? && log[1..][i].id == id) {
          assert log[1..][i] == log[i + 1];
        }
        NoCalls(log[1..], id);
      }
    }
  }

  lemma {:induction false} RunKeeps(run: seq<State>, i: nat, j: nat)
    requires IsRun(run) && run[0] == EMPTY && i <= j < |run|
    ensures Inv(run[j]) && Extends(run[i], run[j])
    decreases j
  {
    if j == 0 {
    } else {
      RunKeeps(run, if i == j then j - 1 else i, j - 1);
      assert Next(run[j - 1], run[j - 1 + 1]);
      StepKeeps(run[j - 1], run[j]);
    }
  }

  /** However often a job is redelivered, to however many workers, wherever they crash, it is bought at most once. */
  lemma AtMostOneCallPerJob(run: seq<State>, i: nat, id: JobId)
    requires IsRun(run) && run[0] == EMPTY && i < |run|
    ensures CallCount(run[i].log, id) <= 1
  {
    RunKeeps(run, i, i);
    DistinctCalls(run[i].log, id);
  }

  ghost predicate BeingBought(s: State, id: JobId) {
    exists w <- s.pcs :: s.pcs[w].Calling? && s.pcs[w].ev.jobId == id
  }

  /** Only the worker that inserted the row can log a provider call, and only an absent row gets such a worker. */
  lemma OnlyTheBuyerCalls(s: State, t: State, w: Worker, id: JobId)
    requires StepOf(s, t, w) && id in s.db && !BeingBought(s, id)
    ensures t.log == s.log || exists e :: t.log == s.log + [e] && !(e.Called? && e.id == id)
    ensures w in t.pcs ==> !(t.pcs[w].Calling? && t.pcs[w].ev.jobId == id)
    ensures forall v <- t.pcs :: v != w ==> v in s.pcs && t.pcs[v] == s.pcs[v]
  {
    if c :| Call(s, t, w, c) {
      var e := Called(s.pcs[w].ev.jobId, s.pcs[w].ev.request);
      assert t.log == s.log + [e];
    } else if accepted :| Submit(s, t, w, accepted) {
      var e := Submitted(s.pcs[w].id, s.pcs[w].response, accepted);
      assert t.log == s.log + [e];
    } else if Insert(s, t, w) {
    } else if Save(s, t, w) {
    } else if Mark(s, t, w) {
    } else if ev :| Deliver(s, t, w, ev) {
    } else if pending :| Reconnect(s, t, w, pending) {
    } else {
    }
  }

  lemma StepBuysNothing(s: State, t: State, id: JobId)
    requires Inv(s) && Next(s, t) && id in s.db && !BeingBought(s, id)
    ensures CallCount(t.log, id) == CallCount(s.log, id) && !BeingBought(t, id) && id in t.db
  {
    var w: Worker :| StepOf(s, t, w);
    OnlyTheBuyerCalls(s, t, w, id);
    StepKeeps(s, t);
    if t.log != s.log {
      var e :| t.log == s.log + [e] && !(e.Called? && e.id == id);
      CallCountAppend(s.log, e, id);
    }
  }

  lemma {:induction false} CallCountAppend(log: seq<Effect>, e: Effect, id: JobId)
    ensures CallCount(log + [e], id) == CallCount(log, id) + if e.Called? && e.id == id then 1 else 0
  {
    if log != [] {
      assert (log + [e])[1..] == log[1..] + [e];
      CallCountAppend(log[1..], e, id);
    }
  }

  /**
    Once a row exists and the worker that inserted it is not on its way to the provider, the provider is
    never called for that job again, whether or not the row ever gets a response.
  */
  lemma {:induction false} ExistingRowsAreNeverBought(run: seq<State>, i: nat, j: nat, id: JobId)
    requires IsRun(run) && run[0] == EMPTY && i <= j < |run|
    requires id in run[i].db && !BeingBought(run[i], id)
    ensures CallCount(run[j].log, id) == CallCount(run[i].log, id) && !BeingBought(run[j], id) && id in run[j].db
    decreases j
  {
    if i < j {
      ExistingRowsAreNeverBought(run, i, j - 1, id);
      assert Next(run[j - 1], run[j - 1 + 1]);
      RunKeeps(run, i, j - 1);
      StepBuysNothing(run[j - 1], run[j], id);
    }
  }

  /** All submissions for a job carry one response: the journaled one, made for the digest of that row. */
  lemma OneResponsePerJob(run: seq<State>, i: nat, e: Effect, f: Effect)
    requires IsRun(run) && run[0] == EMPTY && i < |run|
    requires e in run[i].log && f in run[i].log && e.Submitted? && f.Submitted? && e.id == f.id
    ensures e.response == f.response && Journaled(run[i].db, e.id, e.response)
    ensures e.response.requestSha256 == run[i].db[e.id].digest
    ensures CallCount(run[i].log, e.id) == 1
  {
    RunKeeps(run, i, i);
    assert RowOk(run[i], e.id);
    DistinctCalls(run[i].log, e.id);
    NoCalls(run[i].log, e.id);
  }

  lemma SubmittedMeansAccepted(run: seq<State>, i: nat, id: JobId)
    requires IsRun(run) && run[0] == EMPTY && i < |run| && id in run[i].db && run[i].db[id].submitted
    ensures run[i].db[id].response.Some?
    ensures Submitted(id, run[i].db[id].response.value, true) in run[i].log
  {
    RunKeeps(run, i, i);
    assert RowOk(run[i], id);
    var e :| e in run[i].log && e.Submitted? && e.id == id && e.accepted;
    assert e == Submitted(id, e.response, true);
  }

  /** Rows never vanish, digests and stored responses never change, `submitted` never falls back to 0. */
  lemma NothingIsForgotten(run: seq<State>, i: nat, j: nat, id: JobId)
    requires IsRun(run) && run[0] == EMPTY && i <= j < |run| && id in run[i].db
    ensures id in run[j].db && RowExtends(run[i].db[id], run[j].db[id])
    ensures run[i].log <= run[j].log
  {
    RunKeeps(run, i, j);
  }

  predicate CommittedFor(db: Table, e: Effect) {
    && e.id in db
    && match e
       case Called(id, _) => db[id].response.None? && !db[id].submitted
       case Submitted(id, response, _) => db[id].response == Some(response)
  }

  /** At most one thing leaves, and what it stands for is in the table before: the bare row, or the reply. */
  ghost predicate Committed(s: State, t: State) {
    t.log == s.log || exists e :: t.log == s.log + [e] && CommittedFor(s.db, e)
  }

  ghost predicate WrittenAhead(run: seq<State>) {
    forall i | 0 <= i < |run| - 1 :: Committed(run[i], run[i + 1])
  }

  lemma StepWritesAhead(s: State, t: State)
    requires Inv(s) && Next(s, t)
    ensures Committed(s, t)
  {
    var w: Worker :| StepOf(s, t, w);
    if t.log != s.log {
      assert PcOk(s, s.pcs[w]);
      hide Inv, PcOk, Decide, Lists;
      if c :| Call(s, t, w, c) {
        CallIsCommitted(s, t, w, c);
      } else if accepted :| Submit(s, t, w, accepted) {
        SubmissionIsCommitted(s, t, w, accepted);
      }
    }
  }

  lemma CallIsCommitted(s: State, t: State, w: Worker, c: Completion)
    requires Call(s, t, w, c) && PcOk(s, s.pcs[w])
    ensures Committed(s, t)
  {
    var ev := s.pcs[w].ev;
    assert t.log == s.log + [Called(ev.jobId, ev.request)];
  }

  lemma SubmissionIsCommitted(s: State, t: State, w: Worker, accepted: bool)
    requires Submit(s, t, w, accepted) && PcOk(s, s.pcs[w])
    ensures Committed(s, t)
  {
    assert t.log == s.log + [Submitted(s.pcs[w].id, s.pcs[w].response, accepted)];
  }

  /**
    The row is in the table before the provider is called and the reply before it is submitted, in the very
    state the call or submission starts from, so a crash around it cannot lose either.
  */
  lemma WriteAhead(run: seq<State>)
    requires IsRun(run) && run[0] == EMPTY
    ensures WrittenAhead(run)
  {
    forall i | 0 <= i < |run| - 1 ensures Committed(run[i], run[i + 1]) {
      RunKeeps(run, i, i);
      assert Next(run[i], run[i + 1]);
      StepWritesAhead(run[i], run[i + 1]);
    }
  }

  // ---- The Python code is a run of this machine ----

  lemma RunExtends(run: seq<State>, s: State, w: Worker)
    requires IsRun(run) && StepOf(run[|run| - 1], s, w)
    ensures IsRun(run + [s])
  {
    var longer := run + [s];
    forall i | 0 <= i < |longer| - 1 ensures Next(longer[i], longer[i + 1]) {
      if i < |run| - 1 {
        assert Next(run[i], run[i + 1]);
      } else {
        assert longer[i] == run[|run| - 1] && longer[i + 1] == s;
      }
    }
  }

  /** Whatever the workers are doing, all of them may die. */
  lemma {:induction false} AllCrash(run: seq<State>) returns (longer: seq<State>)
    requires IsRun(run)
    ensures IsRun(longer) && run <= longer
    ensures longer[|longer| - 1] == State(run[|run| - 1].db, map[], run[|run| - 1].log)
    decreases |run[|run| - 1].pcs|
  {
    longer := run;
    var s := run[|run| - 1];
    if s.pcs != map[] {
      var w :| w in s.pcs;
      var t := Goto(s, w, None);
      assert Crash(s, t, w) && t.pcs.Keys == s.pcs.Keys - {w};
      RunExtends(run, t, w);
      longer := AllCrash(run + [t]);
    }
  }

  datatype Error =
    | NotAMediatorJob | MissingIdentity | ReusedIdentity | OutcomeUnknown
    | ProviderFailed | RouteMismatch | SubmitFailed

  datatype Outcome = Done | Failed(error: Error)

  datatype Incoming = Connected | BenchmarkJob(ev: Event) | Other

  /**
    Between s and t nothing happened but submissions of journaled replies that were still pending in s,
    at most one for each: no provider call, rows without a response untouched, and a row marked only if the
    server took its reply.
  */
  ghost predicate ReplaysOnly(s: State, t: State) {
    && s.log <= t.log && s.db.Keys == t.db.Keys
    && (forall i | |s.log| <= i < |t.log| :: var e := t.log[i];
          e.Submitted? && Journaled(s.db, e.id, e.response) && !s.db[e.id].submitted)
    && (forall i, j | |s.log| <= i < j < |t.log| :: t.log[i].id != t.log[j].id)
    && (forall id <- t.db :: t.db[id] == s.db[id]
          || (s.db[id].response.Some? && t.db[id] == s.db[id].(submitted := true)
              && Submitted(id, s.db[id].response.value, true) in t.log))
  }

  /**
    What a replay does, up to the first submission that is refused: each answer is the server's, a reply that was
    taken is marked, and a replay that comes to its end leaves no row with a response unsubmitted.
  */
  ghost predicate Resubmitted(s: State, t: State, accepts: nat -> bool, r: Outcome) {
    && ReplaysOnly(s, t)
    && (forall i | |s.log| <= i < |t.log| ::
          && t.log[i].accepted == accepts(i - |s.log|)
          && (t.log[i].accepted ==> t.db[t.log[i].id].submitted)
          && (!t.log[i].accepted <==> r.Failed? && i == |t.log| - 1))
    && (r.Failed? ==> r.error == SubmitFailed && |t.log| > |s.log|)
    && (r.Done? ==> forall id <- t.db :: t.db[id].response.Some? ==> t.db[id].submitted)
  }

  /** The identity a job has to come with, and the contract it has to name. */
  predicate ForThisMediator(ev: Event) {
    ev.request.schema == "hai.benchmark.mediator/v1" && ev.request.protocolId == "v3.1"
  }

  predicate Identified(ev: Event) {
    ev.jobId != "" && ev.digest.Some? && |ev.digest.value| == 64
  }

  /** The provider has answered, with the model and on the route it was asked for. */
  predicate Delivered(ev: Event, c: Completion) {
    c.Returned? && c.reply.model == ev.request.model && c.reply.provider == ev.request.provider
  }

  /** What the provider said, under the digest of the request. */
  function Answer(ev: Event, c: Completion): Response
    requires Identified(ev) && Delivered(ev, c)
  {
    Response(message := c.reply.content, schema := "hai.benchmark.mediator/v1", requestSha256 := ev.digest.value,
             model := ev.request.model, provider := ev.request.provider,
             usage := c.reply.usage, processingMs := c.elapsedMs)
  }

  /**
    What one job does, in terms of the table and the log: nothing without the right contract and an identity,
    nothing for a known job with another digest or without a reply, a replay for one with a reply, and otherwise
    one provider call, whose answer is stored and submitted if it is what was asked for.
  */
  ghost predicate JobHandled(s: State, t: State, ev: Event, c: Completion, accepted: bool, r: Outcome) {
    var id := ev.jobId;
    && (!ForThisMediator(ev) ==> t == s && r == Failed(NotAMediatorJob))
    && (ForThisMediator(ev) && !Identified(ev) ==> t == s && r == Failed(MissingIdentity))
    && (ForThisMediator(ev) && Identified(ev) ==>
          if id in s.db then
            var row := s.db[id];
            && (row.digest != ev.digest.value ==> t == s && r == Failed(ReusedIdentity))
            && (row.digest == ev.digest.value && row.response.None? ==> t == s && r == Failed(OutcomeUnknown))
            && (row.digest == ev.digest.value && row.response.Some? ==>
                  && t.log == s.log + [Submitted(id, row.response.value, accepted)]
                  && t.db == s.db[id := row.(submitted := row.submitted || accepted)]
                  && r == if accepted then Done else Failed(SubmitFailed))
          else if Delivered(ev, c) then
            && t.log == s.log + [Called(id, ev.request), Submitted(id, Answer(ev, c), accepted)]
            && t.db == s.db[id := Row(ev.digest.value, Some(Answer(ev, c)), accepted)]
            && r == if accepted then Done else Failed(SubmitFailed)
          else
            && t.log == s.log + [Called(id, ev.request)] && t.db == s.db[id := Row(ev.digest.value, None, false)]
            && r == Failed(if c.Raised? then ProviderFailed else RouteMismatch))
  }

  /** What one event does to the journal and the log. */
  ghost predicate EventHandled(s: State, t: State, event: Incoming, c: Completion, accepts: nat -> bool, r: Outcome) {
    match event
    case Connected => Resubmitted(s, t, accepts, r)
    case BenchmarkJob(ev) => JobHandled(s, t, ev, c, accepts(0), r)
    case Other => t == s && r == Done
  }

  /** The first i pending replies have gone out and were taken. */
  ghost predicate Replayed(s: State, t: State, pending: seq<Pending>, i: nat)
    requires i <= |pending|
  {
    && ReplaysOnly(s, t) && |t.log| == |s.log| + i
    && forall k | 0 <= k < i ::
         && t.log[|s.log| + k] == Submitted(pending[k].id, pending[k].response, true)
         && pending[k].id in t.db && t.db[pending[k].id].submitted
  }

  lemma ReplayedNone(s: State, pending: seq<Pending>)
    ensures Replayed(s, s, pending, 0)
  {
  }

  lemma ReplayedOne(s: State, t: State, u: State, pending: seq<Pending>, i: nat, accepted: bool)
    requires Lists(pending, s.db) && i < |pending| && Replayed(s, t, pending, i)
    requires u.log == t.log + [Submitted(pending[i].id, pending[i].response, accepted)]
    requires u.db == if accepted then t.db[pending[i].id := t.db[pending[i].id].(submitted := true)] else t.db
    ensures |u.log| > |s.log| && ReplaysOnly(s, u) && (accepted ==> Replayed(s, u, pending, i + 1))
  {
    assert pending[i] in pending;
    ReplayedRows(s, t, u, pending[i], accepted);
    assert forall k | 0 <= k < i :: pending[k].id != pending[i].id;
    ReplayedLog(s, t, u, pending, i);
    hide Lists;
  }

  lemma ReplayedLog(s: State, t: State, u: State, pending: seq<Pending>, i: nat)
    requires i < |pending| && Replayed(s, t, pending, i)
    requires forall k | 0 <= k < i :: pending[k].id != pending[i].id
    requires |u.log| == |t.log| + 1 && t.log <= u.log && u.log[|t.log|].id == pending[i].id
    ensures forall j, k | |s.log| <= j < k < |u.log| :: u.log[j].id != u.log[k].id
  {
    forall j, k | |s.log| <= j < k < |u.log| ensures u.log[j].id != u.log[k].id {
      assert u.log[j] == t.log[j];
      if k == |t.log| {
        assert pending[j - |s.log|].id == t.log[|s.log| + (j - |s.log|)].id;
      } else {
        assert u.log[k] == t.log[k];
      }
    }
  }

  lemma ReplayedRows(s: State, t: State, u: State, p: Pending, accepted: bool)
    requires ReplaysOnly(s, t) && Journaled(s.db, p.id, p.response)
    requires u.log == t.log + [Submitted(p.id, p.response, accepted)]
    requires u.db == if accepted then t.db[p.id := t.db[p.id].(submitted := true)] else t.db
    ensures s.db.Keys == u.db.Keys
    ensures forall id <- u.db ::
              || u.db[id] == s.db[id]
              || (s.db[id].response.Some? && u.db[id] == s.db[id].(submitted := true)
                  && Submitted(id, s.db[id].response.value, true) in u.log)
  {
    assert forall e <- t.log :: e in u.log;
    assert Submitted(p.id, p.response, accepted) in u.log;
  }

  lemma ReplayedAll(s: State, t: State, pending: seq<Pending>, accepts: nat -> bool)
    requires Lists(pending, s.db) && Replayed(s, t, pending, |pending|) && forall k | 0 <= k < |pending| :: accepts(k)
    ensures Resubmitted(s, t, accepts, Done)
  {
    forall id <- t.db | t.db[id].response.Some? ensures t.db[id].submitted {
      if !s.db[id].submitted { assert Pending(id, s.db[id].response.value) in pending; }
    }
    AcceptedOnes(s, t, pending, |pending|);
    hide Lists, Replayed, ReplaysOnly;
  }

  /** The entries behind the first i submissions, one by one. */
  lemma AcceptedOnes(s: State, t: State, pending: seq<Pending>, i: nat)
    requires i <= |pending| && Replayed(s, t, pending, i)
    ensures |t.log| == |s.log| + i && t.db.Keys == s.db.Keys
    ensures forall j | |s.log| <= j < |t.log| ::
              t.log[j].Submitted? && t.log[j].accepted && t.log[j].id in t.db && t.db[t.log[j].id].submitted
  {
    forall j | |s.log| <= j < |t.log|
      ensures t.log[j].Submitted? && t.log[j].accepted && t.log[j].id in t.db && t.db[t.log[j].id].submitted
    {
      var k := j - |s.log|;
      assert t.log[|s.log| + k] == Submitted(pending[k].id, pending[k].response, true);
    }
  }

  lemma ReplayFailed(s: State, t: State, u: State, pending: seq<Pending>, i: nat, accepts: nat -> bool)
    requires i < |pending| && Replayed(s, t, pending, i) && ReplaysOnly(s, u)
    requires u.log == t.log + [Submitted(pending[i].id, pending[i].response, false)] && u.db == t.db
    requires !accepts(i) && forall k | 0 <= k < i :: accepts(k)
    ensures Resubmitted(s, u, accepts, Failed(SubmitFailed))
  {
    AcceptedOnes(s, t, pending, i);
    hide Replayed;
  }

  lemma ReplayedMoved(s: State, t: State, pending: seq<Pending>)
    requires Replayed(s, s, pending, 0) && t.db == s.db && t.log == s.log
    ensures Replayed(s, t, pending, 0)
  {
  }

  /** What is still to be replayed has not been touched. */
  lemma StillJournaled(s: State, t: State, pending: seq<Pending>, i: nat)
    requires Lists(pending, s.db) && i < |pending| && Replayed(s, t, pending, i)
    ensures Journaled(t.db, pending[i].id, pending[i].response)
  {
    assert pending[i] in pending;
  }

  /**
    One worker process. `jobs` is the SQLite table and `log` what has left the process; the ghost fields say
    where the worker is and which states it has been through. Only the primitives at the top (the commits,
    the provider call, the submission) touch these fields, and each adds the state it leaves to the trace.
  */
  class Mediator {
    var jobs: Table
    var log: seq<Effect>
    ghost var pc: Option<Pc>
    ghost var trace: seq<State>

    ghost function World(): State
      reads this
    {
      State(jobs, if pc.Some? then map[0 := pc.value] else map[], log)
    }

    /** Everything up to now was a run of the machine, from the empty table on. */
    ghost predicate Valid()
      reads this
    {
      trace != [] && IsRun(trace) && trace[0] == EMPTY && trace[|trace| - 1] == World()
    }

    ghost predicate Idle()
      reads this
    {
      Valid() && pc.None?
    }

    /** A process starts on the empty journal, or on what is left after all earlier workers died, wherever they were. */
    constructor Open(table: Table, sent: seq<Effect>, ghost past: seq<State>)
      requires past != [] && IsRun(past) && past[0] == EMPTY
      requires past[|past| - 1].db == table && past[|past| - 1].log == sent
      ensures Idle() && jobs == table && log == sent && past <= trace
    {
      jobs, log, pc := table, sent, None;
      ghost var run := AllCrash(past);
      trace := run;
    }

    // ---- The primitives ----

    /** An event or a reconnect sets the worker going. */
    ghost method Begin(next: Pc)
      requires Idle()
      requires (exists ev :: Deliver(World(), Goto(World(), 0, Some(next)), 0, ev))
            || (exists pending :: Reconnect(World(), Goto(World(), 0, Some(next)), 0, pending))
      modifies this`pc, this`trace
      ensures Valid() && pc == Some(next) && trace == old(trace) + [World()]
    {
      RunExtends(trace, Goto(World(), 0, Some(next)), 0);
      pc := Some(next);
      trace := trace + [World()];
    }

    /** Commits the bare row. */
    method InsertRow(ghost ev: Event, id: JobId, digest: string)
      requires Valid() && pc == Some(Inserting(ev)) && id == ev.jobId && ev.digest == Some(digest) && id !in jobs
      modifies this
      ensures Valid() && pc == Some(Calling(ev)) && trace == old(trace) + [World()]
      ensures jobs == old(jobs)[id := Row(digest, None, false)] && log == old(log)
    {
      jobs, pc := jobs[id := Row(digest, None, false)], Some(Calling(ev));
      assert Insert(trace[|trace| - 1], World(), 0);
      RunExtends(trace, World(), 0);
      trace := trace + [World()];
    }

    /** Calls the provider, for a job whose bare row is in the table. */
    method CallProvider(ev: Event, completion: Completion)
      requires Valid() && pc == Some(Calling(ev)) && ev.digest.Some?
      requires ev.jobId in jobs && jobs[ev.jobId] == Row(ev.digest.value, None, false)
      modifies this
      ensures Valid() && trace == old(trace) + [World()]
      ensures pc == match ResponseTo(ev, completion) case None => None case Some(r) => Some(Saving(ev.jobId, r))
      ensures log == old(log) + [Called(ev.jobId, ev.request)] && jobs == old(jobs)
    {
      log := log + [Called(ev.jobId, ev.request)];
      pc := match ResponseTo(ev, completion) case None => None case Some(r) => Some(Saving(ev.jobId, r));
      assert Call(trace[|trace| - 1], World(), 0, completion);
      RunExtends(trace, World(), 0);
      trace := trace + [World()];
    }

    /** Commits the reply. */
    method SaveResponse(id: JobId, response: Response)
      requires Valid() && pc == Some(Saving(id, response)) && id in jobs
      modifies this
      ensures Valid() && pc == Some(Submitting(id, response, [])) && trace == old(trace) + [World()]
      ensures jobs == old(jobs)[id := old(jobs)[id].(response := Some(response))] && log == old(log)
    {
      jobs, pc := jobs[id := jobs[id].(response := Some(response))], Some(Submitting(id, response, []));
      assert Save(trace[|trace| - 1], World(), 0);
      RunExtends(trace, World(), 0);
      trace := trace + [World()];
    }

    /** Submits a reply that is in the table. */
    method SubmitResponse(id: JobId, response: Response, ghost rest: seq<Pending>, accepted: bool)
      requires Valid() && pc == Some(Submitting(id, response, rest)) && Journaled(jobs, id, response)
      modifies this
      ensures Valid() && pc == (if accepted then Some(Marking(id, rest)) else None) && trace == old(trace) + [World()]
      ensures log == old(log) + [Submitted(id, response, accepted)] && jobs == old(jobs)
    {
      log, pc := log + [Submitted(id, response, accepted)], if accepted then Some(Marking(id, rest)) else None;
      assert Submit(trace[|trace| - 1], World(), 0, accepted);
      RunExtends(trace, World(), 0);
      trace := trace + [World()];
    }

    /** Commits that the server has taken the reply. */
    method MarkSubmitted(id: JobId, ghost rest: seq<Pending>)
      requires Valid() && pc == Some(Marking(id, rest)) && id in jobs
      modifies this
      ensures Valid() && pc == Resume(rest) && trace == old(trace) + [World()]
      ensures jobs == old(jobs)[id := old(jobs)[id].(submitted := true)] && log == old(log)
    {
      jobs, pc := jobs[id := jobs[id].(submitted := true)], Resume(rest);
      assert Mark(trace[|trace| - 1], World(), 0);
      RunExtends(trace, World(), 0);
      trace := trace + [World()];
    }

    // ---- The functions of the program ----

    /** `completion` is what the provider does if it is called, `accepted` whether the submission goes through. */
    method HandleJob(ev: Event, completion: Completion, accepted: bool) returns (r: Outcome)
      requires Idle()
      modifies this
      ensures Idle() && old(trace) <= trace
      ensures JobHandled(old(World()), World(), ev, completion, accepted, r)
      ensures log == old(log) ==> trace == old(trace) && jobs == old(jobs) && r.Failed?
      ensures log != old(log) ==>
                && ev.request.schema == "hai.benchmark.mediator/v1" && ev.request.protocolId == "v3.1"
                && ev.jobId != "" && ev.digest.Some? && |ev.digest.value| == 64
      ensures log != old(log) && ev.jobId in old(jobs) ==>
                && old(jobs)[ev.jobId].digest == ev.digest.value && old(jobs)[ev.jobId].response.Some?
                && log == old(log) + [Submitted(ev.jobId, old(jobs)[ev.jobId].response.value, accepted)]
      ensures log != old(log) && ev.jobId !in old(jobs) ==>
                && log[|old(log)|] == Called(ev.jobId, ev.request)
                && if completion.Returned? && completion.reply.model == ev.request.model
                      && completion.reply.provider == ev.request.provider
                   then log[|old(log)| + 1..] ==
                        [Submitted(ev.jobId,
                                   Response(message := completion.reply.content, schema := "hai.benchmark.mediator/v1",
                                            requestSha256 := ev.digest.value, model := ev.request.model,
                                            provider := ev.request.provider, usage := completion.reply.usage,
                                            processingMs := completion.elapsedMs), accepted)]
                   else log[|old(log)| + 1..] == []
    {
      hide IsRun;
      if ev.request.schema != CONTRACT || ev.request.protocolId != PROTOCOL { return Failed(NotAMediatorJob); }
      if ev.jobId == "" || ev.digest.None? || |ev.digest.value| != 64 { return Failed(MissingIdentity); }
      var id := ev.jobId;
      var response;
      if id in jobs {
        if jobs[id].digest != ev.digest.value { return Failed(ReusedIdentity); }
        if jobs[id].response.None? { return Failed(OutcomeUnknown); }
        response := jobs[id].response.value;
        assert Deliver(World(), Goto(World(), 0, Some(Submitting(id, response, []))), 0, ev);
        Begin(Submitting(id, response, []));
      } else {
        var bought := Buy(ev, completion);
        if bought.Err? { return Failed(bought.error); }
        response := bought.value;
      }
      r := SubmitOne(id, response, [], accepted);
    }

    /** The branch for a job with no row: commit the row, call the provider, commit its reply, in this order. */
    method Buy(ev: Event, completion: Completion) returns (r: Result<Response, Error>)
      requires Idle() && Admissible(ev) && ev.jobId !in jobs
      modifies this
      ensures Valid() && pc == if r.Ok? then Some(Submitting(ev.jobId, r.value, [])) else None
      ensures r == if Delivered(ev, completion) then Ok(Answer(ev, completion))
                   else Err(if completion.Raised? then ProviderFailed else RouteMismatch)
      ensures var bare := old(jobs)[ev.jobId := Row(ev.digest.value, None, false)];
              var called := old(log) + [Called(ev.jobId, ev.request)];
              && |trace| == |old(trace)| + (if r.Ok? then 4 else 3) && old(trace) <= trace
              && (trace[|old(trace)|].db, trace[|old(trace)|].log) == (old(jobs), old(log))
              && (trace[|old(trace)| + 1].db, trace[|old(trace)| + 1].log) == (bare, old(log))
              && (trace[|old(trace)| + 2].db, trace[|old(trace)| + 2].log) == (bare, called)
              && log == called
      ensures jobs == old(jobs)[ev.jobId := Row(ev.digest.value, if r.Ok? then Some(r.value) else None, false)]
    {
      hide IsRun;
      var id, digest := ev.jobId, ev.digest.value;
      assert Deliver(World(), Goto(World(), 0, Some(Inserting(ev))), 0, ev);
      Begin(Inserting(ev));
      InsertRow(ev, id, digest);
      CallProvider(ev, completion);
      if completion.Raised? { return Err(ProviderFailed); }
      var reply := completion.reply;
      if reply.model != ev.request.model || reply.provider != ev.request.provider { return Err(RouteMismatch); }
      var response := Response(reply.content, CONTRACT, digest, reply.model, reply.provider, reply.usage,
                               completion.elapsedMs);
      SaveResponse(id, response);
      r := Ok(response);
    }

    /** One submission and then, if the server took it, the commit of `submitted=1`. */
    method SubmitOne(id: JobId, response: Response, ghost rest: seq<Pending>, accepted: bool) returns (r: Outcome)
      requires Valid() && pc == Some(Submitting(id, response, rest)) && Journaled(jobs, id, response)
      modifies this
      ensures Valid() && pc == if accepted then Resume(rest) else None
      ensures r == if accepted then Done else Failed(SubmitFailed)
      ensures log == old(log) + [Submitted(id, response, accepted)]
      ensures jobs == if accepted then old(jobs)[id := old(jobs)[id].(submitted := true)] else old(jobs)
      ensures |trace| == |old(trace)| + (if accepted then 2 else 1) && old(trace) <= trace
      ensures (trace[|old(trace)|].db, trace[|old(trace)|].log) == (old(jobs), log)
    {
      hide IsRun;
      SubmitResponse(id, response, rest, accepted);
      if !accepted { return Failed(SubmitFailed); }
      MarkSubmitted(id, rest);
      r := Done;
    }

    /** The rows that have a reply and are not submitted, in an order the database leaves open. */
    method FetchPending() returns (pending: seq<Pending>)
      ensures Lists(pending, jobs)
    {
      pending := [];
      var left := set id | id in jobs && jobs[id].response.Some? && !jobs[id].submitted;
      while left != {}
        invariant forall p <- pending ::
                    p.id in jobs && jobs[p.id].response == Some(p.response) && !jobs[p.id].submitted
        invariant forall id <- left :: id in jobs && jobs[id].response.Some? && !jobs[id].submitted
        invariant forall p <- pending :: p.id !in left
        invariant forall i, j | 0 <= i < j < |pending| :: pending[i].id != pending[j].id
        invariant forall id <- jobs :: jobs[id].response.Some? && !jobs[id].submitted ==>
                                         id in left || Pending(id, jobs[id].response.value) in pending
      {
        var id :| id in left;
        pending, left := pending + [Pending(id, jobs[id].response.value)], left - {id};
      }
    }

    /** `accepts(i)` is the server's answer to the i-th submission of this replay. */
    method ResubmitPending(accepts: nat -> bool) returns (r: Outcome)
      requires Idle()
      modifies this
      ensures Idle() && old(trace) <= trace
      ensures Resubmitted(old(World()), World(), accepts, r)
    {
      hide IsRun, Replayed, ReplaysOnly, Resubmitted, Lists;
      ghost var start := World();
      var pending := FetchPending();
      if pending != [] {
        assert Reconnect(World(), Goto(World(), 0, Resume(pending)), 0, pending);
        Begin(Resume(pending).value);
      }
      ReplayedNone(start, pending);
      ReplayedMoved(start, World(), pending);
      for i := 0 to |pending|
        invariant Valid() && old(trace) <= trace && pc == Resume(pending[i..])
        invariant Replayed(start, World(), pending, i)
        invariant forall k | 0 <= k < i :: accepts(k)
      {
        var p := pending[i];
        assert pending[i..][1..] == pending[i + 1..];
        ghost var before := World();
        StillJournaled(start, before, pending, i);
        r := SubmitOne(p.id, p.response, pending[i + 1..], accepts(i));
        ReplayedOne(start, before, World(), pending, i, accepts(i));
        if r.Failed? {
          ReplayFailed(start, before, World(), pending, i, accepts);
          return;
        }
      }
      assert pending[|pending|..] == [];
      ReplayedAll(start, World(), pending, accepts);
      r := Done;
    }

    /**
      The event loop of `main`: `worlds` are the states between the events, each of which does what it should, and
      the first failure ends the process. Whatever events arrive, on whatever journal the process was started, no
      job is bought twice, nothing goes out before it is committed, and nothing in the journal is undone.
    */
    method Serve(events: seq<Incoming>, completions: nat -> Completion, accepts: (nat, nat) -> bool)
      returns (r: Outcome, ghost worlds: seq<State>)
      requires Idle()
      modifies this
      ensures Idle() && old(trace) <= trace && Extends(old(World()), World())
      ensures 0 < |worlds| <= |events| + 1 && worlds[0] == old(World()) && worlds[|worlds| - 1] == World()
      ensures forall i | 0 <= i < |worlds| - 1 ::
                EventHandled(worlds[i], worlds[i + 1], events[i], completions(i), (k: nat) => accepts(i, k),
                             if i < |worlds| - 2 then Done else r)
      ensures r.Done? ==> |worlds| == |events| + 1
      ensures WrittenAhead(trace)
      ensures forall id :: CallCount(log, id) <= 1
    {
      hide IsRun, WrittenAhead, Extends, CallCount, EventHandled;
      r := Done;
      worlds := [World()];
      var i := 0;
      while i < |events| && r.Done?
        invariant Idle() && old(trace) <= trace
        invariant 0 <= i <= |events| && |worlds| == i + 1 && worlds[0] == old(World()) && worlds[i] == World()
        invariant forall j | 0 <= j < i ::
                    EventHandled(worlds[j], worlds[j + 1], events[j], completions(j), (k: nat) => accepts(j, k),
                                 if j < i - 1 then Done else r)
        decreases |events| - i
      {
        ghost var before := World();
        match events[i] {
          case Connected => r := ResubmitPending((k: nat) => accepts(i, k));
          case BenchmarkJob(ev) => r := HandleJob(ev, completions(i), accepts(i, 0));
          case Other => r := Done;
        }
        assert EventHandled(before, World(), events[i], completions(i), (k: nat) => accepts(i, k), r) by {
          EventIs(before, World(), events[i], completions(i), (k: nat) => accepts(i, k), r);
        }
        worlds := worlds + [World()];
        i := i + 1;
      }
      WriteAhead(trace);
      RunKeeps(trace, |old(trace)| - 1, |trace| - 1);
      forall id ensures CallCount(log, id) <= 1 { AtMostOneCallPerJob(trace, |trace| - 1, id); }
    }
  }

  lemma EventIs(s: State, t: State, event: Incoming, c: Completion, accepts: nat -> bool, r: Outcome)
    requires event.Connected? ==> Resubmitted(s, t, accepts, r)
    requires event.BenchmarkJob? ==> JobHandled(s, t, event.ev, c, accepts(0), r)
    requires event.Other? ==> t == s && r == Done
    ensures EventHandled(s, t, event, c, accepts, r)
  {
  }
}
