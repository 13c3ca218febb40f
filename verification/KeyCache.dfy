/**
  The Go client's cache of agent keys: four lookups share one map, `get` gives up the lock between
  reading an expired entry and deleting it, and any number of goroutines fetch at once.
*/
module KeyCache {
  import opened Wrappers

  type Time = nat
  type Info = string
  type Thread = nat

  /** Five minutes, in nanoseconds. */
  const TTL: nat := 300000000000

  datatype Lookup =
    | Remote(agentId: string, version: string) | Hash(hash: string) | Email(email: string) | Domain(domain: string)

  function CacheKey(l: Lookup): string {
    match l
    case Remote(a, v) => "remote:" + a + ":" + v
    case Hash(h) => "hash:" + h
    case Email(e) => "email:" + e
    case Domain(d) => "domain:" + d
  }

  datatype Entry = Entry(info: Info, cachedAt: Time)

  type Entries = map<string, Entry>

  predicate Expired(e: Entry, now: Time) {
    now - e.cachedAt >= TTL
  }

  // ---- The cache object ----

  class Cache {
    var entries: Entries

    constructor ()
      ensures entries == map[]
    {
      entries := map[];
    }

    /** The read-locked section of `get`. */
    method Peek(key: string) returns (e: Option<Entry>)
      ensures e == if key in entries then Some(entries[key]) else None
    {
      e := if key in entries then Some(entries[key]) else None;
    }

    /** The write-locked section of `get`. */
    method Evict(key: string)
      modifies this
      ensures entries == old(entries) - {key}
    {
      entries := entries - {key};
    }

    /** `get` when nobody else holds the lock in between. */
    method Get(key: string, now: Time) returns (info: Option<Info>)
      modifies this
      ensures info.Some? <==> key in old(entries) && now - old(entries)[key].cachedAt < 5 * 60 * 1000000000
      ensures info.Some? ==> info.value == old(entries)[key].info && entries == old(entries)
      ensures info.None? ==> entries == old(entries) - {key}
    {
      var e := Peek(key);
      if e.None? {
        assert entries - {key} == entries;
        return None;
      }
      if now - e.value.cachedAt >= TTL {
        Evict(key);
        return None;
      }
      return Some(e.value.info);
    }

    method Set(key: string, info: Info, now: Time)
      modifies this
      ensures entries == old(entries)[key := Entry(info, now)]
    {
      entries := entries[key := Entry(info, now)];
    }

    method Clear()
      modifies this
      ensures entries == map[]
    {
      entries := map[];
    }

    /** One of the four Fetch methods, alone: `reply` is what the backend and the parser make of this lookup. */
    method Fetch(l: Lookup, reply: Option<Info>, now: Time, later: Time) returns (info: Option<Info>, asked: bool)
      requires now <= later
      modifies this
      ensures asked <==> !(&& CacheKey(l) in old(entries)
                           && now - old(entries)[CacheKey(l)].cachedAt < 5 * 60 * 1000000000)
      ensures info == if asked then reply else Some(old(entries)[CacheKey(l)].info)
      ensures asked && reply.Some? ==> entries == old(entries)[CacheKey(l) := Entry(reply.value, later)]
      ensures asked && reply.None? ==> entries == old(entries) - {CacheKey(l)}
      ensures !asked ==> entries == old(entries)
    {
      info := Get(CacheKey(l), now);
      asked := info.None?;
      if asked {
        info := reply;
        if info.Some? {
          Set(CacheKey(l), info.value, later);
          assert entries == old(entries)[CacheKey(l) := Entry(reply.value, later)];
        }
      }
    }
  }

  // ---- Which lookups share a key ----

  lemma {:induction false} SplitAtColon(a: string, v: string, b: string, w: string)
    requires a + ":" + v == b + ":" + w && ':' !in a && ':' !in b
    ensures a == b && v == w
  {
    var s := a + ":" + v;
    assert s[0] == (if a == "" then ':' else a[0]) == (if b == "" then ':' else b[0]);
    assert a != "" ==> a[0] in a;
    assert b != "" ==> b[0] in b;
    if a == "" || b == "" {
      assert (a + ":" + v)[1..] == v;
      assert (b + ":" + w)[1..] == w;
    } else {
      assert s[0] == a[0] == b[0];
      assert s[1..] == a[1..] + ":" + v && s[1..] == b[1..] + ":" + w;
      SplitAtColon(a[1..], v, b[1..], w);
      assert a == [a[0]] + a[1..] && b == [b[0]] + b[1..];
    }
  }

  /** The four namespaces never meet, and within the last three a key names one lookup. */
  lemma NamespacesDisjoint(l: Lookup, m: Lookup)
    requires CacheKey(l) == CacheKey(m)
    ensures l == m || (l.Remote? && m.Remote? && l.agentId + ":" + l.version == m.agentId + ":" + m.version)
  {
    var k := CacheKey(l);
    assert l.Remote? ==> k[..7] == "remote:" && k[7..] == l.agentId + ":" + l.version;
    assert m.Remote? ==> k[..7] == "remote:" && k[7..] == m.agentId + ":" + m.version;
    assert l.Hash? ==> k[..5] == "hash:" && k[5..] == l.hash;
    assert m.Hash? ==> k[..5] == "hash:" && k[5..] == m.hash;
    assert l.Email? ==> k[..6] == "email:" && k[6..] == l.email;
    assert m.Email? ==> k[..6] == "email:" && k[6..] == m.email;
    assert l.Domain? ==> k[..7] == "domain:" && k[7..] == l.domain;
    assert m.Domain? ==> k[..7] == "domain:" && k[7..] == m.domain;
    assert "remote:"[0] == 'r' && "hash:"[0] == 'h' && "email:"[0] == 'e' && "domain:"[0] == 'd';
    assert l.Remote? ==> k[0] == 'r';
    assert m.Remote? ==> k[0] == 'r';
    assert l.Hash? ==> k[0] == 'h';
    assert m.Hash? ==> k[0] == 'h';
    assert l.Email? ==> k[0] == 'e';
    assert m.Email? ==> k[0] == 'e';
    assert l.Domain? ==> k[0] == 'd';
    assert m.Domain? ==> k[0] == 'd';
  }

  predicate Ambiguous(l: Lookup) {
    l.Remote? && (':' in l.agentId || ':' in l.version)
  }

  lemma AtColon(s: string) returns (x: string, y: string)
    requires ':' in s
    ensures s == x + ":" + y
  {
    var i :| 0 <= i < |s| && s[i] == ':';
    x, y := s[..i], s[i + 1..];
  }

  /** A lookup shares its key with some other lookup exactly when it is a remote one with a ':' in its id or version. */
  lemma SharedKeyIff(l: Lookup)
    ensures (exists m: Lookup :: m != l && CacheKey(m) == CacheKey(l)) <==> Ambiguous(l)
  {
    if Ambiguous(l) {
      var m;
      if ':' in l.agentId {
        var x, y := AtColon(l.agentId);
        m := Remote(x, y + ":" + l.version);
        assert "remote:" + x + ":" + (y + ":" + l.version) == "remote:" + (x + ":" + y) + ":" + l.version;
        assert |m.agentId| < |l.agentId|;
      } else {
        var x, y := AtColon(l.version);
        m := Remote(l.agentId + ":" + x, y);
        assert "remote:" + (l.agentId + ":" + x) + ":" + y == "remote:" + l.agentId + ":" + (x + ":" + y);
        assert |m.agentId| > |l.agentId|;
      }
      assert m != l && CacheKey(m) == CacheKey(l);
    } else {
      forall m: Lookup | CacheKey(m) == CacheKey(l) ensures m == l { KeyNames(l, m); }
    }
  }

  lemma KeyNames(l: Lookup, m: Lookup)
    requires !Ambiguous(l) && CacheKey(m) == CacheKey(l)
    ensures m == l
  {
    NamespacesDisjoint(l, m);
    if l.Remote? && m != l {
      ColonCount(l.agentId, l.version);
      ColonCount(m.agentId, m.version);
      SplitAtColon(l.agentId, l.version, m.agentId, m.version);
    }
  }

  predicate PlainId(l: Lookup) {
    l.Remote? ==> ':' !in l.agentId
  }

  /** Agent ids without ':' are enough: two such lookups never share a key, whatever their versions. */
  lemma PlainIdsNeverMeet(l: Lookup, m: Lookup)
    requires PlainId(l) && PlainId(m) && CacheKey(l) == CacheKey(m)
    ensures l == m
  {
    NamespacesDisjoint(l, m);
    if l.Remote? && m != l { SplitAtColon(l.agentId, l.version, m.agentId, m.version); }
  }

  function Colons(s: string): nat {
    if s == "" then 0 else (if s[0] == ':' then 1 else 0) + Colons(s[1..])
  }

  lemma {:induction false} ColonCount(a: string, v: string)
    ensures Colons(a + ":" + v) == Colons(a) + 1 + Colons(v)
    ensures Colons(a) == 0 <==> ':' !in a
    ensures Colons(v) == 0 <==> ':' !in v
  {
    ColonFree(a);
    ColonFree(v);
    ColonAppend(a, ":" + v);
    assert (":" + v)[1..] == v && a + ":" + v == a + (":" + v);
  }

  lemma {:induction false} ColonFree(s: string)
    ensures Colons(s) == 0 <==> ':' !in s
  {
    if s != "" {
      ColonFree(s[1..]);
      assert s == [s[0]] + s[1..];
    }
  }

  lemma {:induction false} ColonAppend(s: string, t: string)
    ensures Colons(s + t) == Colons(s) + Colons(t)
  {
    if s == "" {
      assert s + t == t;
    } else {
      assert (s + t)[1..] == s[1..] + t;
      ColonAppend(s[1..], t);
    }
  }

  // ---- Concurrent fetches ----

  /** Where a Fetch call is, between two of its locked sections or calls. */
  datatype Pc =
    | Peeking(l: Lookup)
    | CheckingAge(l: Lookup, entry: Entry)
    | Evicting(l: Lookup)
    | Asking(l: Lookup)
    | Storing(l: Lookup, info: Info)

  /** A parsed backend reply, and when it came; or a `set`, and when it was done. */
  datatype Reply = Reply(l: Lookup, info: Info, at: Time)

  /** What a Fetch call returned; for a cached result, when it was stored and when its age was checked. */
  datatype Answer =
    | FromCache(l: Lookup, info: Info, storedAt: Time, checkedAt: Time)
    | FromBackend(l: Lookup, info: Info)
    | Failed(l: Lookup)

  datatype State = State(entries: Entries, now: Time, pcs: map<Thread, Pc>,
                         replies: seq<Reply>, stores: seq<Reply>, answers: seq<Answer>)

  const INITIAL := State(map[], 0, map[], [], [], [])

  datatype Action =
    | Start(t: Thread, l: Lookup) | Peek(t: Thread) | CheckAge(t: Thread) | Evict(t: Thread)
    | Ask(t: Thread, reply: Option<Info>) | Store(t: Thread) | Clear | Tick(elapsed: nat)

  function Finish(s: State, t: Thread, a: Answer): State {
    s.(pcs := s.pcs - {t}, answers := s.answers + [a])
  }

  function Goto(s: State, t: Thread, pc: Pc): State {
    s.(pcs := s.pcs[t := pc])
  }

  function Step(s: State, a: Action): Option<State> {
    match a
    case Clear => Some(s.(entries := map[]))
    case Tick(elapsed) => Some(s.(now := s.now + elapsed))
    case Start(t, l) => if t in s.pcs then None else Some(Goto(s, t, Peeking(l)))
    case Peek(t) =>
      if t !in s.pcs || !s.pcs[t].Peeking? then None
      else
        var l := s.pcs[t].l;
        Some(Goto(s, t, if CacheKey(l) in s.entries then CheckingAge(l, s.entries[CacheKey(l)]) else Asking(l)))
    case CheckAge(t) =>
      if t !in s.pcs || !s.pcs[t].CheckingAge? then None
      else
        var (l, e) := (s.pcs[t].l, s.pcs[t].entry);
        Some(if Expired(e, s.now) then Goto(s, t, Evicting(l))
             else Finish(s, t, FromCache(l, e.info, e.cachedAt, s.now)))
    case Evict(t) =>
      if t !in s.pcs || !s.pcs[t].Evicting? then None
      else Some(Goto(s.(entries := s.entries - {CacheKey(s.pcs[t].l)}), t, Asking(s.pcs[t].l)))
    case Ask(t, reply) =>
      if t !in s.pcs || !s.pcs[t].Asking? then None
      else
        var l := s.pcs[t].l;
        Some(match reply
             case None => Finish(s, t, Failed(l))
             case Some(info) => Goto(s.(replies := s.replies + [Reply(l, info, s.now)]), t, Storing(l, info)))
    case Store(t) =>
      if t !in s.pcs || !s.pcs[t].Storing? then None
      else
        var (l, info) := (s.pcs[t].l, s.pcs[t].info);
        Some(Finish(s.(entries := s.entries[CacheKey(l) := Entry(info, s.now)],
                       stores := s.stores + [Reply(l, info, s.now)]), t, FromBackend(l, info)))
  }

  function Run(actions: seq<Action>): Option<State> {
    if actions == [] then Some(INITIAL)
    else match Run(actions[..|actions| - 1])
      case None => None
      case Some(s) => Step(s, actions[|actions| - 1])
  }

  /** Some lookup with this key stored this, exactly then. */
  ghost predicate Stored(s: State, key: string, e: Entry) {
    exists st <- s.stores :: CacheKey(st.l) == key && Entry(st.info, st.at) == e
  }

  /** What was stored was a reply to the lookup that stored it, no younger than the store. */
  ghost predicate Replied(s: State, l: Lookup, info: Info, latest: Time) {
    exists r <- s.replies :: r.l == l && r.info == info && r.at <= latest
  }

  ghost predicate PcOk(s: State, pc: Pc) {
    match pc
    case CheckingAge(l, e) => Stored(s, CacheKey(l), e) && e.cachedAt <= s.now
    case Storing(l, info) => Replied(s, l, info, s.now)
    case _ => true
  }

  ghost predicate AnswerOk(s: State, a: Answer) {
    match a
    case FromCache(l, info, storedAt, checkedAt) =>
      Stored(s, CacheKey(l), Entry(info, storedAt)) && storedAt <= checkedAt && checkedAt - storedAt < TTL
    case FromBackend(l, info) => Replied(s, l, info, s.now)
    case Failed(_) => true
  }

  ghost predicate Inv(s: State) {
    && (forall k <- s.entries :: Stored(s, k, s.entries[k]) && s.entries[k].cachedAt <= s.now)
    && (forall st <- s.stores :: Replied(s, st.l, st.info, st.at))
    && (forall t <- s.pcs :: PcOk(s, s.pcs[t]))
    && (forall a <- s.answers :: AnswerOk(s, a))
  }

  /** What has been said and stored stays so, and time does not run back. */
  lemma LaterKeeps(s: State, t: State)
    requires s.replies <= t.replies && s.stores <= t.stores && s.now <= t.now
    ensures forall k, e :: Stored(s, k, e) ==> Stored(t, k, e)
    ensures forall l, info, latest :: Replied(s, l, info, latest) ==> Replied(t, l, info, latest)
    ensures forall pc :: PcOk(s, pc) ==> PcOk(t, pc)
    ensures forall a :: AnswerOk(s, a) ==> AnswerOk(t, a)
  {
    assert forall r <- s.replies :: r in t.replies;
    assert forall st <- s.stores :: st in t.stores;
    forall l, info | Replied(s, l, info, s.now) ensures Replied(t, l, info, t.now) {
      var r :| r in s.replies && r.l == l && r.info == info && r.at <= s.now;
    }
  }

  lemma AskKeeps(s: State, u: Thread, reply: Option<Info>)
    requires Inv(s) && Step(s, Ask(u, reply)).Some?
    ensures Inv(Step(s, Ask(u, reply)).value)
  {
    var t := Step(s, Ask(u, reply)).value;
    LaterKeeps(s, t);
    if reply.Some? {
      assert Reply(s.pcs[u].l, reply.value, s.now) in t.replies;
      assert PcOk(t, t.pcs[u]);
    }
    hide Stored, Replied, PcOk, AnswerOk;
    if reply.None? { assert AnswerOk(t, Failed(s.pcs[u].l)) by { FailedOk(t, s.pcs[u].l); } }
  }

  lemma FailedOk(s: State, l: Lookup)
    ensures AnswerOk(s, Failed(l))
  {
  }

  lemma StoreKeeps(s: State, u: Thread)
    requires Inv(s) && Step(s, Store(u)).Some?
    ensures Inv(Step(s, Store(u)).value)
  {
    var t := Step(s, Store(u)).value;
    LaterKeeps(s, t);
    var st := Reply(s.pcs[u].l, s.pcs[u].info, s.now);
    assert PcOk(s, s.pcs[u]) && st in t.stores;
    assert Stored(t, CacheKey(st.l), Entry(st.info, st.at)) && Replied(t, st.l, st.info, st.at);
    assert AnswerOk(t, FromBackend(st.l, st.info));
    hide Stored, Replied, PcOk, AnswerOk, CacheKey;
  }

  lemma CheckAgeKeeps(s: State, u: Thread)
    requires Inv(s) && Step(s, CheckAge(u)).Some?
    ensures Inv(Step(s, CheckAge(u)).value)
  {
    var t := Step(s, CheckAge(u)).value;
    hide Stored, Replied;
    LaterKeeps(s, t);
    assert PcOk(s, s.pcs[u]);
    if !Expired(s.pcs[u].entry, s.now) {
      assert AnswerOk(t, FromCache(s.pcs[u].l, s.pcs[u].entry.info, s.pcs[u].entry.cachedAt, s.now));
    }
    hide AnswerOk;
  }

  lemma StepKeeps(s: State, a: Action)
    requires Inv(s) && Step(s, a).Some?
    ensures Inv(Step(s, a).value)
  {
    hide Stored, Replied, AnswerOk;
    match a
    case Ask(u, reply) => AskKeeps(s, u, reply);
    case Store(u) => StoreKeeps(s, u);
    case CheckAge(u) => CheckAgeKeeps(s, u);
    case _ => LaterKeeps(s, Step(s, a).value);
  }

  lemma {:induction false} RunKeeps(actions: seq<Action>)
    requires Run(actions).Some?
    ensures Inv(Run(actions).value)
  {
    if actions != [] {
      RunKeeps(actions[..|actions| - 1]);
      StepKeeps(Run(actions[..|actions| - 1]).value, actions[|actions| - 1]);
    }
  }

  /**
    However fetches, evictions, clears and the clock interleave, a cached answer was stored by a lookup with the
    same key, at the time it says and less than five minutes before its age was checked, and what was stored
    was the backend's reply to that lookup; an eviction that hits a fresh entry can only cost another question.
    Unless the lookup is ambiguous it was that very lookup; the same holds if no agent id contains a ':'.
  */
  lemma CacheRefinesBackend(actions: seq<Action>, a: Answer)
    requires Run(actions).Some? && a in Run(actions).value.answers && a.FromCache?
    ensures a.storedAt <= a.checkedAt < a.storedAt + 5 * 60 * 1000000000
    ensures exists l ::
              && CacheKey(l) == CacheKey(a.l) && Reply(l, a.info, a.storedAt) in Run(actions).value.stores
              && Replied(Run(actions).value, l, a.info, a.storedAt)
              && (!Ambiguous(a.l) || (PlainId(a.l) && PlainId(l)) ==> l == a.l)
  {
    RunKeeps(actions);
    var s := Run(actions).value;
    assert AnswerOk(s, a);
    var st :| st in s.stores && CacheKey(st.l) == CacheKey(a.l) && Entry(st.info, st.at) == Entry(a.info, a.storedAt);
    assert st == Reply(st.l, a.info, a.storedAt);
    if !Ambiguous(a.l) { KeyNames(a.l, st.l); }
    if PlainId(a.l) && PlainId(st.l) { PlainIdsNeverMeet(a.l, st.l); }
  }

  /** An answer that did not come from the cache is the backend's reply to this very lookup. */
  lemma BackendAnswersAreReplies(actions: seq<Action>, a: Answer)
    requires Run(actions).Some? && a in Run(actions).value.answers && a.FromBackend?
    ensures exists r <- Run(actions).value.replies :: r.l == a.l && r.info == a.info
  {
    RunKeeps(actions);
    assert AnswerOk(Run(actions).value, a);
  }

  // ---- What a fetch does when nobody else is there ----

  function From(s: State, actions: seq<Action>): Option<State>
    decreases |actions|
  {
    if actions == [] then Some(s)
    else match Step(s, actions[0])
      case None => None
      case Some(r) => From(r, actions[1..])
  }

  lemma {:induction false} FromStates(states: seq<State>, actions: seq<Action>)
    requires |states| == |actions| + 1
    requires forall i | 0 <= i < |actions| :: Step(states[i], actions[i]) == Some(states[i + 1])
    ensures From(states[0], actions) == Some(states[|actions|])
    decreases |actions|
  {
    hide Step;
    if actions != [] {
      var n := |actions| - 1;
      forall i | 0 <= i < n ensures Step(states[1..][i], actions[1..][i]) == Some(states[1..][i + 1]) {
        assert Step(states[i + 1], actions[i + 1]) == Some(states[i + 1 + 1]);
      }
      assert Step(states[0], actions[0]) == Some(states[0 + 1]);
      FromStates(states[1..], actions[1..]);
    }
  }

  lemma {:induction false} FromAppend(s: State, a: seq<Action>, b: seq<Action>)
    ensures From(s, a + b) == match From(s, a) case None => None case Some(r) => From(r, b)
    decreases |a|
  {
    hide Step;
    if a == [] {
      assert a + b == b;
    } else {
      assert (a + b)[1..] == a[1..] + b;
      if Step(s, a[0]).Some? { FromAppend(Step(s, a[0]).value, a[1..], b); }
    }
  }

  lemma Again(s: State, t: Thread, p: Pc, q: Pc)
    ensures s.pcs[t := p][t := q] == s.pcs[t := q]
    ensures t !in s.pcs ==> s.pcs[t := p] - {t} == s.pcs
  {
  }

  predicate Holds(s: State, key: string) {
    key in s.entries && s.now - s.entries[key].cachedAt < 5 * 60 * 1000000000
  }

  lemma HitAlone(s: State, t: Thread, l: Lookup)
    requires t !in s.pcs && Holds(s, CacheKey(l))
    ensures var e := s.entries[CacheKey(l)];
            From(s, [Start(t, l), Peek(t), CheckAge(t)])
            == Some(s.(answers := s.answers + [FromCache(l, e.info, e.cachedAt, s.now)]))
  {
    hide CacheKey;
    var e := s.entries[CacheKey(l)];
    var s1, s2 := Goto(s, t, Peeking(l)), Goto(s, t, CheckingAge(l, e));
    var end := s.(answers := s.answers + [FromCache(l, e.info, e.cachedAt, s.now)]);
    Again(s, t, Peeking(l), CheckingAge(l, e));
    Again(s, t, CheckingAge(l, e), Peeking(l));
    assert Step(s, Start(t, l)) == Some(s1);
    assert Step(s1, Peek(t)) == Some(s2);
    assert Step(s2, CheckAge(t)) == Some(end);
    hide Step;
    FromStates([s, s1, s2, end], [Start(t, l), Peek(t), CheckAge(t)]);
  }

  /** The way to the backend, past an expired entry if there is one. */
  function MissActions(s: State, t: Thread, l: Lookup): seq<Action> {
    [Start(t, l), Peek(t)] + if CacheKey(l) in s.entries then [CheckAge(t), Evict(t)] else []
  }

  lemma MissAlone(s: State, t: Thread, l: Lookup)
    requires t !in s.pcs && !Holds(s, CacheKey(l))
    ensures From(s, MissActions(s, t, l)) == Some(Goto(s.(entries := s.entries - {CacheKey(l)}), t, Asking(l)))
  {
    hide CacheKey;
    var key, s1 := CacheKey(l), Goto(s, t, Peeking(l));
    var end := Goto(s.(entries := s.entries - {key}), t, Asking(l));
    Again(s, t, Peeking(l), Asking(l));
    assert Step(s, Start(t, l)) == Some(s1);
    if key in s.entries {
      var e := s.entries[key];
      var s2, s3 := Goto(s, t, CheckingAge(l, e)), Goto(s, t, Evicting(l));
      Again(s, t, Peeking(l), CheckingAge(l, e));
      Again(s, t, CheckingAge(l, e), Evicting(l));
      Again(s, t, Evicting(l), Asking(l));
      assert Step(s1, Peek(t)) == Some(s2);
      assert Step(s2, CheckAge(t)) == Some(s3);
      assert Step(s3, Evict(t)) == Some(end);
      hide Step;
      FromStates([s, s1, s2, s3, end], [Start(t, l), Peek(t), CheckAge(t), Evict(t)]);
      assert MissActions(s, t, l) == [Start(t, l), Peek(t), CheckAge(t), Evict(t)];
    } else {
      assert s.entries - {key} == s.entries;
      assert Step(s1, Peek(t)) == Some(end);
      hide Step;
      FromStates([s, s1, end], [Start(t, l), Peek(t)]);
      assert MissActions(s, t, l) == [Start(t, l), Peek(t)];
    }
  }

  lemma AskAlone(s: State, t: Thread, l: Lookup, info: Info)
    requires t !in s.pcs
    ensures From(Goto(s.(entries := s.entries - {CacheKey(l)}), t, Asking(l)), [Ask(t, Some(info)), Store(t)])
         == Some(s.(entries := s.entries[CacheKey(l) := Entry(info, s.now)],
                    replies := s.replies + [Reply(l, info, s.now)], stores := s.stores + [Reply(l, info, s.now)],
                    answers := s.answers + [FromBackend(l, info)]))
    ensures From(Goto(s.(entries := s.entries - {CacheKey(l)}), t, Asking(l)), [Ask(t, None)])
         == Some(s.(entries := s.entries - {CacheKey(l)}, answers := s.answers + [Failed(l)]))
  {
    hide CacheKey;
    var key, evicted := CacheKey(l), s.(entries := s.entries - {CacheKey(l)});
    var asking := Goto(evicted, t, Asking(l));
    var storing := Goto(evicted.(replies := s.replies + [Reply(l, info, s.now)]), t, Storing(l, info));
    var end := s.(entries := s.entries[key := Entry(info, s.now)],
                  replies := s.replies + [Reply(l, info, s.now)], stores := s.stores + [Reply(l, info, s.now)],
                  answers := s.answers + [FromBackend(l, info)]);
    assert (s.entries - {key})[key := Entry(info, s.now)] == s.entries[key := Entry(info, s.now)];
    Again(s, t, Asking(l), Storing(l, info));
    Again(s, t, Storing(l, info), Asking(l));
    assert Step(asking, Ask(t, Some(info))) == Some(storing);
    assert Step(storing, Store(t)) == Some(end);
    assert Step(asking, Ask(t, None)) == Some(evicted.(answers := s.answers + [Failed(l)]));
    hide Step;
    FromStates([asking, storing, end], [Ask(t, Some(info)), Store(t)]);
    FromStates([asking, evicted.(answers := s.answers + [Failed(l)])], [Ask(t, None)]);
  }

  /**
    A fetch that nobody interferes with does what the method `Fetch` of the cache does: an entry younger than five
    minutes is the answer and nothing changes; otherwise the backend is asked, and its reply, if it gives one, is
    stored under the current time and returned.
  */
  lemma FetchAlone(s: State, t: Thread, l: Lookup, reply: Option<Info>)
    requires t !in s.pcs
    ensures var key := CacheKey(l);
            if key in s.entries && s.now - s.entries[key].cachedAt < 5 * 60 * 1000000000 then
              From(s, [Start(t, l), Peek(t), CheckAge(t)]) ==
              Some(s.(answers := s.answers + [FromCache(l, s.entries[key].info, s.entries[key].cachedAt, s.now)]))
            else match reply
              case None =>
                From(s, [Start(t, l), Peek(t)] + (if key in s.entries then [CheckAge(t), Evict(t)] else [])
                        + [Ask(t, None)])
                == Some(s.(entries := s.entries - {key}, answers := s.answers + [Failed(l)]))
              case Some(info) =>
                From(s, [Start(t, l), Peek(t)] + (if key in s.entries then [CheckAge(t), Evict(t)] else [])
                        + [Ask(t, reply), Store(t)])
                == Some(s.(entries := s.entries[key := Entry(info, s.now)],
                           replies := s.replies + [Reply(l, info, s.now)],
                           stores := s.stores + [Reply(l, info, s.now)],
                           answers := s.answers + [FromBackend(l, info)]))
  {
    hide CacheKey, Step, From;
    if Holds(s, CacheKey(l)) {
      HitAlone(s, t, l);
    } else {
      MissAlone(s, t, l);
      if reply.Some? {
        AskAlone(s, t, l, reply.value);
        FromAppend(s, MissActions(s, t, l), [Ask(t, reply), Store(t)]);
      } else {
        AskAlone(s, t, l, "");
        FromAppend(s, MissActions(s, t, l), [Ask(t, None)]);
      }
    }
  }

  /** After a clear every lookup goes to the backend; time passes, and only that, with the clock. */
  lemma ClearForgets(s: State, t: Thread, l: Lookup, elapsed: nat)
    requires t !in s.pcs
    ensures From(s, [Clear, Start(t, l), Peek(t)]) == Some(Goto(s.(entries := map[]), t, Asking(l)))
    ensures From(s, [Tick(elapsed)]) == Some(s.(now := s.now + elapsed))
  {
    hide CacheKey;
    var cleared := s.(entries := map[]);
    Again(s, t, Peeking(l), Asking(l));
    assert Step(s, Clear) == Some(cleared);
    assert Step(cleared, Start(t, l)) == Some(Goto(cleared, t, Peeking(l)));
    assert Step(Goto(cleared, t, Peeking(l)), Peek(t)) == Some(Goto(cleared, t, Asking(l)));
    assert Step(s, Tick(elapsed)) == Some(s.(now := s.now + elapsed));
    hide Step;
    FromStates([s, cleared, Goto(cleared, t, Peeking(l)), Goto(cleared, t, Asking(l))], [Clear, Start(t, l), Peek(t)]);
    FromStates([s, s.(now := s.now + elapsed)], [Tick(elapsed)]);
  }

  lemma RunSnoc(actions: seq<Action>, a: Action)
    requires Run(actions).Some?
    ensures Run(actions + [a]) == Step(Run(actions).value, a)
  {
    assert (actions + [a])[..|actions|] == actions;
  }

  /** For lookups that do share a key, one is answered with the reply to the other, without asking for it. */
  lemma AmbiguousLookupIsAnsweredWrongly(l: Lookup, m: Lookup, info: Info)
    requires CacheKey(l) == CacheKey(m)
    ensures var run := [Start(0, l), Peek(0), Ask(0, Some(info)), Store(0), Start(1, m), Peek(1), CheckAge(1)];
            && Run(run).Some? && Run(run).value.replies == [Reply(l, info, 0)]
            && Run(run).value.answers == [FromBackend(l, info), FromCache(m, info, 0, 0)]
  {
    var a := [Start(0, l), Peek(0)];
    assert [] + [Start(0, l)] == [Start(0, l)];
    RunSnoc([], Start(0, l));
    RunSnoc([Start(0, l)], Peek(0));
    assert [Start(0, l)] + [Peek(0)] == a;
    var b := a + [Ask(0, Some(info))];
    RunSnoc(a, Ask(0, Some(info)));
    var c := b + [Store(0)];
    RunSnoc(b, Store(0));
    var d := c + [Start(1, m)];
    RunSnoc(c, Start(1, m));
    RunSnoc(d, Peek(1));
    RunSnoc(d + [Peek(1)], CheckAge(1));
    assert d + [Peek(1)] + [CheckAge(1)] ==
           [Start(0, l), Peek(0), Ask(0, Some(info)), Store(0), Start(1, m), Peek(1), CheckAge(1)];
  }
}
