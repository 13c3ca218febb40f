/**
  Node's cache of the server's signing keys: three module variables, refilled from one reply whose active
  entries are checked while the map is being filled. The check for a cached map and the refill are each
  uninterrupted; between them the call waits for the network, so the refills of several calls interleave.
  Origins are already normalised, replies already decoded.
*/
module ServerKeys {
  import opened Wrappers
  import opened Text

  type Origin = string
  type Time = int
  type Keys = map<string, string>

  /** One hour, in milliseconds. */
  const LIFETIME := 3600000

  /** A field that is absent or not a string is None. */
  datatype Entry = Entry(signerId: Option<string>, jacsId: Option<string>, keyId: Option<string>,
                         publicKey: Option<string>, active: bool)

  datatype Error = NoSignerId | NoPublicKey | Conflict | Unavailable

  predicate NonBlank(s: Option<string>) {
    s.Some? && Trim(s.value, JsSpace) != ""
  }

  function SignerOf(e: Entry): string {
    if NonBlank(e.signerId) then Trim(e.signerId.value, JsSpace)
    else if NonBlank(e.jacsId) && e.keyId.Some? && Trim(e.jacsId.value, JsSpace) + ":" <= e.keyId.value
    then e.keyId.value
    else ""
  }

  /** The map is a plain object: looking up one of these names finds what it inherits, not `undefined`. */
  predicate Inherited(name: string) {
    name in {"constructor", "hasOwnProperty", "isPrototypeOf", "propertyIsEnumerable", "toLocaleString", "toString",
             "valueOf", "__proto__", "__defineGetter__", "__defineSetter__", "__lookupGetter__", "__lookupSetter__"}
  }

  /** The map so far, and the exception that stopped the loop, if one did. */
  datatype Filled = Filled(keys: Keys, error: Option<Error>)

  function Fill(entries: seq<Entry>): Filled {
    if entries == [] then Filled(map[], None)
    else
      var f, e := Fill(entries[..|entries| - 1]), entries[|entries| - 1];
      var id := SignerOf(e);
      if f.error.Some? || !e.active then f
      else if id == "" then f.(error := Some(NoSignerId))
      else if !NonBlank(e.publicKey) then f.(error := Some(NoPublicKey))
      else if Inherited(id) || (id in f.keys && f.keys[id] != e.publicKey.value) then f.(error := Some(Conflict))
      else f.(keys := f.keys[id := e.publicKey.value])
  }

  // ---- The module variables ----

  datatype State = State(keys: Keys, expiry: Time, origin: Origin)

  const INITIAL := State(map[], 0, "")

  function Cached(s: State, origin: Origin, now: Time): Option<Keys> {
    if s.origin == origin && now < s.expiry && s.keys != map[] then Some(s.keys) else None
  }

  function Refilled(s: State, origin: Origin, entries: seq<Entry>, now: Time): State {
    var f := Fill(entries);
    if f.error.Some? || f.keys == map[] then s.(keys := f.keys) else State(f.keys, now + LIFETIME, origin)
  }

  class KeyRing {
    var serverKeysCache: Keys
    var cacheExpiry: Time
    var serverKeysCacheOrigin: Origin

    ghost function View(): State
      reads this
    {
      State(serverKeysCache, cacheExpiry, serverKeysCacheOrigin)
    }

    constructor ()
      ensures View() == INITIAL
    {
      serverKeysCache, cacheExpiry, serverKeysCacheOrigin := map[], 0, "";
    }

    method CheckCache(origin: Origin, now: Time) returns (r: Option<Keys>)
      ensures r == Cached(View(), origin, now)
    {
      if serverKeysCacheOrigin == origin && now < cacheExpiry && |serverKeysCache| > 0 { return Some(serverKeysCache); }
      assert serverKeysCache != map[] ==> |serverKeysCache| > 0 by {
        if serverKeysCache != map[] { var k :| k in serverKeysCache; assert |serverKeysCache.Keys| > 0; }
      }
      r := None;
    }

    /** What follows the fetch. */
    method Refill(origin: Origin, entries: seq<Entry>, now: Time) returns (r: Result<Keys, Error>)
      modifies this
      ensures View() == Refilled(old(View()), origin, entries, now)
      ensures var f := Fill(entries);
              r == if f.error.Some? then Err(f.error.value)
                   else if f.keys == map[] then Err(Unavailable) else Ok(f.keys)
    {
      serverKeysCache := map[];
      for i := 0 to |entries|
        invariant Filled(serverKeysCache, None) == Fill(entries[..i])
        invariant cacheExpiry == old(cacheExpiry) && serverKeysCacheOrigin == old(serverKeysCacheOrigin)
      {
        assert entries[..i + 1][..i] == entries[..i];
        var key := entries[i];
        if !key.active { continue; }
        var signerId := SignerOf(key);
        if signerId == "" {
          FirstError(entries, i + 1);
          return Err(NoSignerId);
        }
        if key.publicKey.None? || Trim(key.publicKey.value, JsSpace) == "" {
          FirstError(entries, i + 1);
          return Err(NoPublicKey);
        }
        if Inherited(signerId) || (signerId in serverKeysCache && serverKeysCache[signerId] != key.publicKey.value) {
          FirstError(entries, i + 1);
          return Err(Conflict);
        }
        serverKeysCache := serverKeysCache[signerId := key.publicKey.value];
      }
      assert entries[..|entries|] == entries;
      if serverKeysCache == map[] { return Err(Unavailable); }
      serverKeysCacheOrigin := origin;
      cacheExpiry := now + LIFETIME;
      r := Ok(serverKeysCache);
    }

    method Clear()
      modifies this
      ensures View() == INITIAL
    {
      serverKeysCache, cacheExpiry, serverKeysCacheOrigin := map[], 0, "";
    }
  }

  lemma {:induction false} FirstError(entries: seq<Entry>, n: nat)
    requires n <= |entries| && Fill(entries[..n]).error.Some?
    ensures Fill(entries) == Fill(entries[..n])
  {
    if n == |entries| {
      assert entries[..n] == entries;
    } else {
      assert entries[..|entries| - 1][..n] == entries[..n];
      FirstError(entries[..|entries| - 1], n);
    }
  }

  // ---- When a refill succeeds, and what it stores ----

  predicate Usable(e: Entry) {
    SignerOf(e) != "" && !Inherited(SignerOf(e)) && NonBlank(e.publicKey)
  }

  /** No signer has two different active keys. */
  ghost predicate Consistent(entries: seq<Entry>) {
    forall d <- entries, e <- entries | d.active && e.active && SignerOf(d) == SignerOf(e) :: d.publicKey == e.publicKey
  }

  /** The map holds exactly what the active entries say. */
  ghost predicate Represents(keys: Keys, entries: seq<Entry>) {
    && (forall e <- entries | e.active :: SignerOf(e) in keys && e.publicKey == Some(keys[SignerOf(e)]))
    && (forall id <- keys :: exists e <- entries :: e.active && SignerOf(e) == id)
  }

  ghost predicate AllUsable(entries: seq<Entry>) {
    (forall e <- entries | e.active :: Usable(e)) && Consistent(entries)
  }

  lemma AddInactive(init: seq<Entry>, last: Entry, keys: Keys)
    requires !last.active
    ensures AllUsable(init + [last]) <==> AllUsable(init)
    ensures Represents(keys, init) ==> Represents(keys, init + [last])
  {
    hide Usable, SignerOf;
    assert forall e :: e in init + [last] <==> e in init || e == last;
  }

  lemma AddActive(init: seq<Entry>, last: Entry, keys: Keys)
    requires AllUsable(init) && Represents(keys, init) && last.active && last.publicKey.Some?
    ensures var id, pem := SignerOf(last), last.publicKey.value;
            var conflict := id in keys && keys[id] != pem;
            && (AllUsable(init + [last]) <==> Usable(last) && !conflict)
            && (!conflict ==> Represents(keys[id := pem], init + [last]))
  {
    hide Usable, SignerOf;
    assert forall e :: e in init + [last] <==> e in init || e == last;
    if SignerOf(last) in keys {
      var e :| e in init && e.active && SignerOf(e) == SignerOf(last);
      assert e.publicKey == Some(keys[SignerOf(last)]);
    }
  }

  lemma {:induction false} FillSound(entries: seq<Entry>)
    ensures Fill(entries).error.None? <==> AllUsable(entries)
    ensures Fill(entries).error.None? ==> Represents(Fill(entries).keys, entries)
  {
    if entries != [] {
      var init, last := entries[..|entries| - 1], entries[|entries| - 1];
      FillSound(init);
      assert entries == init + [last];
      hide SignerOf, Inherited, NonBlank, Consistent;
      if !last.active {
        AddInactive(init, last, Fill(init).keys);
      } else if Fill(init).error.Some? {
        StillUnusable(init, last);
      } else if last.publicKey.Some? {
        AddActive(init, last, Fill(init).keys);
        assert NonBlank(last.publicKey) && SignerOf(last) != "" && !Inherited(SignerOf(last)) <==> Usable(last);
        if !Usable(last) { UnusableLast(init, last); }
        hide Represents, AllUsable, Usable;
      } else {
        NoKeyUnusable(last);
        UnusableLast(init, last);
      }
    }
  }

  lemma StillUnusable(init: seq<Entry>, last: Entry)
    requires !AllUsable(init)
    ensures !AllUsable(init + [last])
  {
    assert forall e <- init :: e in init + [last];
    hide Usable;
  }

  lemma UnusableLast(init: seq<Entry>, last: Entry)
    requires last.active && !Usable(last)
    ensures !AllUsable(init + [last])
  {
    assert last in init + [last];
    hide Usable;
  }

  lemma NoKeyUnusable(e: Entry)
    requires e.publicKey.None?
    ensures !Usable(e) && !NonBlank(e.publicKey)
  {
  }

  predicate Succeeds(entries: seq<Entry>) {
    Fill(entries).error.None? && Fill(entries).keys != map[]
  }

  /**
    A refill succeeds exactly when every active entry has a signer id that no object inherits and a non-blank
    key, no signer has two keys, and some entry is active.
  */
  lemma RefillSucceedsIff(entries: seq<Entry>)
    ensures Succeeds(entries) <==> AllUsable(entries) && exists e <- entries :: e.active
    ensures Succeeds(entries) ==> Represents(Fill(entries).keys, entries)
  {
    FillSound(entries);
    if AllUsable(entries) {
      var keys := Fill(entries).keys;
      if e :| e in entries && e.active {
        assert SignerOf(e) in keys;
      } else {
        assert forall id :: id !in keys;
      }
    }
  }

  lemma RepresentsOneMap(a: Keys, b: Keys, entries: seq<Entry>)
    requires Represents(a, entries) && Represents(b, entries)
    ensures a == b
  {
    assert forall id :: id in a <==> id in b;
    forall id <- a ensures a[id] == b[id] {
      var e :| e in entries && e.active && SignerOf(e) == id;
    }
  }

  /** Order and repetition in the reply do not matter, neither for success nor for the map. */
  lemma OrderDoesNotMatter(a: seq<Entry>, b: seq<Entry>)
    requires forall e :: e in a <==> e in b
    ensures Succeeds(a) <==> Succeeds(b)
    ensures Succeeds(a) ==> Fill(a).keys == Fill(b).keys
  {
    RefillSucceedsIff(a);
    RefillSucceedsIff(b);
    if Succeeds(a) {
      assert Represents(Fill(b).keys, a);
      RepresentsOneMap(Fill(a).keys, Fill(b).keys, a);
    }
  }

  /**
    Which id an entry is filed under: its trimmed signer id; without one, its key id, if that is the trimmed agent id
    with a version behind a ':'; and otherwise none.
  */
  lemma SignerIs(signer: Option<string>, jacs: Option<string>, keyId: Option<string>, pem: Option<string>, active: bool)
    ensures var id := SignerOf(Entry(signer, jacs, keyId, pem, active));
            && (signer.Some? && Trim(signer.value, JsSpace) != "" ==> id == Trim(signer.value, JsSpace))
            && (signer.None? || Trim(signer.value, JsSpace) == "" ==>
                  && (forall agent, version |
                        && jacs.Some? && agent == Trim(jacs.value, JsSpace) && agent != ""
                        && keyId == Some(agent + ":" + version) :: id == agent + ":" + version)
                  && (jacs.None? || Trim(jacs.value, JsSpace) == "" || keyId.None? ==> id == "")
                  && (id != "" ==> keyId == Some(id) && jacs.Some? && Trim(jacs.value, JsSpace) + ":" <= id))
  {
    hide Trim;
  }

  /** The loop has taken everything before this entry and cannot take this one, for this reason. */
  ghost predicate IsError(before: seq<Entry>, e: Entry, error: Error) {
    && AllUsable(before) && e.active && error != Unavailable
    && (error == NoSignerId <==> SignerOf(e) == "")
    && (error == NoPublicKey <==> SignerOf(e) != "" && !NonBlank(e.publicKey))
    && (error == Conflict ==> Inherited(SignerOf(e)) || Contradicts(before, e))
  }

  ghost predicate Contradicts(before: seq<Entry>, e: Entry) {
    exists d <- before :: d.active && SignerOf(d) == SignerOf(e) && d.publicKey != e.publicKey
  }

  lemma LastIsError(init: seq<Entry>, last: Entry)
    requires Fill(init).error.None? && Fill(init + [last]).error.Some?
    ensures IsError(init, last, Fill(init + [last]).error.value)
  {
    FillSound(init);
    assert (init + [last])[..|init|] == init;
    var keys, id := Fill(init).keys, SignerOf(last);
    if id in keys { TakenBefore(keys, init, id); }
    hide AllUsable, Inherited, SignerOf, Represents, NonBlank;
  }

  lemma TakenBefore(keys: Keys, entries: seq<Entry>, id: string)
    requires Represents(keys, entries) && id in keys
    ensures exists d <- entries :: d.active && SignerOf(d) == id && d.publicKey == Some(keys[id])
  {
    hide SignerOf;
  }

  /**
    Why a refill fails: at the first entry that is active but has no id, or no key, or a second key for the same
    signer; or because no entry is active at all.
  */
  lemma {:induction false} FirstErrorIs(entries: seq<Entry>)
    ensures Fill(entries).error.Some? ==>
              exists k | 0 <= k < |entries| :: IsError(entries[..k], entries[k], Fill(entries).error.value)
    ensures Fill(entries).error.None? ==> (Fill(entries).keys == map[] <==> forall e <- entries :: !e.active)
  {
    if Fill(entries).error.None? {
      RefillSucceedsIff(entries);
      FillSound(entries);
    } else {
      var init, last := entries[..|entries| - 1], entries[|entries| - 1];
      assert entries == init + [last];
      hide IsError;
      if Fill(init).error.Some? {
        FirstErrorIs(init);
        var k :| 0 <= k < |init| && IsError(init[..k], init[k], Fill(init).error.value);
        assert entries[..k] == init[..k] && entries[k] == init[k];
      } else {
        LastIsError(init, last);
        assert entries[..|init|] == init && entries[|init|] == last;
      }
    }
  }

  // ---- Runs: any number of calls, each waiting for its reply while others go on ----

  type Call = nat

  /** A reply that went through the loop: the origin it was asked from, and when. */
  datatype Refill = Refill(origin: Origin, entries: seq<Entry>, at: Time)

  /** What a call returned; `clean` unless the map was left over from a refill that failed half way. */
  datatype Served = Served(origin: Origin, keys: Keys, at: Time, clean: bool)

  datatype World = World(cache: State, now: Time, waiting: map<Call, Origin>, leftover: bool,
                         validated: seq<Refill>, failed: seq<Refill>, served: seq<Served>)

  const START := World(INITIAL, 0, map[], false, [], [], [])

  datatype Action =
    | Ask(c: Call, origin: Origin) | Receive(c: Call, entries: seq<Entry>) | Lose(c: Call) | Clear | Tick(elapsed: nat)

  function Received(w: World, origin: Origin, entries: seq<Entry>): World {
    var refill := Refill(origin, entries, w.now);
    var next := w.(cache := Refilled(w.cache, origin, entries, w.now));
    if Succeeds(entries)
    then next.(leftover := false, validated := w.validated + [refill],
               served := w.served + [Served(origin, Fill(entries).keys, w.now, true)])
    else next.(leftover := Fill(entries).keys != map[], failed := w.failed + [refill])
  }

  function Step(w: World, a: Action): Option<World> {
    match a
    case Tick(elapsed) => Some(w.(now := w.now + elapsed))
    case Clear => Some(w.(cache := INITIAL, leftover := false))
    case Ask(c, origin) =>
      if c in w.waiting then None
      else (match Cached(w.cache, origin, w.now)
        case None => Some(w.(waiting := w.waiting[c := origin]))
        case Some(keys) => Some(w.(served := w.served + [Served(origin, keys, w.now, !w.leftover)])))
    case Receive(c, entries) =>
      if c !in w.waiting then None
      else Some(Received(w, w.waiting[c], entries).(waiting := w.waiting - {c}))
    case Lose(c) => if c !in w.waiting then None else Some(w.(waiting := w.waiting - {c}))
  }

  function Run(actions: seq<Action>): Option<World> {
    if actions == [] then Some(START)
    else match Run(actions[..|actions| - 1])
      case None => None
      case Some(w) => Step(w, actions[|actions| - 1])
  }

  /** One of these refills validated this map as a whole, for this origin, less than an hour before. */
  ghost predicate Validated(refills: seq<Refill>, origin: Origin, keys: Keys, at: Time) {
    exists v <- refills :: v.origin == origin && Fill(v.entries).keys == keys && v.at <= at < v.at + LIFETIME
  }

  /** A map left behind by a failed refill, under the origin and expiry of an earlier one that succeeded. */
  ghost predicate LeftOver(failed: seq<Refill>, validated: seq<Refill>, origin: Origin, keys: Keys, at: Time) {
    && (exists f <- failed :: Fill(f.entries).keys == keys && f.at <= at)
    && (exists v <- validated :: v.origin == origin && v.at <= at < v.at + LIFETIME)
  }

  ghost predicate RecordsOk(w: World) {
    && w.now >= 0
    && (forall v <- w.validated :: Succeeds(v.entries) && v.at <= w.now)
    && (forall f <- w.failed :: !Succeeds(f.entries) && f.at <= w.now)
  }

  ghost predicate CacheOk(w: World) {
    && (w.cache.expiry == 0 || exists v <- w.validated ::
          v.origin == w.cache.origin && w.cache.expiry == v.at + LIFETIME
          && (w.leftover || w.cache.keys == map[] || Fill(v.entries).keys == w.cache.keys))
    && (w.leftover ==> exists f <- w.failed :: Fill(f.entries).keys == w.cache.keys)
  }

  ghost predicate ServedOk(w: World, a: Served) {
    if a.clean then Validated(w.validated, a.origin, a.keys, a.at)
    else LeftOver(w.failed, w.validated, a.origin, a.keys, a.at)
  }

  ghost predicate Inv(w: World) {
    RecordsOk(w) && CacheOk(w) && forall a <- w.served :: ServedOk(w, a)
  }

  lemma ServedKept(w: World, x: World, a: Served)
    requires w.validated <= x.validated && w.failed <= x.failed && ServedOk(w, a)
    ensures ServedOk(x, a)
  {
    assert forall v <- w.validated :: v in x.validated;
    assert forall f <- w.failed :: f in x.failed;
  }

  lemma AskKeeps(w: World, c: Call, origin: Origin)
    requires Inv(w) && Step(w, Ask(c, origin)).Some?
    ensures Inv(Step(w, Ask(c, origin)).value)
  {
    var x := Step(w, Ask(c, origin)).value;
    hide Fill;
    forall a <- w.served ensures ServedOk(x, a) { ServedKept(w, x, a); }
    var hit := Cached(w.cache, origin, w.now);
    if hit.Some? { assert ServedOk(x, Served(origin, hit.value, w.now, !w.leftover)); }
  }

  lemma ReceiveKeeps(w: World, c: Call, entries: seq<Entry>)
    requires Inv(w) && Step(w, Receive(c, entries)).Some?
    ensures Inv(Step(w, Receive(c, entries)).value)
  {
    var x := Step(w, Receive(c, entries)).value;
    hide Fill;
    forall a <- w.served ensures ServedOk(x, a) { ServedKept(w, x, a); }
    var r := Refill(w.waiting[c], entries, w.now);
    if Succeeds(entries) {
      assert r in x.validated;
      assert ServedOk(x, Served(r.origin, Fill(entries).keys, w.now, true));
    } else {
      assert r in x.failed;
      if w.cache.expiry != 0 {
        var v :| v in w.validated && v.origin == w.cache.origin && w.cache.expiry == v.at + LIFETIME;
        assert v in x.validated;
      }
    }
  }

  lemma StepKeeps(w: World, a: Action)
    requires Inv(w) && Step(w, a).Some?
    ensures Inv(Step(w, a).value)
  {
    hide Fill;
    match a
    case Ask(c, origin) => AskKeeps(w, c, origin);
    case Receive(c, entries) => ReceiveKeeps(w, c, entries);
    case _ =>
      var x := Step(w, a).value;
      forall s <- x.served ensures ServedOk(x, s) { ServedKept(w, x, s); }
  }

  lemma {:induction false} RunKeeps(actions: seq<Action>)
    requires Run(actions).Some?
    ensures Inv(Run(actions).value)
  {
    if actions != [] {
      RunKeeps(actions[..|actions| - 1]);
      StepKeeps(Run(actions[..|actions| - 1]).value, actions[|actions| - 1]);
    }
  }

  /**
    However calls, replies, losses and the clock interleave: what a call returns, from the cache or fresh, says
    exactly what the active entries of one reply from the same origin say, all of them usable and without
    conflict, and that reply came less than an hour before. The one exception is a hit while a failed refill
    has something in the map.
  */
  lemma HitsAreValidated(actions: seq<Action>, a: Served)
    requires Run(actions).Some? && a in Run(actions).value.served && a.clean
    ensures exists v <- Run(actions).value.validated ::
              && v.origin == a.origin && v.at <= a.at < v.at + 3600000
              && AllUsable(v.entries) && Represents(a.keys, v.entries)
  {
    RunKeeps(actions);
    var w := Run(actions).value;
    hide Run, Step, AllUsable, Represents, Fill;
    assert ServedOk(w, a);
    var v :| && v in w.validated && v.origin == a.origin
             && Fill(v.entries).keys == a.keys && v.at <= a.at < v.at + LIFETIME;
    RefillSucceedsIff(v.entries);
  }

  /** In that case the map is what the failed refill left, under the origin and within the hour of an earlier one. */
  lemma OtherHitsAreLeftOver(actions: seq<Action>, a: Served)
    requires Run(actions).Some? && a in Run(actions).value.served && !a.clean
    ensures LeftOver(Run(actions).value.failed, Run(actions).value.validated, a.origin, a.keys, a.at)
    ensures forall f <- Run(actions).value.failed :: !AllUsable(f.entries) || forall e <- f.entries :: !e.active
  {
    RunKeeps(actions);
    var w := Run(actions).value;
    hide Run, Step, AllUsable, Represents, Fill;
    assert ServedOk(w, a);
    forall f <- w.failed ensures !AllUsable(f.entries) || forall e <- f.entries :: !e.active {
      RefillSucceedsIff(f.entries);
    }
  }

  /**
    From the moment a refill succeeds, every call for that origin is answered with its map for one hour, 3600000 ms,
    and not longer, and no call for another origin is; those go to the server.
  */
  lemma ServedForAnHour(w: World, c: Call, entries: seq<Entry>, elapsed: nat, d: Call, origin: Origin)
    requires c in w.waiting && Succeeds(entries) && d !in w.waiting
    ensures var x := Step(w, Receive(c, entries)).value;
            var y := Step(x, Tick(elapsed)).value;
            var z := Step(y, Ask(d, origin)).value;
            && x.served == w.served + [Served(w.waiting[c], Fill(entries).keys, w.now, true)]
            && x.waiting == w.waiting - {c} && y == x.(now := w.now + elapsed)
            && z == if origin == w.waiting[c] && elapsed < 3600000
                    then y.(served := y.served + [Served(origin, Fill(entries).keys, w.now + elapsed, true)])
                    else y.(waiting := y.waiting[d := origin])
  {
    hide Fill;
  }

  /** A reply that is lost or refused answers nobody; after a clear every call goes to the server. */
  lemma OtherwiseNothingIsServed(w: World, c: Call, entries: seq<Entry>, d: Call, origin: Origin)
    requires d !in w.waiting
    ensures c in w.waiting ==> Step(w, Lose(c)) == Some(w.(waiting := w.waiting - {c}))
    ensures c in w.waiting && !Succeeds(entries) ==>
              var x := Step(w, Receive(c, entries)).value;
              && x.served == w.served && x.waiting == w.waiting - {c}
              && x.cache == w.cache.(keys := Fill(entries).keys)
    ensures Step(Step(w, Clear).value, Ask(d, origin)).value.served == w.served
    ensures Step(Step(w, Clear).value, Ask(d, origin)).value.waiting == w.waiting[d := origin]
  {
    hide Fill;
  }

  lemma RunSnoc(actions: seq<Action>, a: Action)
    requires Run(actions).Some?
    ensures Run(actions + [a]) == Step(Run(actions).value, a)
  {
    assert (actions + [a])[..|actions|] == actions;
  }

  /**
    A failed refill drops the old map but keeps the old origin and expiry. What it had filled in by then is
    served later exactly when the old expiry is still ahead and some entry had got into the map; it is then
    served under the old origin, whatever origin the reply came from.
  */
  lemma FailedRefillIsServedIff(s: State, origin: Origin, entries: seq<Entry>, now: Time)
    requires !Succeeds(entries)
    ensures (exists o :: Cached(Refilled(s, origin, entries, now), o, now).Some?)
       <==> now < s.expiry && Fill(entries).keys != map[]
    ensures forall o, later :: Cached(Refilled(s, origin, entries, now), o, later).Some? ==>
              && o == s.origin && later < s.expiry
              && Cached(Refilled(s, origin, entries, now), o, later).value == Fill(entries).keys
  {
    var t := Refilled(s, origin, entries, now);
    if now < s.expiry && Fill(entries).keys != map[] {
      assert Cached(t, s.origin, now).Some?;
    }
  }

  function FirstActive(entries: seq<Entry>): Option<Entry> {
    if entries == [] then None
    else
      var init, last := FirstActive(entries[..|entries| - 1]), entries[|entries| - 1];
      if init.Some? then init else if last.active then Some(last) else None
  }

  /** An entry gets into the map before the loop fails exactly when the first active entry is usable. */
  lemma {:induction false} SomethingFilledIff(entries: seq<Entry>)
    ensures Fill(entries).keys != map[] <==> FirstActive(entries).Some? && Usable(FirstActive(entries).value)
    ensures FirstActive(entries).None? ==> Fill(entries) == Filled(map[], None)
    ensures FirstActive(entries).Some? && !Usable(FirstActive(entries).value) ==> Fill(entries).error.Some?
  {
    if entries != [] {
      var last := entries[|entries| - 1];
      SomethingFilledIff(entries[..|entries| - 1]);
      var m := Fill(entries[..|entries| - 1]).keys;
      if last.publicKey.Some? {
        assert SignerOf(last) in m[SignerOf(last) := last.publicKey.value];
      }
    }
  }

  /** So a key from one origin can be handed out for another that never published it. */
  lemma KeysFromAnotherOrigin(here: Origin, there: Origin, good: Entry, other: Entry, bad: Entry)
    requires good.active && Usable(good) && other.active && Usable(other) && bad.active && !Usable(bad)
    requires SignerOf(good) != SignerOf(other) && here != there
    ensures var run := [Ask(0, here), Receive(0, [good]), Ask(1, there), Receive(1, [other, bad]), Ask(2, here)];
            var leaked := map[SignerOf(other) := other.publicKey.value];
            && Run(run).Some? && Served(here, leaked, 0, false) in Run(run).value.served
            && !Validated(Run(run).value.validated, here, leaked, 0)
  {
    var g := map[SignerOf(good) := good.publicKey.value];
    var o := map[SignerOf(other) := other.publicKey.value];
    FillOne(good);
    FillOne(other);
    assert [other, bad][..1] == [other];
    assert Fill([other, bad]).keys == o && Fill([other, bad]).error.Some?;
    assert SignerOf(good) in g && SignerOf(good) !in o && SignerOf(other) in o;
    hide Run, Step, Fill, Usable, SignerOf, Inherited, NonBlank;
    LeftoverIsServed(here, there, [good], [other, bad]);
  }

  lemma LeftoverIsServed(here: Origin, there: Origin, es: seq<Entry>, fs: seq<Entry>)
    requires Succeeds(es) && Fill(fs).error.Some? && Fill(fs).keys != map[] && here != there
    ensures var run := [Ask(0, here), Receive(0, es), Ask(1, there), Receive(1, fs), Ask(2, here)];
            && Run(run).Some? && Served(here, Fill(fs).keys, 0, false) in Run(run).value.served
            && Run(run).value.validated == [Refill(here, es, 0)]
  {
    hide Fill, Cached;
    FirstRefill(here, es);
    var g, c := Fill(es).keys, [Ask(0, here), Receive(0, es)];
    var first := World(State(g, LIFETIME, here), 0, map[], false,
                       [Refill(here, es, 0)], [], [Served(here, g, 0, true)]);
    var d := c + [Ask(1, there)];
    var e := d + [Receive(1, fs)];
    OtherOriginMisses(first.cache, there, 0);
    RunSnoc(c, Ask(1, there));
    RunSnoc(d, Receive(1, fs));
    RunSnoc(e, Ask(2, here));
    assert e + [Ask(2, here)] == [Ask(0, here), Receive(0, es), Ask(1, there), Receive(1, fs), Ask(2, here)];
    assert first.waiting[1 := there] - {1} == map[];
    hide Run;
    var second := first.(cache := State(Fill(fs).keys, LIFETIME, here), leftover := true,
                         failed := [Refill(there, fs, 0)]);
    assert second.failed == first.failed + [Refill(there, fs, 0)];
    assert Run(e) == Some(second);
    assert Cached(second.cache, here, 0) == Some(Fill(fs).keys) by { SameOriginHits(second.cache, 0); }
    assert Served(here, Fill(fs).keys, 0, false) in second.served + [Served(here, Fill(fs).keys, 0, false)];
  }

  lemma OtherOriginMisses(s: State, origin: Origin, now: Time)
    requires s.origin != origin || s.keys == map[]
    ensures Cached(s, origin, now) == None
  {
  }

  lemma SameOriginHits(s: State, now: Time)
    requires now < s.expiry && s.keys != map[]
    ensures Cached(s, s.origin, now) == Some(s.keys)
  {
  }

  lemma FirstRefill(here: Origin, es: seq<Entry>)
    requires Succeeds(es)
    ensures var g := Fill(es).keys;
            Run([Ask(0, here), Receive(0, es)]) ==
            Some(World(State(g, LIFETIME, here), 0, map[], false,
                       [Refill(here, es, 0)], [], [Served(here, g, 0, true)]))
  {
    hide Fill;
    RunOne(Ask(0, here));
    assert [Ask(0, here)] + [Receive(0, es)] == [Ask(0, here), Receive(0, es)];
    RunSnoc([Ask(0, here)], Receive(0, es));
    var asked := START.(waiting := START.waiting[0 := here]);
    assert Run([Ask(0, here)]) == Some(asked);
    assert asked.waiting - {0} == START.waiting;
    var x := Step(asked, Receive(0, es)).value;
    assert x.waiting == map[];
    assert x.validated == [Refill(here, es, 0)];
    assert x.served == [Served(here, Fill(es).keys, 0, true)];
    assert x.cache == State(Fill(es).keys, LIFETIME, here);
  }

  lemma RunOne(a: Action)
    ensures Run([a]) == Step(START, a)
  {
    assert [a][..0] == [];
  }

  lemma FillOne(e: Entry)
    requires e.active && Usable(e)
    ensures Fill([e]) == Filled(map[SignerOf(e) := e.publicKey.value], None)
  {
    assert [e][..0] == [];
  }
}
