/**
 The two ledgers. The broker counts what is locked, the provider's agent counts the
 instructions it enforces; here they are shown to meet.
 */
module Ledgers {
  import opened Quantities
  import opened Availability
  import opened Protocol
  import opened History
  import opened Invariant
  import opened Safety
  import opened Calm
  import opened Honesty
  import opened Instructions
  import opened Collector

  // ----- what is posted -----

  function Posted(m: Measured, timestamp: int): Payload {
    Payload(m.allocatable, m.inUse, m.available, timestamp)
  }

  predicate Countable(i: ProviderInstruction) {
    Share(i, Cpu) >= 0 && Share(i, Memory) >= 0
  }

  lemma {:induction false} SharesAreNonNegative(list: seq<ProviderInstruction>, now: int, k: Resource)
    requires forall i :: i in list ==> Countable(i)
    ensures ReservedSum(list, now, k) >= 0
  {
    if |list| > 0 {
      assert Last(list) in list;
      SharesAreNonNegative(list[..|list| - 1], now, k);
    }
  }

  lemma {:induction false} NodesAreNonNegative(nodes: seq<Node>, k: Kind)
    requires forall n :: n in nodes ==> NonNegative(n.allocatable)
    ensures OnReady(nodes, k) >= 0
  {
    if |nodes| > 0 {
      assert Last(nodes) in nodes;
      NodesAreNonNegative(nodes[..|nodes| - 1], k);
    }
  }

  /** From non-negative inputs the agent posts a record that promises no more than is there. */
  lemma PostedIsHonest(m: Measured, timestamp: int, nodes: seq<Node>, pods: seq<Pod>,
                       list: seq<ProviderInstruction>, now: int)
    requires MeasuredRight(m, nodes, pods, list, now)
    requires forall n :: n in nodes ==> NonNegative(n.allocatable)
    requires forall p :: p in pods && p.overhead.Some? ==> NonNegative(p.overhead.value)
    requires forall i :: i in list ==> Countable(i)
    ensures Honest(Posted(m, timestamp))
  {
    NodesAreNonNegative(nodes, OfCpu);
    NodesAreNonNegative(nodes, OfMemory);
    UseIsNonNegative(pods, OfCpu);
    UseIsNonNegative(pods, OfMemory);
    SharesAreNonNegative(list, now, Cpu);
    SharesAreNonNegative(list, now, Memory);
  }

  /**
   The broker can recalculate a posted record exactly when some counted pod names a GPU, or no
   ready node has GPU capacity. Otherwise its next lock, release or reconcile stops on a nil count.
   */
  lemma PostedIsGpuComplete(m: Measured, timestamp: int, nodes: seq<Node>, pods: seq<Pod>,
                            list: seq<ProviderInstruction>, now: int,
                            echo: Option<ResourceQuantities>, existing: Option<Advert>)
    requires MeasuredRight(m, nodes, pods, list, now)
    ensures GpuComplete(Merge(Posted(m, timestamp), echo, existing).metrics)
       <==> (AnyGpuNode(nodes) ==> AnyGpuPod(pods))
  {
  }

  /** What the agent posts is what OverdraftIsBounded asks for, with `counted` the agent's own sum. */
  lemma PostedIsClamped(m: Measured, timestamp: int, nodes: seq<Node>, pods: seq<Pod>,
                        list: seq<ProviderInstruction>, now: int,
                        echo: Option<ResourceQuantities>, existing: Option<Advert>)
    requires MeasuredRight(m, nodes, pods, list, now)
    ensures var stored := Merge(Posted(m, timestamp), echo, existing).metrics;
      stored.available.amount == ClampedAvailable(stored, ReservedAt(list, now))
  {
  }

  // ----- instructions come from reservations -----

  /** One entry of a cached list of reservations. */
  datatype Cached = Cached(rid: nat, ver: nat)

  predicate Holding(s: State, cache: seq<Cached>) {
    forall x :: x in cache ==> x.rid < |s.reservations| && x.ver < |s.reservations[x.rid].versions|
  }

  /**
   What GetInstructions answers to cluster c from its cache: only Reserved versions of reservations
   on c, each as it stands, and every one of them that the cache shows.
   */
  method AnswerInstructions(s: State, cache: seq<Cached>, c: ClusterId) returns (offers: seq<Offer>)
    requires Holding(s, cache)
    ensures forall o :: o in offers ==> FromBroker(s, o, c)
    ensures forall x :: x in cache ==>
      var v := s.reservations[x.rid].versions[x.ver];
      v.phase == Reserved && v.target == c ==> Offer(x.rid, v.requester, v.request, true, v.expiresAt) in offers
  {
    var list := [];
    for n := 0 to |cache|
      invariant |list| == n
      invariant forall k :: 0 <= k < n ==>
        list[k] == Item(cache[k].rid, s.reservations[cache[k].rid].versions[cache[k].ver])
    {
      assert cache[n] in cache;
      list := list + [Item(cache[n].rid, s.reservations[cache[n].rid].versions[cache[n].ver])];
    }
    offers := GetInstructions(list, c);
    forall o | o in offers ensures FromBroker(s, o, c) {
      var k :| 0 <= k < |list| && list[k].r.phase == Reserved && list[k].r.target == c
        && o == Offer(list[k].id, list[k].r.requester, list[k].r.request, true, list[k].r.expiresAt);
      assert cache[k] in cache && list[k].r in s.reservations[o.id].versions && Shows(o, list[k].r, c);
    }
    forall x | x in cache
      ensures var v := s.reservations[x.rid].versions[x.ver];
        v.phase == Reserved && v.target == c ==> Offer(x.rid, v.requester, v.request, true, v.expiresAt) in offers
    {
      var k :| 0 <= k < |cache| && cache[k] == x;
      assert list[k].id == x.rid;
    }
  }

  /** What a stored instruction says is what its reservation says. */
  lemma InstructionSays(s: State, i: ProviderInstruction, c: ClusterId)
    requires Reachable(s) && Faithful(s, i, c)
    ensures i.reservation < |s.reservations| && |s.reservations[i.reservation].versions| > 0
    ensures var r := Last(s.reservations[i.reservation].versions);
      && i.requester == r.requester && i.cpu == Number(r.request.cpu) && i.memory == Number(r.request.memory)
      && (r.phase == Reserved || r.phase == Active ==> i.expiresAt == r.expiresAt)
  {
    var j := MadeFrom(s, i, c);
    ReachableLifeline(s, i.reservation);
    var v := s.reservations[i.reservation].versions;
    LifelineForward(v, j, |v| - 1);
    if HeldPhase(Last(v).phase) {
      HeldOnward(v, j, |v| - 1);
    }
  }

  /** The offer is a Reserved version of one of the broker's reservations for cluster c, as a listing then showed it. */
  ghost predicate FromBroker(s: State, o: Offer, c: ClusterId) {
    o.id < |s.reservations|
    && exists v :: v in s.reservations[o.id].versions && Shows(o, v, c)
  }

  /** Version v is Reserved on cluster c, and the offer says so and what it says. */
  predicate Shows(o: Offer, v: Reservation, c: ClusterId) {
    v.phase == Reserved && v.target == c && o == Offer(o.id, v.requester, v.request, true, v.expiresAt)
  }

  /** The instruction holds what some Reserved version of its reservation says. */
  ghost predicate Faithful(s: State, i: ProviderInstruction, c: ClusterId) {
    exists o :: FromBroker(s, o, c) && i.(enforced := false) == Made(o)
  }

  /** Histories only grow: what an earlier state offered is still offered by history later. */
  lemma OffersPersist(s: State, s': State, o: Offer, c: ClusterId)
    requires Leads(s, s') && FromBroker(s, o, c)
    ensures FromBroker(s', o, c)
  {
    var events: seq<Event> :| Ran(s, events, s');
    assert Exec(s, events) == s';
    ExecKeepsOffers(s, events, o, c);
  }

  lemma {:induction false} ExecKeepsOffers(s: State, events: seq<Event>, o: Offer, c: ClusterId)
    requires FromBroker(s, o, c)
    ensures FromBroker(Exec(s, events), o, c)
  {
    if |events| > 0 {
      var before := events[..|events| - 1];
      ExecKeepsOffers(s, before, o, c);
      NextGrows(Exec(s, before), Last(events), o, c);
    }
  }

  lemma NextGrows(s: State, e: Event, o: Offer, c: ClusterId)
    requires FromBroker(s, o, c)
    ensures FromBroker(Next(s, e), o, c)
  {
    var v :| v in s.reservations[o.id].versions && Shows(o, v, c);
    VersionsPersist(s, e, o.id);
    assert v in Next(s, e).reservations[o.id].versions;
  }

  /** While a reservation is Reserved, its target, amounts and deadline do not change. */
  lemma {:induction false} ReservedIsFixed(v: seq<Reservation>, i: nat, j: nat)
    requires Lifeline(v) && i <= j < |v| && v[i].phase == Reserved && v[j].phase == Reserved
    ensures OfferOf(0, v[i]) == OfferOf(0, v[j])
    decreases j - i
  {
    if i < j {
      LifelineForward(v, i, j - 1);
      LifelineForward(v, j - 1, j);
      assert LifeStep(v[j - 1], v[j]);
      ReservedIsFixed(v, i, j - 1);
    }
  }

  /** So however stale the listings, all offers of one reservation agree, and their order never matters. */
  lemma BrokerOffersAgree(s: State, c: ClusterId, offers: set<Offer>)
    requires Reachable(s)
    requires forall o :: o in offers ==> FromBroker(s, o, c)
    ensures Agreeing(offers)
  {
    forall o, p | o in offers && p in offers && o.reserved && p.reserved && o.id == p.id ensures o == p {
      var i := OfferedBy(s, o, c);
      var j := OfferedBy(s, p, c);
      ReachableLifeline(s, o.id);
      var v := s.reservations[o.id].versions;
      if i <= j {
        ReservedIsFixed(v, i, j);
      } else {
        ReservedIsFixed(v, j, i);
      }
    }
  }

  /** The version an offer shows. */
  lemma OfferedBy(s: State, o: Offer, c: ClusterId) returns (j: nat)
    requires FromBroker(s, o, c)
    ensures o.id < |s.reservations| && j < |s.reservations[o.id].versions|
    ensures s.reservations[o.id].versions[j].phase == Reserved && o == OfferOf(o.id, s.reservations[o.id].versions[j])
  {
    var v :| v in s.reservations[o.id].versions && Shows(o, v, c);
    j :| j < |s.reservations[o.id].versions| && s.reservations[o.id].versions[j] == v;
  }

  /** The version an instruction was made from. */
  lemma MadeFrom(s: State, i: ProviderInstruction, c: ClusterId) returns (j: nat)
    requires Faithful(s, i, c)
    ensures i.reservation < |s.reservations| && j < |s.reservations[i.reservation].versions|
    ensures var v := s.reservations[i.reservation].versions[j];
      && v.phase == Reserved && i.expiresAt == v.expiresAt
      && i.cpu == Number(v.request.cpu) && i.memory == Number(v.request.memory) && i.requester == v.requester
  {
    var o :| FromBroker(s, o, c) && i.(enforced := false) == Made(o);
    var plain := i.(enforced := false);
    assert plain.reservation == i.reservation && plain.expiresAt == i.expiresAt
        && plain.cpu == i.cpu && plain.memory == i.memory && plain.requester == i.requester;
    j := OfferedBy(s, o, c);
  }

  ghost predicate AllFaithful(s: State, store: Store, c: ClusterId) {
    forall key :: key in store ==> store[key].reservation == key.id && Faithful(s, store[key], c)
  }

  function OffersOf(a: Act): seq<Offer> {
    if a.Tend? then [] else a.offers
  }

  ghost predicate ActsFromBroker(s: State, acts: seq<Act>, c: ClusterId) {
    forall a, o :: a in acts && o in OffersOf(a) ==> FromBroker(s, o, c)
  }

  lemma {:induction false} StoreIsFaithful(s: State, sp: Spaces, acts: seq<Act>, c: ClusterId)
    requires ActsFromBroker(s, acts, c)
    ensures AllFaithful(s, Acted(sp, map[], acts), c)
  {
    if |acts| > 0 {
      var before := acts[..|acts| - 1];
      assert forall a :: a in before ==> a in acts;
      StoreIsFaithful(s, sp, before, c);
      var store := Acted(sp, map[], before);
      var a := Last(acts);
      assert a in acts;
      var after := After(sp, store, a);
      forall key | key in after ensures after[key].reservation == key.id && Faithful(s, after[key], c) {
        if key in store {
          AfterAt(sp, store, a, key);
          assert after[key].(enforced := false).reservation == store[key].(enforced := false).reservation;
          assert Faithful(s, store[key], c);
        } else {
          NewIsFaithful(s, sp, store, a, key, c);
        }
      }
    }
  }

  lemma NewIsFaithful(s: State, sp: Spaces, store: Store, a: Act, key: Key, c: ClusterId)
    requires forall o :: o in OffersOf(a) ==> FromBroker(s, o, c)
    requires key !in store && key in After(sp, store, a)
    ensures After(sp, store, a)[key].reservation == key.id && Faithful(s, After(sp, store, a)[key], c)
  {
    var offers := OffersOf(a);
    FirstIsOffered(offers, key.id);
    if a.Polled? {
      DeliverAt(store, sp.instruction, offers, key);
    } else if a.Advertised? {
      DeliverAt(store, AdvertisedNamespace(sp.instruction, sp.target), offers, key);
    }
    var o := First(offers, key.id).value;
    assert After(sp, store, a)[key] == Made(o);
    assert FromBroker(s, o, c) && Made(o).(enforced := false) == Made(o);
  }

  // ----- expiry on both sides -----

  /** Under one clock an enforced instruction counts exactly while the broker would not expire its reservation. */
  lemma ExpiryAgrees(s: State, i: ProviderInstruction, c: ClusterId, now: int)
    requires Reachable(s) && Faithful(s, i, c)
    requires i.reservation < |s.reservations| && |s.reservations[i.reservation].versions| > 0
    requires HeldPhase(Last(s.reservations[i.reservation].versions).phase)
    ensures var r := Last(s.reservations[i.reservation].versions);
      i.enforced ==> (Counts(i, now) <==> !(r.expiresAt.Some? && now > r.expiresAt.value))
  {
    var j := MadeFrom(s, i, c);
    ReachableLifeline(s, i.reservation);
    var v := s.reservations[i.reservation].versions;
    HeldOnward(v, j, |v| - 1);
  }

  // ----- the sums -----

  function Requested(rec: Record, k: Resource): int {
    if |rec.versions| > 0 then Of(Last(rec.versions).request, k) else 0
  }

  function IndexSum(recs: seq<Record>, ids: set<nat>, k: Resource): int {
    if |recs| == 0 then 0
    else IndexSum(recs[..|recs| - 1], ids, k) + (if |recs| - 1 in ids then Requested(Last(recs), k) else 0)
  }

  lemma {:induction false} IndexSumAdd(recs: seq<Record>, ids: set<nat>, j: nat, k: Resource)
    requires j !in ids
    ensures IndexSum(recs, ids + {j}, k) == IndexSum(recs, ids, k) + (if j < |recs| then Requested(recs[j], k) else 0)
  {
    if |recs| > 0 {
      IndexSumAdd(recs[..|recs| - 1], ids, j, k);
    }
  }

  /** The reservations whose request the broker's ledger of c holds once. */
  ghost predicate Holds(s: State, i: nat, c: ClusterId) {
    && i < |s.reservations| && |s.reservations[i].versions| > 0
    && Last(s.reservations[i].versions).target == c && UnitsOf(s.reservations[i]) == 1
  }

  lemma {:induction false} SumIsIndexSum(recs: seq<Record>, ids: set<nat>, c: ClusterId, k: Resource)
    requires forall i: nat :: i < |recs| ==>
      ShareAt(recs[i], c, k) == if i in ids then Requested(recs[i], k) else 0
    ensures SumAt(recs, c, k) == IndexSum(recs, ids, k)
  {
    if |recs| > 0 {
      SumIsIndexSum(recs[..|recs| - 1], ids, c, k);
    }
  }

  function CountedIds(list: seq<ProviderInstruction>, now: int): set<nat> {
    set i | i in list && Counts(i, now) :: i.reservation
  }

  predicate Distinct(list: seq<ProviderInstruction>) {
    forall a, b :: 0 <= a < b < |list| ==> list[a].reservation != list[b].reservation
  }

  predicate Matches(recs: seq<Record>, i: ProviderInstruction, k: Resource) {
    i.reservation < |recs| && Share(i, k) == Requested(recs[i.reservation], k)
  }

  lemma {:induction false} ReservedIsIndexSum(recs: seq<Record>, list: seq<ProviderInstruction>, now: int, k: Resource)
    requires Distinct(list) && forall i :: i in list ==> Matches(recs, i, k)
    ensures ReservedSum(list, now, k) == IndexSum(recs, CountedIds(list, now), k)
  {
    var n := |list| - 1;
    if n < 0 {
      NoIndexSum(recs, k);
      assert CountedIds(list, now) == {};
    } else {
      var before := list[..n];
      ReservedIsIndexSum(recs, before, now, k);
      assert list[n] in list && Matches(recs, list[n], k);
      assert forall i :: i in list <==> i in before || i == list[n];
      if Counts(list[n], now) {
        assert CountedIds(list, now) == CountedIds(before, now) + {list[n].reservation};
        IndexSumAdd(recs, CountedIds(before, now), list[n].reservation, k);
      } else {
        assert CountedIds(list, now) == CountedIds(before, now);
      }
    }
  }

  lemma {:induction false} NoIndexSum(recs: seq<Record>, k: Resource)
    ensures IndexSum(recs, {}, k) == 0
  {
    if |recs| > 0 {
      NoIndexSum(recs[..|recs| - 1], k);
    }
  }

  /** A delivered instruction asks for what its reservation asks for. */
  lemma FaithfulMatches(s: State, i: ProviderInstruction, c: ClusterId, k: Resource)
    requires Reachable(s) && Faithful(s, i, c)
    ensures Matches(s.reservations, i, k)
  {
    var j := MadeFrom(s, i, c);
    ReachableLifeline(s, i.reservation);
    var v := s.reservations[i.reservation].versions;
    LifelineForward(v, j, |v| - 1);
  }

  // ----- the ledgers agree -----

  /**
   Whatever order and repetition brought them, if the instructions the agent counts are exactly
   those of the reservations the ledger of c holds, the agent's sum is the ledger.
   */
  lemma LedgersAgree(s: State, c: ClusterId, list: seq<ProviderInstruction>, now: int, k: Resource)
    requires CalmlyReached(s) && Distinct(list)
    requires forall i :: i in list ==> Faithful(s, i, c)
    requires forall i: nat :: i in CountedIds(list, now) <==> Holds(s, i, c)
    ensures ReservedSum(list, now, k) == LedgerOf(s, c, k)
  {
    CalmlyReachedKeeps(s);
    forall i | i in list ensures Matches(s.reservations, i, k) {
      FaithfulMatches(s, i, c, k);
    }
    ReservedIsIndexSum(s.reservations, list, now, k);
    forall i: nat | i < |s.reservations|
      ensures ShareAt(s.reservations[i], c, k)
           == if i in CountedIds(list, now) then Requested(s.reservations[i], k) else 0
    {
      UnitsPinned(s, i);
    }
    SumIsIndexSum(s.reservations, CountedIds(list, now), c, k);
  }

  // ----- the provider's store -----

  /** The keys in any order the list call may answer with. */
  predicate Enumerates(store: Store, keys: seq<Key>) {
    && (forall key :: key in store ==> key in keys) && (forall key :: key in keys ==> key in store)
    && (forall a, b :: 0 <= a < b < |keys| ==> keys[a] != keys[b])
  }

  function Listing(store: Store, keys: seq<Key>): seq<ProviderInstruction>
    requires forall key :: key in keys ==> key in store
  {
    seq(|keys|, i requires 0 <= i < |keys| => store[keys[i]])
  }

  predicate CountsFor(store: Store, id: nat, now: int) {
    exists key :: key in store && key.id == id && Counts(store[key], now)
  }

  lemma ListingIsGood(s: State, sp: Spaces, acts: seq<Act>, keys: seq<Key>, c: ClusterId, now: int)
    requires ActsFromBroker(s, acts, c) && Enumerates(Acted(sp, map[], acts), keys)
    ensures var store := Acted(sp, map[], acts);
      var list := Listing(store, keys);
      && Distinct(list) && (forall i :: i in list ==> Faithful(s, i, c))
      && (forall id: nat :: id in CountedIds(list, now) <==> CountsFor(store, id, now))
  {
    var store := Acted(sp, map[], acts);
    var list := Listing(store, keys);
    StoreIsFaithful(s, sp, acts, c);
    AtMostOnePerReservation(sp, acts);
    forall a, b | 0 <= a < b < |list| ensures list[a].reservation != list[b].reservation {
      assert keys[a] in store && keys[b] in store;
    }
    forall i | i in list ensures Faithful(s, i, c) {
      var n :| 0 <= n < |list| && list[n] == i;
      assert keys[n] in store;
    }
    forall id: nat ensures id in CountedIds(list, now) <==> CountsFor(store, id, now) {
      if id in CountedIds(list, now) {
        var i :| i in list && Counts(i, now) && i.reservation == id;
        var n :| 0 <= n < |list| && list[n] == i;
        assert keys[n] in store && keys[n].id == id;
      }
      if CountsFor(store, id, now) {
        var key :| key in store && key.id == id && Counts(store[key], now);
        var n :| 0 <= n < |keys| && keys[n] == key;
        assert list[n] in list;
      }
    }
  }

  /**
   However often and in whatever order its offers came, an instruction is counted at most once:
   the agent's sum is that of the requests of the reservations it counts.
   */
  lemma CountedOnce(s: State, sp: Spaces, acts: seq<Act>, keys: seq<Key>, c: ClusterId, now: int, k: Resource)
    requires Reachable(s) && ActsFromBroker(s, acts, c) && Enumerates(Acted(sp, map[], acts), keys)
    ensures var list := Listing(Acted(sp, map[], acts), keys);
      ReservedSum(list, now, k) == IndexSum(s.reservations, CountedIds(list, now), k)
  {
    var list := Listing(Acted(sp, map[], acts), keys);
    ListingIsGood(s, sp, acts, keys, c, now);
    forall i | i in list ensures Matches(s.reservations, i, k) {
      FaithfulMatches(s, i, c, k);
    }
    ReservedIsIndexSum(s.reservations, list, now, k);
  }

  /** Every reservation the ledger holds is stored, enforced and unexpired, and nothing else counts. */
  ghost predicate InStep(s: State, store: Store, c: ClusterId, now: int) {
    forall id: nat :: CountsFor(store, id, now) <==> Holds(s, id, c)
  }

  /** Then what the agent's deliveries and reconciles left sums up to the broker's ledger. */
  lemma DeliveredLedgersAgree(s: State, sp: Spaces, acts: seq<Act>, keys: seq<Key>, c: ClusterId, now: int, k: Resource)
    requires CalmlyReached(s) && ActsFromBroker(s, acts, c)
    requires Enumerates(Acted(sp, map[], acts), keys) && InStep(s, Acted(sp, map[], acts), c, now)
    ensures ReservedSum(Listing(Acted(sp, map[], acts), keys), now, k) == LedgerOf(s, c, k)
  {
    ListingIsGood(s, sp, acts, keys, c, now);
    LedgersAgree(s, c, Listing(Acted(sp, map[], acts), keys), now, k);
  }

  /** Between reconciles the held reservations are those whose phase says so. */
  lemma HeldByPhase(s: State, i: nat, c: ClusterId)
    requires CalmlyReached(s) && i < |s.reservations| && !BusyOn(s, i)
    ensures |s.reservations[i].versions| > 0
    ensures var r := Last(s.reservations[i].versions);
      Holds(s, i, c) <==> r.target == c && !r.gone && (r.phase == Reserved || r.phase == Active)
  {
    CalmlyReachedKeeps(s);
    UnitsPinned(s, i);
  }

  /** Then, for the same Allocatable and Allocated, the agent advertises the broker's headroom, clamped at zero. */
  lemma AvailableAgrees(s: State, sp: Spaces, acts: seq<Act>, keys: seq<Key>, c: ClusterId, now: int,
                        m: Measured, nodes: seq<Node>, pods: seq<Pod>)
    requires CalmlyReached(s) && ActsFromBroker(s, acts, c) && Exists(s, c)
    requires Enumerates(Acted(sp, map[], acts), keys) && InStep(s, Acted(sp, map[], acts), c, now)
    requires MeasuredRight(m, nodes, pods, Listing(Acted(sp, map[], acts), keys), now)
    requires var stored := Last(s.clusters[c]).advert.metrics;
      stored.allocatable.amount == m.allocatable.amount && stored.inUse.amount == m.inUse.amount
    ensures var stored := Last(s.clusters[c]).advert.metrics;
      && m.available.amount == Amount(Max(0, Headroom(stored).cpu), Max(0, Headroom(stored).memory))
      && (Settled(s.clusters[c]) ==>
            m.available.amount == Amount(Max(0, stored.available.amount.cpu), Max(0, stored.available.amount.memory)))
  {
    DeliveredLedgersAgree(s, sp, acts, keys, c, now, Cpu);
    DeliveredLedgersAgree(s, sp, acts, keys, c, now, Memory);
    CalmlyReachedKeeps(s);
    if Settled(s.clusters[c]) {
      SettledIsConsistent(s.clusters[c]);
    }
  }
}
