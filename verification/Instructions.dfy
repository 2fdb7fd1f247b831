/**
 Instructions to a provider: which reservations the broker offers, how the two delivery
 paths of the agent store them, and how the agent enforces and expires them.
 */
module Instructions {
  import opened Quantities
  import opened Protocol

  /** A quantity field as it arrives: an empty string, text that does not parse, or a number. */
  datatype Text = Missing | Malformed | Number(value: int)

  datatype ProviderInstruction = ProviderInstruction(
    reservation: nat, requester: ClusterId, cpu: Text, memory: Text, expiresAt: Option<int>, enforced: bool)

  /** A reservation as the broker sends it. */
  datatype Offer = Offer(id: nat, requester: ClusterId, request: Amount, reserved: bool, expiresAt: Option<int>)

  datatype Key = Key(namespace: nat, id: nat)

  type Store = map<Key, ProviderInstruction>

  /** Numbers stand for namespaces too; this is the empty one. */
  const NO_NAMESPACE: nat := 0

  /** The requeue interval when no expiry lies ahead, in seconds. */
  const RECHECK := 300

  // ----- the broker's side -----

  function OfferOf(id: nat, r: Reservation): Offer {
    Offer(id, r.requester, r.request, r.phase == Reserved, r.expiresAt)
  }

  datatype Item = Item(id: nat, r: Reservation)

  /** GetInstructions, and the same loop in the answer to an advertisement. */
  method GetInstructions(list: seq<Item>, c: ClusterId) returns (offers: seq<Offer>)
    ensures forall o :: o in offers ==>
      exists i :: 0 <= i < |list| && list[i].r.phase == Reserved && list[i].r.target == c
        && o == Offer(list[i].id, list[i].r.requester, list[i].r.request, true, list[i].r.expiresAt)
    ensures forall i :: 0 <= i < |list| && list[i].r.phase == Reserved && list[i].r.target == c ==>
      Offer(list[i].id, list[i].r.requester, list[i].r.request, true, list[i].r.expiresAt) in offers
  {
    offers := [];
    for n := 0 to |list|
      invariant forall o :: o in offers ==>
        exists i :: 0 <= i < n && list[i].r.phase == Reserved && list[i].r.target == c
          && o == Offer(list[i].id, list[i].r.requester, list[i].r.request, true, list[i].r.expiresAt)
      invariant forall i :: 0 <= i < n && list[i].r.phase == Reserved && list[i].r.target == c ==>
        Offer(list[i].id, list[i].r.requester, list[i].r.request, true, list[i].r.expiresAt) in offers
    {
      if list[n].r.phase == Reserved && list[n].r.target == c {
        offers := offers + [OfferOf(list[n].id, list[n].r)];
      }
    }
  }

  // ----- delivery -----

  function Made(o: Offer): ProviderInstruction {
    ProviderInstruction(o.id, o.requester, Number(o.request.cpu), Number(o.request.memory), o.expiresAt, false)
  }

  /** Create if absent, and only what is still Reserved. No object is created without a namespace. */
  function Put(store: Store, ns: nat, o: Offer): Store {
    if !o.reserved || Key(ns, o.id) in store || ns == NO_NAMESPACE then store else store[Key(ns, o.id) := Made(o)]
  }

  function Deliver(store: Store, ns: nat, offers: seq<Offer>): Store
    decreases |offers|
  {
    if |offers| == 0 then store else Deliver(Put(store, ns, offers[0]), ns, offers[1..])
  }

  /** The first offer of that reservation worth storing. */
  function First(offers: seq<Offer>, id: nat): Option<Offer> {
    if |offers| == 0 then None
    else if offers[0].reserved && offers[0].id == id then Some(offers[0])
    else First(offers[1..], id)
  }

  /** Whatever was there stays; otherwise the first offer decides; nothing else appears. */
  lemma {:induction false} DeliverAt(store: Store, ns: nat, offers: seq<Offer>, key: Key)
    ensures var after := Deliver(store, ns, offers);
      && (key in after <==> key in store || (key.namespace == ns != NO_NAMESPACE && First(offers, key.id).Some?))
      && (key in store ==> key in after && after[key] == store[key])
      && (key in after && key !in store ==> after[key] == Made(First(offers, key.id).value))
    decreases |offers|
  {
    if |offers| > 0 {
      DeliverAt(Put(store, ns, offers[0]), ns, offers[1..], key);
    }
  }

  lemma {:induction false} FirstIsOffered(offers: seq<Offer>, id: nat)
    ensures First(offers, id).Some? <==> exists o :: o in offers && o.reserved && o.id == id
    ensures First(offers, id).Some? ==> First(offers, id).value in offers && First(offers, id).value.id == id
                                        && First(offers, id).value.reserved
  {
    if |offers| > 0 {
      FirstIsOffered(offers[1..], id);
      assert forall o :: o in offers <==> o == offers[0] || o in offers[1..];
    }
  }

  /**
   A delivery on the fields: what was there stays; what is new was offered as Reserved under that
   name and says what the offer says, not yet enforced; and every such offer has an instruction.
   */
  lemma DeliverExactly(store: Store, ns: nat, offers: seq<Offer>)
    ensures var after := Deliver(store, ns, offers);
      && (forall key :: key in store ==> key in after && after[key] == store[key])
      && (forall key :: key in after && key !in store ==>
            key.namespace == ns != 0
            && exists o :: o in offers && o.reserved && o.id == key.id && after[key] == ProviderInstruction(
                 o.id, o.requester, Number(o.request.cpu), Number(o.request.memory), o.expiresAt, false))
      && (ns != 0 ==> forall o :: o in offers && o.reserved ==> Key(ns, o.id) in after)
  {
    var after := Deliver(store, ns, offers);
    forall key: Key
      ensures key in store ==> key in after && after[key] == store[key]
      ensures key in after && key !in store ==>
        key.namespace == ns != 0
        && exists o :: o in offers && o.reserved && o.id == key.id && after[key] == ProviderInstruction(
             o.id, o.requester, Number(o.request.cpu), Number(o.request.memory), o.expiresAt, false)
    {
      DeliverAt(store, ns, offers, key);
      FirstIsOffered(offers, key.id);
    }
    forall o | ns != 0 && o in offers && o.reserved ensures Key(ns, o.id) in after {
      DeliverAt(store, ns, offers, Key(ns, o.id));
      FirstIsOffered(offers, o.id);
    }
  }

  /** Offers of one reservation that are worth storing all say the same. */
  predicate Agreeing(offers: set<Offer>) {
    forall o, p :: o in offers && p in offers && o.reserved && p.reserved && o.id == p.id ==> o == p
  }

  function Elements(offers: seq<Offer>): set<Offer> {
    set o | o in offers
  }

  /** Repetition and order do not matter: the same agreeing offers in any two sequences leave the same store. */
  lemma OrderDoesNotMatter(store: Store, ns: nat, a: seq<Offer>, b: seq<Offer>)
    requires Elements(a) == Elements(b) && Agreeing(Elements(a))
    ensures Deliver(store, ns, a) == Deliver(store, ns, b)
  {
    var x, y := Deliver(store, ns, a), Deliver(store, ns, b);
    forall key: Key ensures (key in x <==> key in y) && (key in x ==> x[key] == y[key]) {
      DeliverAt(store, ns, a, key);
      DeliverAt(store, ns, b, key);
      FirstIsOffered(a, key.id);
      FirstIsOffered(b, key.id);
      assert forall o :: o in a <==> o in Elements(a);
      assert forall o :: o in b <==> o in Elements(b);
    }
  }

  /** Delivering the same offers again changes nothing. */
  lemma DeliveryIsIdempotent(store: Store, ns: nat, offers: seq<Offer>)
    ensures Deliver(Deliver(store, ns, offers), ns, offers) == Deliver(store, ns, offers)
  {
    var once := Deliver(store, ns, offers);
    forall key: Key ensures key in Deliver(once, ns, offers) <==> key in once {
      DeliverAt(store, ns, offers, key);
      DeliverAt(once, ns, offers, key);
    }
    forall key: Key | key in once ensures Deliver(once, ns, offers)[key] == once[key] {
      DeliverAt(once, ns, offers, key);
    }
  }

  // ----- enforcement and expiry -----

  predicate PastExpiry(i: ProviderInstruction, now: int) {
    i.expiresAt.Some? && i.expiresAt.value < now
  }

  function Tended(i: ProviderInstruction, now: int): ProviderInstruction {
    i.(enforced := !PastExpiry(i, now))
  }

  /** What the collector counts. */
  predicate Counts(i: ProviderInstruction, now: int) {
    i.enforced && !PastExpiry(i, now)
  }

  /** The provider's store and the code that changes it. */
  class ProviderAgent {
    const instructionNamespace: nat
    const targetNamespace: nat
    var store: Store

    /** From the two flags: an empty instruction namespace defaults to that of the advertisement. */
    constructor (instructionFlag: nat, advertisementFlag: nat)
      ensures store == map[] && targetNamespace == advertisementFlag
      ensures instructionNamespace == if instructionFlag == NO_NAMESPACE then advertisementFlag else instructionFlag
      ensures AdvertisedNamespace(instructionNamespace, targetNamespace) == instructionNamespace
    {
      instructionNamespace := if instructionFlag == NO_NAMESPACE then advertisementFlag else instructionFlag;
      targetNamespace := advertisementFlag;
      store := map[];
    }

    /** Path one: the poller. */
    method ProcessPolled(offers: seq<Offer>)
      modifies this
      ensures store == Deliver(old(store), instructionNamespace, offers)
    {
      Process(instructionNamespace, offers);
    }

    /** Path two: the answer to an advertisement, with a fallback for an empty namespace. */
    method ProcessAdvertised(offers: seq<Offer>)
      modifies this
      ensures store == Deliver(old(store), AdvertisedNamespace(instructionNamespace, targetNamespace), offers)
      ensures store == Deliver(old(store), if instructionNamespace == 0 then targetNamespace else instructionNamespace,
                               offers)
    {
      var ns := instructionNamespace;
      if ns == NO_NAMESPACE {
        ns := targetNamespace;
      }
      Process(ns, offers);
    }

    method Process(ns: nat, offers: seq<Offer>)
      modifies this
      ensures store == Deliver(old(store), ns, offers)
    {
      ghost var before := store;
      for n := 0 to |offers|
        invariant Deliver(store, ns, offers[n..]) == Deliver(before, ns, offers)
      {
        var o := offers[n];
        assert offers[n..][1..] == offers[n + 1..];
        if !o.reserved {
          continue;
        }
        if Key(ns, o.id) in store {
          continue;
        }
        var cpu, memory := Number(o.request.cpu), Number(o.request.memory);
        if ns != NO_NAMESPACE {
          store := store[Key(ns, o.id) := ProviderInstruction(o.id, o.requester, cpu, memory, o.expiresAt, false)];
        }
      }
      assert offers[|offers|..] == [];
    }

    /** Expire, or enforce, and say when to look again. The status write may fail, which changes nothing. */
    method Reconcile(key: Key, now: int, stored: bool) returns (requeue: Option<int>, ok: bool)
      modifies this
      ensures key !in old(store) ==> ok && requeue == None && store == old(store)
      ensures key in old(store) && ok ==> store == old(store)[key := Tended(old(store)[key], now)]
      ensures key in old(store) && ok ==>
        && key in store && store[key] == old(store)[key].(enforced := store[key].enforced)
        && (store[key].enforced <==> !(store[key].expiresAt.Some? && store[key].expiresAt.value < now))
      ensures !ok ==> !stored && store == old(store)
      ensures key in old(store) && ok ==>
        (requeue.None? <==> old(store)[key].expiresAt.Some? && old(store)[key].expiresAt.value < now)
      ensures key in old(store) && ok && requeue.Some? ==>
        requeue.value == match old(store)[key].expiresAt
                         case Some(t) => if t > now then t - now else 300
                         case None => 300
    {
      if key !in store {
        return None, true;
      }
      var i := store[key];
      if i.expiresAt.Some? && i.expiresAt.value < now {
        if !stored {
          return None, false;
        }
        store := store[key := i.(enforced := false)];
        return None, true;
      }
      if i.enforced {
        assert store == store[key := Tended(i, now)];
        return Some(Wait(i.expiresAt, now)), true;
      }
      if !stored {
        return None, false;
      }
      store := store[key := i.(enforced := true)];
      requeue, ok := Some(Wait(i.expiresAt, now)), true;
    }
  }

  function Wait(expiresAt: Option<int>, now: int): int {
    if expiresAt.Some? && expiresAt.value - now > 0 then expiresAt.value - now else RECHECK
  }

  function AdvertisedNamespace(instructionNamespace: nat, targetNamespace: nat): nat {
    if instructionNamespace == NO_NAMESPACE then targetNamespace else instructionNamespace
  }

  // ----- runs of the provider -----

  datatype Act =
    | Polled(offers: seq<Offer>)
    | Advertised(offers: seq<Offer>)
    | Tend(key: Key, now: int)

  /** Both namespaces of one agent. */
  datatype Spaces = Spaces(instruction: nat, target: nat)

  function SpacesOf(instructionFlag: nat, advertisementFlag: nat): Spaces {
    Spaces(if instructionFlag == NO_NAMESPACE then advertisementFlag else instructionFlag, advertisementFlag)
  }

  function After(sp: Spaces, store: Store, a: Act): Store {
    match a
    case Polled(offers) => Deliver(store, sp.instruction, offers)
    case Advertised(offers) => Deliver(store, AdvertisedNamespace(sp.instruction, sp.target), offers)
    case Tend(key, now) => if key in store then store[key := Tended(store[key], now)] else store
  }

  function Acted(sp: Spaces, store: Store, acts: seq<Act>): Store {
    if |acts| == 0 then store else After(sp, Acted(sp, store, acts[..|acts| - 1]), Last(acts))
  }

  lemma AfterAt(sp: Spaces, store: Store, a: Act, key: Key)
    requires key in store
    ensures key in After(sp, store, a)
    ensures After(sp, store, a)[key].(enforced := false) == store[key].(enforced := false)
    ensures !(a.Tend? && a.key == key) ==> After(sp, store, a)[key] == store[key]
  {
    match a
    case Polled(offers) => DeliverAt(store, sp.instruction, offers, key);
    case Advertised(offers) => DeliverAt(store, AdvertisedNamespace(sp.instruction, sp.target), offers, key);
    case Tend(_, _) =>
  }

  /** The first delivery fixes an instruction for good; only the enforced flag moves. */
  lemma {:induction false} FirstDeliveryFixes(sp: Spaces, store: Store, acts: seq<Act>, key: Key)
    requires key in store
    ensures key in Acted(sp, store, acts)
    ensures Acted(sp, store, acts)[key].(enforced := false) == store[key].(enforced := false)
  {
    if |acts| > 0 {
      FirstDeliveryFixes(sp, store, acts[..|acts| - 1], key);
      AfterAt(sp, Acted(sp, store, acts[..|acts| - 1]), Last(acts), key);
    }
  }

  /** Once reconciled past its expiry an instruction is not enforced again, while the clock does not go back. */
  lemma {:induction false} ExpiredStaysUnenforced(sp: Spaces, store: Store, key: Key, now: int, acts: seq<Act>)
    requires key in store && PastExpiry(store[key], now)
    requires forall j :: 0 <= j < |acts| && acts[j].Tend? ==> now <= acts[j].now
    ensures var after := Acted(sp, After(sp, store, Tend(key, now)), acts);
      key in after && !after[key].enforced && PastExpiry(after[key], now)
  {
    var first := After(sp, store, Tend(key, now));
    if |acts| > 0 {
      var before := acts[..|acts| - 1];
      ExpiredStaysUnenforced(sp, store, key, now, before);
      AfterAt(sp, Acted(sp, first, before), Last(acts), key);
      FirstDeliveryFixes(sp, first, acts, key);
      assert Acted(sp, first, acts)[key].(enforced := false).expiresAt == first[key].(enforced := false).expiresAt;
    }
  }

  // ----- at most one instruction per reservation -----

  predicate OnePerReservation(store: Store) {
    forall a, b :: a in store && b in store && a.id == b.id ==> a == b
  }

  lemma {:induction false} OneNamespace(sp: Spaces, acts: seq<Act>, key: Key)
    requires key in Acted(sp, map[], acts)
    ensures key.namespace == AdvertisedNamespace(sp.instruction, sp.target) != NO_NAMESPACE
  {
    if |acts| > 0 {
      var before := Acted(sp, map[], acts[..|acts| - 1]);
      if key in before {
        OneNamespace(sp, acts[..|acts| - 1], key);
      } else {
        match Last(acts)
        case Polled(offers) => DeliverAt(before, sp.instruction, offers, key);
        case Advertised(offers) => DeliverAt(before, AdvertisedNamespace(sp.instruction, sp.target), offers, key);
        case Tend(_, _) =>
      }
    }
  }

  /** Any mix of polled and advertised offers gives at most one instruction per reservation, whatever the namespaces. */
  lemma AtMostOnePerReservation(sp: Spaces, acts: seq<Act>)
    ensures OnePerReservation(Acted(sp, map[], acts))
  {
    var store := Acted(sp, map[], acts);
    forall a, b | a in store && b in store && a.id == b.id ensures a == b {
      OneNamespace(sp, acts, a);
      OneNamespace(sp, acts, b);
    }
  }

  /** With the default filled in, the two paths write to the same namespace. */
  lemma PathsAgree(instructionFlag: nat, advertisementFlag: nat)
    ensures var sp := SpacesOf(instructionFlag, advertisementFlag);
      AdvertisedNamespace(sp.instruction, sp.target) == sp.instruction
  {
  }
}
