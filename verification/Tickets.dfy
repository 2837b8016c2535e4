/** The session-ticket store of a Client (src/tls/tickets.js), as the client uses it. */
module Tickets {
  import opened Wrappers

  type TicketId = nat

  const MAX_PER_KEY := 2

  /** `earned` records the key under which each ticket was captured and `offered` every offer made;
      the store itself holds `held` only. */
  datatype Store = Store(
    held: map<string, seq<TicketId>>,
    earned: map<TicketId, string>,
    offered: seq<(TicketId, string)>)

  function NoTickets(): Store {
    Store(map[], map[], [])
  }

  function Held(s: Store, key: string): seq<TicketId> {
    if key in s.held then s.held[key] else []
  }

  /** File a ticket under `key`, dropping the oldest beyond the limit. */
  function Put(s: Store, key: string, t: TicketId): Store {
    var list := Held(s, key) + [t];
    var kept := if |list| > MAX_PER_KEY then list[|list| - MAX_PER_KEY..] else list;
    s.(held := s.held[key := kept], earned := s.earned[t := key])
  }

  /** Consume the freshest ticket of `key`, passing over the `expired` newest ones. */
  function Take(s: Store, key: string, expired: nat): (Store, Option<TicketId>) {
    var list := Held(s, key);
    if |list| <= expired then
      (s.(held := s.held - {key}), None)
    else
      var n := |list| - expired - 1;
      var held := if n == 0 then s.held - {key} else s.held[key := list[..n]];
      (s.(held := held, offered := s.offered + [(list[n], key)]), Some(list[n]))
  }

  function Clear(s: Store): Store {
    s.(held := map[])
  }

  /** Of a key the two freshest tickets are kept, the fresher one last. */
  lemma PutFiles(s: Store, key: string, t: TicketId)
    ensures
      var list, s' := if key in s.held then s.held[key] else [], Put(s, key, t);
      && s'.held.Keys == s.held.Keys + {key} && (forall k <- s.held :: k != key ==> s'.held[k] == s.held[k])
      && s'.held[key] == (if list == [] then [t] else [list[|list| - 1], t])
      && s'.offered == s.offered && s'.earned == s.earned[t := key]
  {
  }

  /** A take offers the freshest ticket before the `expired` newest ones, drops those, and leaves the older
      ones; with none left it offers nothing and forgets the key. */
  lemma TakeOffers(s: Store, key: string, expired: nat)
    ensures
      var list, (s', offer) := if key in s.held then s.held[key] else [], Take(s, key, expired);
      && (forall k :: k != key ==> (k in s'.held <==> k in s.held))
      && (forall k <- s.held :: k != key ==> s'.held[k] == s.held[k])
      && s'.earned == s.earned
      && if |list| <= expired then offer == None && key !in s'.held && s'.offered == s.offered
         else
           var n := |list| - 1 - expired;
           && offer == Some(list[n]) && s'.offered == s.offered + [(list[n], key)]
           && (if n == 0 then key !in s'.held else key in s'.held && s'.held[key] == list[..n])
  {
  }

  /** Every ticket held or offered was captured under that very key. */
  ghost predicate Isolated(s: Store) {
    && (forall key, t :: key in s.held && t in s.held[key] ==> t in s.earned && s.earned[t] == key)
    && (forall o <- s.offered :: o.0 in s.earned && s.earned[o.0] == o.1)
  }

  /** No ticket is held twice, offered twice, or held after being offered. */
  ghost predicate SingleUse(s: Store) {
    && (forall key <- s.held :: Distinct(s.held[key]))
    && (forall i, j | 0 <= i < j < |s.offered| :: s.offered[i].0 != s.offered[j].0)
    && (forall key, t, i | key in s.held && t in s.held[key] && 0 <= i < |s.offered| :: s.offered[i].0 != t)
  }

  ghost predicate Distinct(list: seq<TicketId>) {
    forall i, j | 0 <= i < j < |list| :: list[i] != list[j]
  }

  lemma PutKeeps(s: Store, key: string, t: TicketId)
    requires Isolated(s) && SingleUse(s) && t !in s.earned
    ensures Isolated(Put(s, key, t)) && SingleUse(Put(s, key, t))
  {
    var s' := Put(s, key, t);
    var list := Held(s, key) + [t];
    forall k, x | k in s'.held && x in s'.held[k]
      ensures x in Held(s, k) || (x == t && k == key)
    {
      if k == key {
        assert x in list;
      }
    }
    assert Distinct(list);
  }

  lemma TakeKeeps(s: Store, key: string, expired: nat)
    requires Isolated(s) && SingleUse(s)
    ensures Isolated(Take(s, key, expired).0) && SingleUse(Take(s, key, expired).0)
    ensures
      var (s', offer) := Take(s, key, expired);
      && (offer.Some? ==> offer.value in Held(s, key) && s'.offered == s.offered + [(offer.value, key)])
      && (offer.None? ==> s'.offered == s.offered)
  {
    var (s', offer) := Take(s, key, expired);
    if offer.Some? {
      var list := Held(s, key);
      assert offer.value in s.held[key];
      forall k, t | k in s'.held && t in s'.held[k]
        ensures t in Held(s, k) && t != offer.value
      {
        assert t in s.held[k];
        if k != key {
          assert s.earned[t] == k && s.earned[offer.value] == key;
        }
      }
    }
  }
}
