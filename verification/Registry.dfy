/** The two collections in which a Client keeps its HTTP/2 connections: the one currently
    dispatchable connection of each key, and the set of all of them. */
module Registry {
  import opened Wrappers

  type H2Id = nat

  datatype H2 = H2(key: string, alive: bool, goingAway: bool)

  /** `known` is every connection ever registered, with its state; the client itself holds `keyed`
      and `all` only. */
  datatype Register = Register(keyed: map<string, H2Id>, all: set<H2Id>, known: map<H2Id, H2>)

  function NoConnections(): Register {
    Register(map[], {}, map[])
  }

  /** The connection a request for `key` may be dispatched on, concurrency limits aside. */
  function Current(r: Register, key: string): Option<H2Id> {
    if key in r.keyed && r.keyed[key] in r.known
       && r.known[r.keyed[key]].alive && !r.known[r.keyed[key]].goingAway
    then Some(r.keyed[key]) else None
  }

  function Add(r: Register, key: string, h: H2Id): Register {
    Register(r.keyed[key := h], r.all + {h}, r.known[h := H2(key, true, false)])
  }

  /** onClose: the keyed entry goes only if it is still this connection. */
  function Forget(r: Register, h: H2Id): Register
    requires h in r.known
  {
    var key := r.known[h].key;
    r.(all := r.all - {h}, keyed := if key in r.keyed && r.keyed[key] == h then r.keyed - {key} else r.keyed)
  }

  /** A GOAWAY runs onClose although the streams the peer accepted go on. */
  function GoAway(r: Register, h: H2Id): Register
    requires h in r.known
  {
    Forget(r, h).(known := r.known[h := r.known[h].(goingAway := true)])
  }

  function Die(r: Register, h: H2Id): Register
    requires h in r.known
  {
    Forget(r, h).(known := r.known[h := r.known[h].(alive := false)])
  }

  /** close(): every connection of the set is closed, and both collections are emptied. */
  function CloseAll(r: Register): Register {
    Register(map[], {}, map h <- r.known :: if h in r.all then r.known[h].(alive := false) else r.known[h])
  }

  /** A keyed connection is in the set and has that key; the set holds exactly the connections that
      are alive and have not been told to go away. */
  ghost predicate Consistent(r: Register) {
    && (forall key <- r.keyed :: 
          r.keyed[key] in r.all && r.keyed[key] in r.known && r.known[r.keyed[key]].key == key)
    && (forall h :: h in r.all <==> h in r.known && r.known[h].alive && !r.known[h].goingAway)
  }
}
