/** Ordered request headers (src/client/header-order.js) and the two paths that build them: for
    HTTP/1.1 and for HTTP/2 (src/client.js). */
module Headers {
  import opened Wrappers

  datatype Field = Field(name: string, value: string)

  type Fields = seq<Field>

  function LowerChar(c: char): char {
    if 'A' <= c <= 'Z' then c + ' ' else c
  }

  function Lower(s: string): (r: string)
    ensures |r| == |s| && forall k | 0 <= k < |s| :: r[k] == LowerChar(s[k])
  {
    seq(|s|, k requires 0 <= k < |s| => LowerChar(s[k]))
  }

  lemma LowerIs(s: string, k: nat)
    requires k < |s|
    ensures Lower(s)[k] as int == if 'A' <= s[k] <= 'Z' then s[k] as int + 32 else s[k] as int
  {
  }

  lemma LowerTwice(s: string)
    ensures Lower(Lower(s)) == Lower(s)
  {
  }

  // ---------------------------------------------------------------- what the operations do

  /** The first field of that name in any case, or the length of the list. */
  function Find(list: Fields, name: string): (at: nat)
    ensures at <= |list|
    ensures at < |list| ==> Lower(list[at].name) == Lower(name)
    ensures forall k | 0 <= k < at :: Lower(list[k].name) != Lower(name)
  {
    if list == [] || Lower(list[0].name) == Lower(name) then 0 else 1 + Find(list[1..], name)
  }

  predicate Has(list: Fields, name: string) {
    Find(list, name) < |list|
  }

  /** The list without the fields of these names, which are given in lower case. */
  function Without(list: Fields, names: set<string>): Fields {
    if list == [] then []
    else if Lower(list[0].name) in names then Without(list[1..], names)
    else [list[0]] + Without(list[1..], names)
  }

  /** The value goes where the first field of that name is, under the name as it stands there, and
      takes the place of all of them; a name that is new goes last. */
  function With(list: Fields, name: string, value: string): Fields {
    if list == [] then [Field(name, value)]
    else if Lower(list[0].name) == Lower(name)
    then [Field(list[0].name, value)] + Without(list[1..], {Lower(name)})
    else [list[0]] + With(list[1..], name, value)
  }

  function Values(list: Fields, name: string): seq<string> {
    if list == [] then []
    else if Lower(list[0].name) == Lower(name) then [list[0].value] + Values(list[1..], name)
    else Values(list[1..], name)
  }

  function Commas(values: seq<string>): string {
    if |values| == 0 then "" else if |values| == 1 then values[0] else values[0] + ", " + Commas(values[1..])
  }

  // ---------------------------------------------------------------- order

  /** The last place of a name in the order. */
  function LastPlace(order: seq<string>, name: string): Option<nat> {
    if order == [] then None
    else if order[|order| - 1] == name then Some(|order| - 1)
    else LastPlace(order[..|order| - 1], name)
  }

  function StarPlace(order: seq<string>): nat {
    if order == [] || order[0] == "*" then 0 else 1 + StarPlace(order[1..])
  }

  lemma {:induction false} LastPlaceIs(order: seq<string>, name: string)
    ensures LastPlace(order, name).None? <==> name !in order
    ensures LastPlace(order, name).Some? ==>
              var at := LastPlace(order, name).value;
              at < |order| && order[at] == name && forall j | at < j < |order| :: order[j] != name
  {
    if order != [] {
      assert order == order[..|order| - 1] + [order[|order| - 1]];
      LastPlaceIs(order[..|order| - 1], name);
    }
  }

  lemma {:induction false} StarPlaceIs(order: seq<string>)
    ensures StarPlace(order) <= |order| && (StarPlace(order) < |order| ==> order[StarPlace(order)] == "*")
    ensures forall j | 0 <= j < StarPlace(order) :: order[j] != "*"
  {
    if order != [] && order[0] != "*" {
      StarPlaceIs(order[1..]);
    }
  }

  /** A field ranks at the last place of its name in the order; one whose name is not there, where the first
      star is, or behind everything. */
  lemma RankIs(order: seq<string>, f: Field)
    ensures
      var name, at := Lower(f.name), Rank(order, f);
      if name in order && name != "*" then
        at < |order| && order[at] == name && forall j | at < j < |order| :: order[j] != name
      else
        && at <= |order| && (at < |order| ==> order[at] == "*")
        && forall j | 0 <= j < at :: order[j] != "*"
  {
    LastPlaceIs(order, Lower(f.name));
    StarPlaceIs(order);
  }

  /** Where a field belongs: at the place of its name, or where the star is, or last. */
  function Rank(order: seq<string>, f: Field): nat {
    var name := Lower(f.name);
    if name == "*" || LastPlace(order, name).None? then StarPlace(order) else LastPlace(order, name).value
  }

  /** Before the first field that does not rank lower. */
  function Place(f: Field, list: Fields, order: seq<string>): Fields {
    if list == [] || Rank(order, f) <= Rank(order, list[0]) then [f] + list
    else [list[0]] + Place(f, list[1..], order)
  }

  function Reordered(list: Fields, order: seq<string>): Fields {
    if list == [] then [] else Place(list[0], Reordered(list[1..], order), order)
  }

  function Lowered(list: Fields): Fields {
    if list == [] then [] else [Field(Lower(list[0].name), list[0].value)] + Lowered(list[1..])
  }

  ghost predicate InOrder(list: Fields, order: seq<string>) {
    forall i, j | 0 <= i < j < |list| :: Rank(order, list[i]) <= Rank(order, list[j])
  }

  /** The fields of one rank, in their own order. */
  function OfRank(list: Fields, order: seq<string>, rank: nat): Fields {
    if list == [] then []
    else if Rank(order, list[0]) == rank then [list[0]] + OfRank(list[1..], order, rank)
    else OfRank(list[1..], order, rank)
  }

  lemma {:induction false} PlaceKeeps(f: Field, list: Fields, order: seq<string>, rank: nat)
    requires InOrder(list, order)
    ensures InOrder(Place(f, list, order), order)
    ensures forall g <- Place(f, list, order) :: g == f || g in list
    ensures OfRank(Place(f, list, order), order, rank) == OfRank([f] + list, order, rank)
  {
    hide Rank;
    if list != [] && Rank(order, f) > Rank(order, list[0]) {
      PlaceKeeps(f, list[1..], order, rank);
      var rest := Place(f, list[1..], order);
      forall k | 0 <= k < |rest| ensures Rank(order, list[0]) <= Rank(order, rest[k]) {
        assert rest[k] == f || rest[k] in list[1..];
      }
      assert ([f] + list)[1..] == list && ([f] + list[1..])[1..] == list[1..];
      assert ([list[0]] + rest)[1..] == rest;
    }
  }

  /** Reordering ranks the fields, and fields of one rank keep the order they had. */
  lemma {:induction false} ReorderIsStable(list: Fields, order: seq<string>, rank: nat)
    ensures InOrder(Reordered(list, order), order)
    ensures OfRank(Reordered(list, order), order, rank) == OfRank(list, order, rank)
  {
    hide Rank;
    if list != [] {
      ReorderIsStable(list[1..], order, rank);
      PlaceKeeps(list[0], Reordered(list[1..], order), order, rank);
      assert ([list[0]] + Reordered(list[1..], order))[1..] == Reordered(list[1..], order);
    }
  }

  // ---------------------------------------------------------------- how they go together

  lemma {:induction false} WithoutTwice(list: Fields, a: set<string>, b: set<string>)
    ensures Without(Without(list, a), b) == Without(list, a + b)
  {
    if list != [] {
      WithoutTwice(list[1..], a, b);
    }
  }

  lemma {:induction false} WithoutWith(list: Fields, name: string, value: string, names: set<string>)
    ensures Without(With(list, name, value), names) ==
            if Lower(name) in names then Without(list, names) else With(Without(list, names), name, value)
  {
    if list == [] {
      assert [Field(name, value)][1..] == [];
    } else if Lower(list[0].name) == Lower(name) {
      WithoutTwice(list[1..], {Lower(name)}, names);
      WithoutTwice(list[1..], names, {Lower(name)});
      var tail := Without(list[1..], {Lower(name)});
      assert ([Field(list[0].name, value)] + tail)[1..] == tail;
      if Lower(name) in names {
        assert {Lower(name)} + names == names;
      } else {
        assert ([list[0]] + Without(list[1..], names))[1..] == Without(list[1..], names);
        assert {Lower(name)} + names == names + {Lower(name)};
      }
    } else {
      WithoutWith(list[1..], name, value, names);
      var tail := With(list[1..], name, value);
      assert ([list[0]] + tail)[1..] == tail;
      if Lower(list[0].name) !in names {
        assert ([list[0]] + Without(list[1..], names))[1..] == Without(list[1..], names);
      }
    }
  }

  lemma {:induction false} WithoutPlace(f: Field, list: Fields, order: seq<string>, names: set<string>)
    requires InOrder(list, order)
    ensures Without(Place(f, list, order), names) ==
            if Lower(f.name) in names then Without(list, names) else Place(f, Without(list, names), order)
  {
    hide Rank;
    if list == [] || Rank(order, f) <= Rank(order, list[0]) {
      assert ([f] + list)[1..] == list;
      FirstLeft(list, names);
    } else {
      WithoutPlace(f, list[1..], order, names);
      var tail := Place(f, list[1..], order);
      assert ([list[0]] + tail)[1..] == tail;
      if Lower(list[0].name) !in names {
        assert ([list[0]] + Without(list[1..], names))[1..] == Without(list[1..], names);
      }
    }
  }

  lemma {:induction false} FirstLeft(list: Fields, names: set<string>)
    ensures Without(list, names) != [] ==> Without(list, names)[0] in list
  {
    if list != [] {
      FirstLeft(list[1..], names);
    }
  }

  /** Dropping fields and reordering them may be done in either order. */
  lemma {:induction false} WithoutReordered(list: Fields, order: seq<string>, names: set<string>)
    ensures Without(Reordered(list, order), names) == Reordered(Without(list, names), order)
  {
    if list != [] {
      WithoutReordered(list[1..], order, names);
      ReorderIsStable(list[1..], order, 0);
      WithoutPlace(list[0], Reordered(list[1..], order), order, names);
      if Lower(list[0].name) !in names {
        assert ([list[0]] + Without(list[1..], names))[1..] == Without(list[1..], names);
      }
    }
  }
}
