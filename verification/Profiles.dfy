/** `applyProfile` of src/profiles.js: folding a fingerprint profile into the options of a Client. */
module Profiles {
  import opened Wrappers

  /** What stands under a name: undefined or null, another false value, or something. */
  datatype Entry = Absent | Off | Given(id: nat)

  type Table = map<string, Entry>

  /** One entry of `requires`, such as cipher:chacha20. */
  datatype Need = Need(kind: string, what: string)

  datatype Profile = Profile(
    name: string, tls: Option<Table>, kinds: map<string, Table>, fields: Table, headers: Option<nat>,
    requires_: seq<Need>)

  /** The `profile` option as a caller may set it. */
  datatype Chosen = NoProfile | NotAProfile | Chosen(profile: Profile)

  /** `kinds` holds the tables of injected implementations that were given. */
  datatype Options = Options(
    chosen: Chosen, http2Off: bool, tls: Option<Table>, kinds: map<string, Table>, fields: Table,
    profileHeaders: Option<nat>)

  const KINDS := ["ciphers", "groups", "decoders"]

  const FIELDS := ["headerOrder", "http2Settings", "http2ConnectionWindow",
                   "http2PseudoHeaderOrder", "http2HpackIndexing", "http2HeadersPriority"]

  datatype Refusal = BadProfile | Missing(needs: seq<Need>)

  // ---------------------------------------------------------------- what is to come out

  function At(t: Table, name: string): Entry {
    if name in t then t[name] else Absent
  }

  function Under(kinds: map<string, Table>, kind: string, what: string): Entry {
    if kind in kinds then At(kinds[kind], what) else Absent
  }

  predicate Supplied(o: Options, p: Profile, kind: string, what: string) {
    var mine := Under(o.kinds, kind, what);
    (if mine.Absent? then Under(p.kinds, kind, what) else mine).Given?
  }

  predicate Unmet(o: Options, p: Profile, need: Need) {
    || (need.kind == "decoder" && !Supplied(o, p, "decoders", need.what))
    || (need.kind == "cipher" && !Supplied(o, p, "ciphers", need.what))
    || (need.kind == "group" && !Supplied(o, p, "groups", need.what))
    || (need.kind == "http2" && !o.http2Off)
  }

  function UnmetNeeds(o: Options, p: Profile, needs: seq<Need>): seq<Need> {
    if needs == [] then []
    else
      UnmetNeeds(o, p, needs[..|needs| - 1]) +
      (if Unmet(o, p, needs[|needs| - 1]) then [needs[|needs| - 1]] else [])
  }

  /** `{ ...theirs, ...mine }`. */
  function Over(theirs: Table, mine: Table): Table {
    theirs + mine
  }

  function MineOrNone(t: Option<Table>): Table {
    match t case None => map[] case Some(table) => table
  }

  function Filled(mine: Table, theirs: Table, name: string): Table {
    if At(mine, name).Absent? && !At(theirs, name).Absent? then mine[name := theirs[name]] else mine
  }

  function FilledAll(mine: Table, theirs: Table, names: seq<string>): Table {
    if names == [] then mine
    else Filled(FilledAll(mine, theirs, names[..|names| - 1]), theirs, names[|names| - 1])
  }

  function KindFilled(mine: map<string, Table>, theirs: map<string, Table>, kind: string): map<string, Table> {
    if kind !in theirs then mine
    else mine[kind := Over(theirs[kind], if kind in mine then mine[kind] else map[])]
  }

  function KindsFilled(mine: map<string, Table>, theirs: map<string, Table>, kinds: seq<string>): map<string, Table> {
    if kinds == [] then mine
    else KindFilled(KindsFilled(mine, theirs, kinds[..|kinds| - 1]), theirs, kinds[|kinds| - 1])
  }

  function Folded(o: Options, p: Profile): Options {
    Options(
      o.chosen, o.http2Off,
      if p.tls.Some? then Some(Over(p.tls.value, MineOrNone(o.tls))) else o.tls,
      KindsFilled(o.kinds, p.kinds, KINDS),
      FilledAll(o.fields, p.fields, FIELDS),
      if p.headers.Some? then p.headers else o.profileHeaders)
  }

  function Applied(o: Options): Result<Options, Refusal> {
    match o.chosen
    case NoProfile => Ok(o)
    case NotAProfile => Err(BadProfile)
    case Chosen(p) =>
      if p.name == "" then Err(BadProfile)
      else if UnmetNeeds(o, p, p.requires_) != [] then Err(Missing(UnmetNeeds(o, p, p.requires_)))
      else Ok(Folded(o, p))
  }

  // ---------------------------------------------------------------- left-biased

  lemma {:induction false} FilledAllAt(mine: Table, theirs: Table, names: seq<string>, name: string)
    ensures
      var all := FilledAll(mine, theirs, names);
      && (name in all <==> name in mine || (name in names && !At(theirs, name).Absent?))
      && At(all, name) == if !At(mine, name).Absent? || name !in names then At(mine, name)
                          else if !At(theirs, name).Absent? then At(theirs, name) else At(mine, name)
  {
    if names != [] {
      var front, last := names[..|names| - 1], names[|names| - 1];
      FilledAllAt(mine, theirs, front, name);
      assert names == front + [last];
    }
  }

  lemma OverTwice(theirs: Table, mine: Table)
    ensures Over(theirs, Over(theirs, mine)) == Over(theirs, mine)
  {
  }

  lemma {:induction false} KindsFilledAt(
      mine: map<string, Table>, theirs: map<string, Table>, kinds: seq<string>, kind: string)
    ensures
      var all := KindsFilled(mine, theirs, kinds);
      && (kind in all <==> kind in mine || (kind in kinds && kind in theirs))
      && (kind in all ==>
            all[kind] == if kind in theirs && kind in kinds
                         then Over(theirs[kind], if kind in mine then mine[kind] else map[]) else mine[kind])
  {
    hide Over;
    if kinds != [] {
      var front, last := kinds[..|kinds| - 1], kinds[|kinds| - 1];
      KindsFilledAt(mine, theirs, front, kind);
      assert kinds == front + [last];
      if kind in theirs {
        OverTwice(theirs[kind], if kind in mine then mine[kind] else map[]);
      }
    }
  }

  /** The caller's table wins entry by entry. */
  ghost predicate LeftBiased(mine: Table, theirs: Table, both: Table) {
    && both.Keys == mine.Keys + theirs.Keys
    && (forall name <- mine :: both[name] == mine[name])
    && (forall name <- theirs :: name !in mine ==> both[name] == theirs[name])
  }

  lemma OverIsLeftBiased(theirs: Table, mine: Table)
    ensures LeftBiased(mine, theirs, Over(theirs, mine))
  {
  }

  /** Everything the caller named survives, and what was not named comes from the profile. */
  lemma CallerWins(o: Options, p: Profile)
    requires o.chosen == Chosen(p) && Applied(o).Ok?
    ensures
      var out := Applied(o).value;
      && (p.tls.Some? ==> out.tls.Some? && LeftBiased(MineOrNone(o.tls), p.tls.value, out.tls.value))
      && (p.tls.None? ==> out.tls == o.tls)
      && (forall kind <- KINDS :: kind in p.kinds ==>
            && kind in out.kinds
            && LeftBiased(if kind in o.kinds then o.kinds[kind] else map[], p.kinds[kind], out.kinds[kind]))
      && (forall kind <- o.kinds :: !(kind in p.kinds && kind in KINDS) ==>
            kind in out.kinds && out.kinds[kind] == o.kinds[kind])
      && (forall name :: At(out.fields, name) ==
            if At(o.fields, name).Absent? && name in FIELDS && !At(p.fields, name).Absent?
            then At(p.fields, name) else At(o.fields, name))
      && out.chosen == o.chosen && out.http2Off == o.http2Off
      && out.profileHeaders == (if p.headers.Some? then p.headers else o.profileHeaders)
  {
    var out := Applied(o).value;
    hide LeftBiased, Over, FilledAll, KindsFilled;
    if p.tls.Some? {
      OverIsLeftBiased(p.tls.value, MineOrNone(o.tls));
    }
    forall kind <- KINDS | kind in p.kinds
      ensures kind in out.kinds
      ensures LeftBiased(if kind in o.kinds then o.kinds[kind] else map[], p.kinds[kind], out.kinds[kind])
    {
      KindsFilledAt(o.kinds, p.kinds, KINDS, kind);
      OverIsLeftBiased(p.kinds[kind], if kind in o.kinds then o.kinds[kind] else map[]);
    }
    forall kind <- o.kinds | !(kind in p.kinds && kind in KINDS)
      ensures kind in out.kinds && out.kinds[kind] == o.kinds[kind]
    {
      KindsFilledAt(o.kinds, p.kinds, KINDS, kind);
    }
    forall name
      ensures At(out.fields, name) ==
              if At(o.fields, name).Absent? && name in FIELDS && !At(p.fields, name).Absent?
              then At(p.fields, name) else At(o.fields, name)
    {
      FilledAllAt(o.fields, p.fields, FIELDS, name);
    }
  }

  /** Which tables of implementations and which fields a profile can fill, one by one. */
  lemma TheseAreFilled()
    ensures forall kind :: kind in KINDS <==> kind == "ciphers" || kind == "groups" || kind == "decoders"
    ensures forall field :: field in FIELDS <==>
              || field == "headerOrder" || field == "http2Settings" || field == "http2ConnectionWindow"
              || field == "http2PseudoHeaderOrder" || field == "http2HpackIndexing" || field == "http2HeadersPriority"
  {
  }

  /** Without a profile nothing changes, and what is no profile is refused. */
  lemma WithoutProfile(o: Options)
    ensures o.chosen.NoProfile? ==> Applied(o) == Ok(o)
    ensures o.chosen.NotAProfile? ==> Applied(o) == Err(BadProfile)
  {
  }

  // ---------------------------------------------------------------- refusal

  /** Under `what`, the caller's table of that kind has something that counts; only where it says nothing
      is the profile's asked. */
  predicate Has(o: Options, p: Profile, kind: string, what: string) {
    var mine := kind in o.kinds && what in o.kinds[kind] && !o.kinds[kind][what].Absent?;
    if mine then o.kinds[kind][what].Given? else kind in p.kinds && what in p.kinds[kind] && p.kinds[kind][what].Given?
  }

  /** A need is unmet when it names a decoder, cipher or group that neither side has, or needs HTTP/2 to be
      off and it is not. */
  lemma UnmetExactlyWhen(o: Options, p: Profile, need: Need)
    ensures Unmet(o, p, need) <==>
              || (need.kind == "decoder" && !Has(o, p, "decoders", need.what))
              || (need.kind == "cipher" && !Has(o, p, "ciphers", need.what))
              || (need.kind == "group" && !Has(o, p, "groups", need.what))
              || (need.kind == "http2" && !o.http2Off)
  {
  }

  /** A profile is refused exactly when it has no name or some need is met neither by the caller nor by
      the profile, and the refusal names those needs and no others. */
  lemma RefusedExactlyWhen(o: Options, p: Profile)
    requires o.chosen == Chosen(p)
    ensures Applied(o).Err? <==> p.name == "" || exists need <- p.requires_ :: Unmet(o, p, need)
    ensures Applied(o).Err? && p.name != "" ==>
              && Applied(o).error.Missing?
              && forall need :: need in Applied(o).error.needs <==> need in p.requires_ && Unmet(o, p, need)
  {
    UnmetAre(o, p, p.requires_);
    if UnmetNeeds(o, p, p.requires_) != [] {
      assert UnmetNeeds(o, p, p.requires_)[0] in UnmetNeeds(o, p, p.requires_);
    }
  }

  lemma {:induction false} UnmetAre(o: Options, p: Profile, needs: seq<Need>)
    ensures forall need :: need in UnmetNeeds(o, p, needs) <==> need in needs && Unmet(o, p, need)
  {
    hide Unmet;
    if needs != [] {
      UnmetAre(o, p, needs[..|needs| - 1]);
      assert needs == needs[..|needs| - 1] + [needs[|needs| - 1]];
    }
  }

  // ---------------------------------------------------------------- twice is once

  lemma UnderStays(o: Options, p: Profile, kind: string, what: string)
    requires kind in KINDS
    ensures Supplied(Folded(o, p), p, kind, what) == Supplied(o, p, kind, what)
  {
    hide KindsFilled, FilledAll;
    KindsFilledAt(o.kinds, p.kinds, KINDS, kind);
  }

  lemma {:induction false} UnmetStays(o: Options, p: Profile, needs: seq<Need>)
    ensures UnmetNeeds(Folded(o, p), p, needs) == UnmetNeeds(o, p, needs)
  {
    hide Folded, Supplied;
    if needs != [] {
      UnmetStays(o, p, needs[..|needs| - 1]);
      var need := needs[|needs| - 1];
      UnderStays(o, p, "decoders", need.what);
      UnderStays(o, p, "ciphers", need.what);
      UnderStays(o, p, "groups", need.what);
      Http2Stays(o, p);
    }
  }

  lemma Http2Stays(o: Options, p: Profile)
    ensures Folded(o, p).http2Off == o.http2Off
  {
  }

  lemma KindsTwice(mine: map<string, Table>, theirs: map<string, Table>)
    ensures KindsFilled(KindsFilled(mine, theirs, KINDS), theirs, KINDS) == KindsFilled(mine, theirs, KINDS)
  {
    hide KindsFilled;
    var once := KindsFilled(mine, theirs, KINDS);
    var twice := KindsFilled(once, theirs, KINDS);
    forall kind
      ensures kind in twice <==> kind in once
      ensures kind in once ==> twice[kind] == once[kind]
    {
      KindsFilledAt(mine, theirs, KINDS, kind);
      KindsFilledAt(once, theirs, KINDS, kind);
    }
    assert twice.Keys == once.Keys;
  }

  lemma FieldsTwice(mine: Table, theirs: Table)
    ensures FilledAll(FilledAll(mine, theirs, FIELDS), theirs, FIELDS) == FilledAll(mine, theirs, FIELDS)
  {
    hide FilledAll, FIELDS;
    var once := FilledAll(mine, theirs, FIELDS);
    var twice := FilledAll(once, theirs, FIELDS);
    forall name
      ensures name in twice <==> name in once
      ensures At(twice, name) == At(once, name)
    {
      FilledAllAt(mine, theirs, FIELDS, name);
      FilledAllAt(once, theirs, FIELDS, name);
    }
    assert forall name <- once :: twice[name] == At(twice, name) && once[name] == At(once, name);
    assert twice.Keys == once.Keys;
  }

  /** Applying a profile to options it has been applied to is accepted again and changes nothing. */
  lemma AppliedTwice(o: Options)
    requires Applied(o).Ok?
    ensures Applied(Applied(o).value) == Ok(Applied(o).value)
  {
    hide UnmetNeeds, KindsFilled, FilledAll;
    if o.chosen.Chosen? {
      var p := o.chosen.profile;
      UnmetStays(o, p, p.requires_);
      KindsTwice(o.kinds, p.kinds);
      FieldsTwice(o.fields, p.fields);
      if p.tls.Some? {
        assert Over(p.tls.value, Over(p.tls.value, MineOrNone(o.tls))) == Over(p.tls.value, MineOrNone(o.tls));
      }
    }
  }

  // ---------------------------------------------------------------- as the code does it

  method Gather(o: Options, p: Profile) returns (missing: seq<Need>)
    ensures missing == UnmetNeeds(o, p, p.requires_)
  {
    hide Unmet;
    missing := [];
    for k := 0 to |p.requires_|
      invariant missing == UnmetNeeds(o, p, p.requires_[..k])
    {
      assert p.requires_[..k + 1][..k] == p.requires_[..k];
      if Unmet(o, p, p.requires_[k]) {
        missing := missing + [p.requires_[k]];
      }
    }
    assert p.requires_[..|p.requires_|] == p.requires_;
  }

  method FillKinds(mine: map<string, Table>, theirs: map<string, Table>) returns (kinds: map<string, Table>)
    ensures kinds == KindsFilled(mine, theirs, KINDS)
  {
    hide KindFilled, KINDS;
    kinds := mine;
    for k := 0 to |KINDS|
      invariant kinds == KindsFilled(mine, theirs, KINDS[..k])
    {
      assert KINDS[..k + 1][..k] == KINDS[..k];
      kinds := KindFilled(kinds, theirs, KINDS[k]);
    }
    assert KINDS[..|KINDS|] == KINDS;
  }

  method FillFields(mine: Table, theirs: Table) returns (fields: Table)
    ensures fields == FilledAll(mine, theirs, FIELDS)
  {
    hide Filled, FIELDS;
    fields := mine;
    for k := 0 to |FIELDS|
      invariant fields == FilledAll(mine, theirs, FIELDS[..k])
    {
      assert FIELDS[..k + 1][..k] == FIELDS[..k];
      fields := Filled(fields, theirs, FIELDS[k]);
    }
    assert FIELDS[..|FIELDS|] == FIELDS;
  }

  method ApplyProfile(o: Options) returns (r: Result<Options, Refusal>)
    ensures r == Applied(o)
  {
    if o.chosen.NoProfile? {
      return Ok(o);
    }
    if o.chosen.NotAProfile? || o.chosen.profile.name == "" {
      return Err(BadProfile);
    }
    hide UnmetNeeds, KindsFilled, FilledAll;
    var p := o.chosen.profile;
    var missing := Gather(o, p);
    if missing != [] {
      return Err(Missing(missing));
    }
    var out := o;
    if p.tls.Some? {
      out := out.(tls := Some(Over(p.tls.value, MineOrNone(o.tls))));
    }
    var kinds := FillKinds(o.kinds, p.kinds);
    var fields := FillFields(o.fields, p.fields);
    out := out.(kinds := kinds, fields := fields);
    if p.headers.Some? {
      out := out.(profileHeaders := p.headers);
    }
    r := Ok(out);
  }
}
