/** The unit catalogue browser: a fixed list of units narrowed by a role
    selector, a rarity selector and a free-text search, with a reset that
    shows everything again. */
module UnitBrowser {
  import opened Text

  datatype UnitRole = DPS | Support | CrowdControl | Hybrid | Economy
  datatype UnitRarity = Common | Rare | Epic | Mythic | Secret | Unknown

  datatype Unit = Unit(
    name: string,
    role: UnitRole,
    rarity: UnitRarity,
    obtain: string,
    notes: string,
    tags: seq<string>)

  /** The text of a role, as it appears in the selector and in the search haystack. */
  function RoleName(r: UnitRole): (s: string)
    ensures s != []
  {
    match r
    case DPS => "DPS"
    case Support => "Support"
    case CrowdControl => "Crowd Control"
    case Hybrid => "Hybrid"
    case Economy => "Economy"
  }

  function RarityName(r: UnitRarity): (s: string)
    ensures s != []
  {
    match r
    case Common => "Common"
    case Rare => "Rare"
    case Epic => "Epic"
    case Mythic => "Mythic"
    case Secret => "Secret"
    case Unknown => "Unknown"
  }

  /** Different roles and different rarities are shown under different names. */
  lemma NamesDistinct(r1: UnitRole, r2: UnitRole, y1: UnitRarity, y2: UnitRarity)
    ensures RoleName(r1) == RoleName(r2) ==> r1 == r2
    ensures RarityName(y1) == RarityName(y2) ==> y1 == y2
  {
    if r1 != r2 {
      assert RoleName(r1)[0] != RoleName(r2)[0];
    }
    if y1 != y2 {
      assert RarityName(y1)[0] != RarityName(y2)[0];
    }
  }

  /** A selector value: "All", or one particular role. */
  datatype RoleChoice = AllRoles | RoleIs(role: UnitRole)
  datatype RarityChoice = AllRarities | RarityIs(rarity: UnitRarity)

  const RoleOptions: seq<RoleChoice> :=
    [AllRoles, RoleIs(DPS), RoleIs(Support), RoleIs(CrowdControl), RoleIs(Hybrid), RoleIs(Economy)]

  const RarityOptions: seq<RarityChoice> :=
    [AllRarities, RarityIs(Common), RarityIs(Rare), RarityIs(Epic), RarityIs(Mythic),
     RarityIs(Secret), RarityIs(Unknown)]

  /** The selectors start with "All" and offer every choice. */
  lemma OptionsComplete(r: RoleChoice, y: RarityChoice)
    ensures RoleOptions[0] == AllRoles && RarityOptions[0] == AllRarities
    ensures r in RoleOptions && y in RarityOptions
  {
    match r {
      case AllRoles => assert r == RoleOptions[0];
      case RoleIs(role) =>
        match role {
          case DPS => assert r == RoleOptions[1];
          case Support => assert r == RoleOptions[2];
          case CrowdControl => assert r == RoleOptions[3];
          case Hybrid => assert r == RoleOptions[4];
          case Economy => assert r == RoleOptions[5];
        }
    }
    match y {
      case AllRarities => assert y == RarityOptions[0];
      case RarityIs(rarity) =>
        match rarity {
          case Common => assert y == RarityOptions[1];
          case Rare => assert y == RarityOptions[2];
          case Epic => assert y == RarityOptions[3];
          case Mythic => assert y == RarityOptions[4];
          case Secret => assert y == RarityOptions[5];
          case Unknown => assert y == RarityOptions[6];
        }
    }
  }

  /** The style classes of a rarity badge. */
  function BadgeColorClass(r: UnitRarity): (c: string)
    ensures c != []
  {
    match r
    case Common => "bg-zinc-500/15 text-zinc-200 border-zinc-400/20"
    case Rare => "bg-emerald-500/15 text-emerald-200 border-emerald-400/20"
    case Epic => "bg-sky-500/15 text-sky-200 border-sky-400/20"
    case Mythic => "bg-red-500/15 text-red-200 border-red-400/20"
    case Secret => "bg-violet-600/15 text-violet-200 border-violet-400/20"
    case Unknown => "bg-white/10 text-zinc-200 border-white/10"
  }

  /** Every rarity gets a badge style of its own. */
  lemma BadgeColorsDistinct(r1: UnitRarity, r2: UnitRarity)
    ensures BadgeColorClass(r1) == BadgeColorClass(r2) <==> r1 == r2
  {
    if r1 != r2 {
      BadgeLength(r1);
      BadgeLength(r2);
      EpicMythicBadges();
    }
  }

  lemma EpicMythicBadges()
    ensures BadgeColorClass(Epic) != BadgeColorClass(Mythic)
  {
    var epic := BadgeColorClass(Epic);
    var mythic := BadgeColorClass(Mythic);
    assert epic[3] == 's';
    assert mythic[3] == 'r';
  }

  /** Only the Epic and Mythic badge styles have the same length. */
  lemma BadgeLength(r: UnitRarity)
    ensures |BadgeColorClass(r)| == match r
      case Common => 47 case Rare => 56 case Epic => 44
      case Mythic => 44 case Secret => 53 case Unknown => 41
  {
  }

  // ---------------------------------------------------------------------------
  // The filter

  /** The browser's state: search text and the two selector values. */
  datatype Filters = Filters(query: string, role: RoleChoice, rarity: RarityChoice)

  const ShowEverything: Filters := Filters("", AllRoles, AllRarities)

  /** The query as it is matched: trimmed and lower-cased. */
  function NormalizeQuery(query: string): (q: string)
    ensures q == [] <==> AllSpace(query)
  {
    Lower(Trim(query))
  }

  /** All searchable text of a unit, joined by single spaces and lower-cased. */
  function Haystack(u: Unit): string {
    Lower(Join([u.name, RoleName(u.role), RarityName(u.rarity), u.obtain, u.notes] + u.tags, " "))
  }

  predicate RoleOk(choice: RoleChoice, u: Unit) {
    choice == AllRoles || u.role == choice.role
  }

  predicate RarityOk(choice: RarityChoice, u: Unit) {
    choice == AllRarities || u.rarity == choice.rarity
  }

  /** The per-unit test of the filter: role, then rarity, then the search text. */
  predicate Passes(f: Filters, u: Unit) {
    var q := NormalizeQuery(f.query);
    && RoleOk(f.role, u)
    && RarityOk(f.rarity, u)
    && (q == [] || Contains(Haystack(u), q))
  }

  /** `xs` can be obtained from `ys` by deleting elements. */
  predicate IsSubsequence<T(==)>(xs: seq<T>, ys: seq<T>)
    decreases |ys|
  {
    || xs == []
    || (&& ys != []
        && ((xs[0] == ys[0] && IsSubsequence(xs[1..], ys[1..])) || IsSubsequence(xs, ys[1..])))
  }

  /** The units shown: those that pass, in catalogue order. */
  function Filter(units: seq<Unit>, f: Filters): (shown: seq<Unit>)
    ensures IsSubsequence(shown, units)
    ensures |shown| <= |units|
    ensures forall u :: u in shown ==> u in units && Passes(f, u)
    ensures forall u :: u in units && Passes(f, u) ==> u in shown
    decreases |units|
  {
    if units == [] then []
    else
      var rest := Filter(units[1..], f);
      if Passes(f, units[0]) then [units[0]] + rest else rest
  }

  /** With a role selected, only units of that role are shown. */
  lemma RoleFilterSound(units: seq<Unit>, f: Filters, role: UnitRole)
    requires f.role == RoleIs(role)
    ensures forall u :: u in Filter(units, f) ==> u.role == role
  {
  }

  /** With a rarity selected, only units of that rarity are shown. */
  lemma RarityFilterSound(units: seq<Unit>, f: Filters, rarity: UnitRarity)
    requires f.rarity == RarityIs(rarity)
    ensures forall u :: u in Filter(units, f) ==> u.rarity == rarity
  {
  }

  /** When every unit passes, the whole list is shown, in order. */
  lemma {:induction false} FilterKeepsAll(units: seq<Unit>, f: Filters)
    requires forall u :: u in units ==> Passes(f, u)
    ensures Filter(units, f) == units
    decreases |units|
  {
    if units != [] {
      FilterKeepsAll(units[1..], f);
    }
  }

  /** Both selectors on "All" and a blank search show the whole list. */
  lemma ShowAll(units: seq<Unit>, query: string)
    requires AllSpace(query)
    ensures Filter(units, Filters(query, AllRoles, AllRarities)) == units
  {
    FilterKeepsAll(units, Filters(query, AllRoles, AllRarities));
  }

  /** Two filter states that accept the same units show the same list. */
  lemma {:induction false} FilterSamePasses(units: seq<Unit>, f: Filters, g: Filters)
    requires forall u :: u in units ==> (Passes(f, u) <==> Passes(g, u))
    ensures Filter(units, f) == Filter(units, g)
    decreases |units|
  {
    if units != [] {
      FilterSamePasses(units[1..], f, g);
    }
  }

  /** Searching ignores letter case: queries that agree once lower-cased show the same units. */
  lemma CaseInsensitive(units: seq<Unit>, f: Filters, query: string)
    requires Lower(query) == Lower(f.query)
    ensures Filter(units, f.(query := query)) == Filter(units, f)
  {
    TrimLowerCommute(query);
    TrimLowerCommute(f.query);
    SameQuerySamePasses(f.(query := query), f);
    FilterSamePasses(units, f.(query := query), f);
  }

  lemma SameQuerySamePasses(f: Filters, g: Filters)
    requires f.role == g.role && f.rarity == g.rarity
    requires NormalizeQuery(f.query) == NormalizeQuery(g.query)
    ensures forall u :: Passes(f, u) <==> Passes(g, u)
  {
  }

  /** The haystack begins with the lower-cased name, then a space and the
      lower-cased role. */
  lemma HaystackStart(u: Unit)
    ensures Lower(u.name + " " + RoleName(u.role)) <= Haystack(u)
  {
    var fields := [u.name, RoleName(u.role), RarityName(u.rarity), u.obtain, u.notes] + u.tags;
    var joined := Join(fields, " ");
    var start := u.name + " " + RoleName(u.role);
    assert start <= joined;
    LowerConcat(start, joined[|start|..]);
    assert joined == start + joined[|start|..];
  }

  /** A unit whose lower-cased name contains the normalised query is shown,
      unless a selector excludes it. */
  lemma NameMatchShown(units: seq<Unit>, f: Filters, u: Unit)
    requires u in units && RoleOk(f.role, u) && RarityOk(f.rarity, u)
    requires Contains(Lower(u.name), NormalizeQuery(f.query))
    ensures u in Filter(units, f)
  {
    var q := NormalizeQuery(f.query);
    var start := u.name + " " + RoleName(u.role);
    HaystackStart(u);
    NameStartsHaystack(u);
    ContainsViaPrefix(Lower(u.name), Lower(start), q);
    ContainsViaPrefix(Lower(start), Haystack(u), q);
    assert Passes(f, u);
  }

  /** The rarity's name, lower-cased, sits in the haystack right after the
      name, the role and their two separating spaces. */
  lemma RarityInHaystack(u: Unit)
    ensures var k := |u.name| + |RoleName(u.role)| + 2;
      && k + |RarityName(u.rarity)| <= |Haystack(u)|
      && Haystack(u)[k..k + |RarityName(u.rarity)|] == Lower(RarityName(u.rarity))
  {
    var role := RoleName(u.role);
    var rarity := RarityName(u.rarity);
    var fields := [u.name, role, rarity, u.obtain, u.notes] + u.tags;
    var joined := Join(fields, " ");
    var rest := Join(fields[1..], " ");
    assert joined == u.name + " " + rest;
    assert fields[1..][0] == role && fields[1..][1] == rarity;
    assert role + " " + rarity <= rest;
    var k := |u.name| + |role| + 2;
    forall i | 0 <= i < |rarity|
      ensures Haystack(u)[k + i] == Lower(rarity)[i]
    {
      assert joined[k + i] == rest[|role| + 1 + i] == rarity[i];
    }
  }

  /** A unit whose lower-cased rarity name contains the normalised query is
      shown, unless a selector excludes it. */
  lemma RarityMatchShown(units: seq<Unit>, f: Filters, u: Unit)
    requires u in units && RoleOk(f.role, u) && RarityOk(f.rarity, u)
    requires Contains(Lower(RarityName(u.rarity)), NormalizeQuery(f.query))
    ensures u in Filter(units, f)
  {
    RarityInHaystack(u);
    var k := |u.name| + |RoleName(u.role)| + 2;
    ContainsInPiece(Haystack(u), k, Lower(RarityName(u.rarity)), NormalizeQuery(f.query));
    assert Passes(f, u);
  }

  /** The search "MYTHIC" shows every Mythic unit. */
  lemma MythicQuery(units: seq<Unit>, u: Unit)
    requires u in units && u.rarity == Mythic
    ensures u in Filter(units, Filters("MYTHIC", AllRoles, AllRarities))
  {
    var f := Filters("MYTHIC", AllRoles, AllRarities);
    TrimUnpadded("MYTHIC");
    assert NormalizeQuery("MYTHIC") == Lower("Mythic");
    assert OccursAt(Lower("Mythic"), Lower("Mythic"), 0);
    RarityMatchShown(units, f, u);
  }

  lemma NameStartsHaystack(u: Unit)
    ensures Lower(u.name) <= Lower(u.name + " " + RoleName(u.role))
  {
    var rest := " " + RoleName(u.role);
    LowerConcat(u.name, rest);
    assert u.name + " " + RoleName(u.role) == u.name + rest;
  }

  /** Fields are joined by a space, so one query can span the name and the
      role: "kenpachi dps" finds a DPS unit named Kenpachi. */
  lemma CrossFieldMatch(units: seq<Unit>, f: Filters, u: Unit)
    requires u in units && RoleOk(f.role, u) && RarityOk(f.rarity, u)
    requires NormalizeQuery(f.query) == Lower(u.name + " " + RoleName(u.role))
    ensures u in Filter(units, f)
  {
    var q := NormalizeQuery(f.query);
    HaystackStart(u);
    assert OccursAt(Haystack(u), q, 0);
  }

  lemma KenpachiDpsQuery(units: seq<Unit>, u: Unit)
    requires u in units && u.name == "Kenpachi" && u.role == DPS
    ensures u in Filter(units, Filters("  Kenpachi DPS ", AllRoles, AllRarities))
  {
    var f := Filters("  Kenpachi DPS ", AllRoles, AllRarities);
    KenpachiDpsText();
    CrossFieldMatch(units, f, u);
  }

  lemma KenpachiDpsText()
    ensures NormalizeQuery("  Kenpachi DPS ") == Lower("Kenpachi" + " " + "DPS")
  {
    KenpachiDpsTrim();
    KenpachiDpsLower();
  }

  lemma KenpachiDpsTrim()
    ensures Trim("  Kenpachi DPS ") == "Kenpachi DPS"
  {
    var core := "Kenpachi DPS";
    assert "  Kenpachi DPS " == "  " + (core + " ");
    assert !IsSpace(core[0]) && !IsSpace(core[|core| - 1]);
    TrimStartSpaces("  ", core + " ");
    assert (core + " ")[0] == core[0];
    assert TrimStart(core + " ") == core + " ";
    TrimEndSpaces(core, " ");
    assert TrimEnd(core) == core;
  }

  lemma KenpachiDpsLower()
    ensures Lower("Kenpachi DPS") == Lower("Kenpachi" + " " + "DPS")
  {
    assert "Kenpachi" + " " + "DPS" == "Kenpachi DPS";
  }

  /** Filtering what is already shown changes nothing. */
  lemma {:induction false} FilterIdempotent(units: seq<Unit>, f: Filters)
    ensures Filter(Filter(units, f), f) == Filter(units, f)
  {
    FilterKeepsAll(Filter(units, f), f);
  }

  // ---------------------------------------------------------------------------
  // The component state

  /** The browser over a fixed catalogue: three fields the controls overwrite. */
  class Browser {
    const units: seq<Unit>
    var query: string
    var role: RoleChoice
    var rarity: RarityChoice

    function State(): Filters
      reads this
    {
      Filters(query, role, rarity)
    }

    /** The units currently shown. */
    function Shown(): seq<Unit>
      reads this
    {
      Filter(units, State())
    }

    /** "Showing n of m units". */
    function Counts(): (counts: (nat, nat))
      reads this
      ensures counts.0 == |Shown()| && counts.1 == |units|
      ensures counts.0 <= counts.1
      ensures counts.0 == counts.1 <==> Shown() == units
    {
      SubsequenceSameLength(Shown(), units);
      (|Shown()|, |units|)
    }

    constructor (units: seq<Unit>)
      ensures this.units == units && State() == ShowEverything
      ensures Shown() == units
    {
      this.units := units;
      query := "";
      role := AllRoles;
      rarity := AllRarities;
      new;
      ShowAll(units, "");
    }

    method SetQuery(q: string)
      modifies this
      ensures State() == old(State()).(query := q)
    {
      query := q;
    }

    method SetRole(r: RoleChoice)
      modifies this
      ensures State() == old(State()).(role := r)
    {
      role := r;
    }

    method SetRarity(r: RarityChoice)
      modifies this
      ensures State() == old(State()).(rarity := r)
    {
      rarity := r;
    }

    /** Clears the search and sets both selectors back to "All". */
    method Reset()
      modifies this
      ensures State() == ShowEverything
      ensures Shown() == units
    {
      query := "";
      role := AllRoles;
      rarity := AllRarities;
      ShowAll(units, "");
    }
  }

  /** A subsequence as long as the sequence is the sequence itself. */
  lemma {:induction false} SubsequenceSameLength<T>(xs: seq<T>, ys: seq<T>)
    requires IsSubsequence(xs, ys)
    ensures |xs| <= |ys|
    ensures |xs| == |ys| <==> xs == ys
    decreases |ys|
  {
    if xs == [] {
    } else if xs[0] == ys[0] && IsSubsequence(xs[1..], ys[1..]) {
      SubsequenceSameLength(xs[1..], ys[1..]);
      if |xs| == |ys| {
        assert xs == [xs[0]] + xs[1..] && ys == [ys[0]] + ys[1..];
      }
    } else {
      SubsequenceSameLength(xs, ys[1..]);
    }
  }
}
