/** The team-composition notepad: a team name and a fixed roster of six
    role-tagged slots, edited one field at a time, and the plain-text summary
    that is rebuilt from them. */
module TeamBuilder {
  import opened Text

  datatype SlotRole = MainDps | Support | CC | Economy | Flex

  function RoleLabel(r: SlotRole): (s: string)
    ensures s != [] && '\n' !in s
  {
    match r
    case MainDps => "Main DPS"
    case Support => "Support"
    case CC => "CC"
    case Economy => "Economy"
    case Flex => "Flex"
  }

  /** The choices offered by the role selector, in display order. */
  const Roles: seq<SlotRole> := [MainDps, Support, CC, Economy, Flex]

  /** The role selector offers every role, each exactly once. */
  lemma RolesComplete(r: SlotRole)
    ensures r in Roles
    ensures forall i, j :: 0 <= i < j < |Roles| ==> Roles[i] != Roles[j]
  {
  }

  datatype Slot = Slot(name: string, role: SlotRole, notes: string)

  const SlotCount: nat := 6
  const DefaultTeamName: string := "My UTD Team"
  const EmptySlot: Slot := Slot("", Flex, "")

  function DefaultSlots(): (slots: seq<Slot>)
    ensures |slots| == SlotCount
    ensures forall i :: 0 <= i < |slots| ==> slots[i] == EmptySlot
  {
    seq(SlotCount, _ => EmptySlot)
  }

  // ---------------------------------------------------------------------------
  // White-space normalisation

  /** A string in the form the normaliser produces: no white space at either
      end, and white space only as single plain spaces between words. */
  predicate IsSanitized(s: string) {
    && (s == [] || (!IsSpace(s[0]) && !IsSpace(s[|s| - 1])))
    && SingleSpaced(s)
  }

  predicate SingleSpaced(s: string) {
    && (forall i :: 0 <= i < |s| && IsSpace(s[i]) ==> s[i] == ' ')
    && (forall i :: 0 <= i < |s| - 1 ==> !SpacePair(s, i))
  }

  /** Positions `i` and `i + 1` of `s` are both white space. */
  predicate SpacePair(s: string, i: nat)
    requires i + 1 < |s|
  {
    IsSpace(s[i]) && IsSpace(s[i + 1])
  }

  /** `value.replace(/\s+/g, " ")`: each maximal run of white space becomes one space. */
  function CollapseSpaces(s: string): (r: string)
    ensures r == [] <==> s == []
    ensures r != [] ==> (IsSpace(r[0]) <==> IsSpace(s[0]))
    decreases |s|
  {
    if s == [] then []
    else if IsSpace(s[0]) then " " + CollapseSpaces(TrimStart(s[1..]))
    else [s[0]] + CollapseSpaces(s[1..])
  }

  /** The collapsed string has white space only as single plain spaces. */
  lemma {:induction false} CollapseIsSingleSpaced(s: string)
    ensures SingleSpaced(CollapseSpaces(s))
    decreases |s|
  {
    if s != [] {
      if IsSpace(s[0]) {
        var t := TrimStart(s[1..]);
        CollapseIsSingleSpaced(t);
        SingleSpacedCons(' ', CollapseSpaces(t));
      } else {
        CollapseIsSingleSpaced(s[1..]);
        SingleSpacedCons(s[0], CollapseSpaces(s[1..]));
      }
    }
  }

  /** Putting one character in front of a single-spaced string keeps it
      single-spaced, provided a space is never put in front of a space. */
  lemma SingleSpacedCons(c: char, r: string)
    requires SingleSpaced(r)
    requires IsSpace(c) ==> c == ' ' && (r == [] || !IsSpace(r[0]))
    ensures SingleSpaced([c] + r)
  {
    var s := [c] + r;
    forall i | 0 <= i < |s| - 1 ensures !SpacePair(s, i) {
      if i > 0 {
        assert s[i] == r[i - 1] && s[i + 1] == r[i];
        assert !SpacePair(r, i - 1);
      }
    }
  }

  /** `sanitizeLine`: collapse white-space runs to one space, then trim. */
  function SanitizeLine(s: string): (r: string)
    ensures r == [] <==> AllSpace(s)
  {
    SanitizeEmptyIffAllSpace(s);
    Trim(CollapseSpaces(s))
  }

  /** The normaliser's output has no white space at either end and no run of
      two or more white-space characters. */
  lemma SanitizeLineIsSanitized(s: string)
    ensures IsSanitized(SanitizeLine(s))
  {
    CollapseIsSingleSpaced(s);
    TrimKeepsSingleSpaced(CollapseSpaces(s));
  }

  lemma TrimKeepsSingleSpaced(c: string)
    requires SingleSpaced(c)
    ensures SingleSpaced(Trim(c))
  {
    var k := |c| - |TrimStart(c)|;
    TrimIsSlice(c);
    SliceSingleSpaced(c, k, k + |Trim(c)|, Trim(c));
  }

  /** Every piece `r` of a single-spaced string is single-spaced. */
  lemma SliceSingleSpaced(c: string, from: nat, to: nat, r: string)
    requires SingleSpaced(c) && from <= to <= |c| && r == c[from..to]
    ensures SingleSpaced(r)
  {
    forall i | 0 <= i < |r| - 1 ensures !SpacePair(r, i) {
      assert !SpacePair(c, from + i);
    }
  }

  lemma SanitizeEmptyIffAllSpace(s: string)
    ensures Trim(CollapseSpaces(s)) == [] <==> AllSpace(s)
  {
    if !AllSpace(s) {
      CollapseKeepsWord(s);
    } else if s != [] {
      AllSpaceCollapse(s);
    }
  }

  /** A string that is not all white space keeps a non-space character when collapsed. */
  lemma CollapseKeepsWord(s: string)
    requires !AllSpace(s)
    ensures !AllSpace(CollapseSpaces(s))
  {
    var i :| 0 <= i < |s| && !IsSpace(s[i]);
    var c := CollapseSpaces(s);
    if IsSpace(s[0]) {
      var u := s[1..];
      var t := TrimStart(u);
      var d := |u| - |t|;
      TrimStartIsSuffix(u);
      assert u[i - 1] == s[i];
      assert i - 1 >= d;
      assert t[i - 1 - d] == s[i];
      var r := CollapseSpaces(t);
      assert c == " " + r;
      assert !IsSpace(c[1]);
    } else {
      assert !IsSpace(c[0]);
    }
  }

  lemma AllSpaceCollapse(s: string)
    requires s != [] && AllSpace(s)
    ensures CollapseSpaces(s) == " "
  {
    TrimStartIsSuffix(s[1..]);
    assert TrimStart(s[1..]) == [];
  }

  /** Collapsing leaves a single-spaced string unchanged. */
  lemma {:induction false} CollapseSingleSpaced(s: string)
    requires SingleSpaced(s)
    ensures CollapseSpaces(s) == s
    decreases |s|
  {
    if s != [] {
      var t := s[1..];
      forall i | 0 <= i < |t| - 1 ensures !SpacePair(t, i) {
        assert !SpacePair(s, i + 1);
      }
      if IsSpace(s[0]) && t != [] {
        assert !SpacePair(s, 0);
        assert TrimStart(t) == t;
      }
      CollapseSingleSpaced(s[1..]);
    }
  }

  /** Normalisation leaves an already normalised string unchanged. */
  lemma SanitizeFixesSanitized(s: string)
    requires IsSanitized(s)
    ensures SanitizeLine(s) == s
  {
    CollapseSingleSpaced(s);
    TrimUnpadded(s);
  }

  /** `sanitizeLine(sanitizeLine(s)) == sanitizeLine(s)`. */
  lemma SanitizeIdempotent(s: string)
    ensures SanitizeLine(SanitizeLine(s)) == SanitizeLine(s)
  {
    SanitizeLineIsSanitized(s);
    SanitizeFixesSanitized(SanitizeLine(s));
  }

  /** The characters of `s` that are not white space, in order. */
  function Words(s: string): string
    decreases |s|
  {
    if s == [] then [] else (if IsSpace(s[0]) then [] else [s[0]]) + Words(s[1..])
  }

  lemma {:induction false} WordsConcat(a: string, b: string)
    ensures Words(a + b) == Words(a) + Words(b)
    decreases |a|
  {
    if a == [] {
      assert a + b == b;
    } else {
      var head := if IsSpace(a[0]) then [] else [a[0]];
      assert (a + b)[0] == a[0];
      assert (a + b)[1..] == a[1..] + b;
      WordsConcat(a[1..], b);
      calc {
        Words(a + b);
        head + Words(a[1..] + b);
        head + (Words(a[1..]) + Words(b));
        (head + Words(a[1..])) + Words(b);
        Words(a) + Words(b);
      }
    }
  }

  lemma {:induction false} WordsAllSpace(s: string)
    requires AllSpace(s)
    ensures Words(s) == []
    decreases |s|
  {
    if s != [] {
      WordsAllSpace(s[1..]);
    }
  }

  lemma {:induction false} WordsTrimStart(s: string)
    ensures Words(TrimStart(s)) == Words(s)
    decreases |s|
  {
    if s != [] && IsSpace(s[0]) {
      WordsTrimStart(s[1..]);
    }
  }

  lemma {:induction false} WordsTrimEnd(s: string)
    ensures Words(TrimEnd(s)) == Words(s)
    decreases |s|
  {
    if s != [] && IsSpace(s[|s| - 1]) {
      var init := s[..|s| - 1];
      assert s == init + [s[|s| - 1]];
      WordsConcat(init, [s[|s| - 1]]);
      WordsTrimEnd(init);
    }
  }

  lemma {:induction false} WordsCollapse(s: string)
    ensures Words(CollapseSpaces(s)) == Words(s)
    decreases |s|
  {
    if s != [] {
      if IsSpace(s[0]) {
        var t := TrimStart(s[1..]);
        WordsCollapse(t);
        WordsTrimStart(s[1..]);
        WordsConcat(" ", CollapseSpaces(t));
      } else {
        WordsCollapse(s[1..]);
        WordsConcat([s[0]], CollapseSpaces(s[1..]));
      }
    }
  }

  /** Normalisation only changes white space: the other characters survive,
      in order. */
  lemma SanitizeKeepsWords(s: string)
    ensures Words(SanitizeLine(s)) == Words(s)
  {
    var c := CollapseSpaces(s);
    WordsCollapse(s);
    WordsTrimStart(c);
    WordsTrimEnd(TrimStart(c));
  }

  lemma SanitizedHasNoNewline(s: string)
    requires IsSanitized(s)
    ensures '\n' !in s
  {
    if '\n' in s {
      var i :| 0 <= i < |s| && s[i] == '\n';
      assert IsSpace(s[i]);
    }
  }

  // ---------------------------------------------------------------------------
  // The summary

  /** The title shown in the header: the normalised team name, or "Untitled". */
  function Title(teamName: string): (t: string)
    ensures t != []
    ensures AllSpace(teamName) ==> t == "Untitled"
    ensures !AllSpace(teamName) ==> t == SanitizeLine(teamName)
  {
    var s := SanitizeLine(teamName);
    if s == [] then "Untitled" else s
  }

  function Header(teamName: string): string {
    "UTD Team: " + Title(teamName)
  }

  /** Neither the header nor a slot line can break a line: the normaliser
      turns every newline typed into a field into a space. */
  lemma HeaderHasNoNewline(teamName: string)
    ensures '\n' !in Header(teamName)
  {
    TitleIsSanitized(teamName);
    SanitizedHasNoNewline(Title(teamName));
    NotInConcat('\n', "UTD Team: ", Title(teamName));
  }

  lemma TitleIsSanitized(teamName: string)
    ensures IsSanitized(Title(teamName))
  {
    PlaceholdersSanitized();
    SanitizeLineIsSanitized(teamName);
  }

  /** White space around an already normalised value is dropped, whatever it is. */
  lemma SanitizeIgnoresPadding(pre: string, core: string, post: string)
    requires AllSpace(pre) && AllSpace(post) && IsSanitized(core)
    ensures SanitizeLine(pre + core + post) == core
  {
    var s := pre + core + post;
    if core == [] {
      assert AllSpace(s) by {
        forall i | 0 <= i < |s| ensures IsSpace(s[i]) {
          if i < |pre| { assert s[i] == pre[i]; } else { assert s[i] == post[i - |pre|]; }
        }
      }
    } else {
      var p := if pre == [] then "" else " ";
      var q := if post == [] then "" else " ";
      assert s == pre + (core + post);
      assert (core + post)[0] == core[0];
      CollapseLeading(pre, core + post);
      CollapseAfterWord(core, post);
      CollapseBlank(post);
      assert CollapseSpaces(s) == p + (core + q);
      TrimPaddedWord(p, core, q);
    }
  }

  /** Leading white space in front of a word collapses to one space, or to nothing when there is none. */
  lemma CollapseLeading(pre: string, w: string)
    requires AllSpace(pre) && w != [] && !IsSpace(w[0])
    ensures CollapseSpaces(pre + w) == (if pre == [] then "" else " ") + CollapseSpaces(w)
  {
    if pre == [] {
      assert pre + w == w;
    } else {
      var s := pre + w;
      assert s[0] == pre[0];
      assert s[1..] == pre[1..] + w;
      TrimStartSpaces(pre[1..], w);
      assert TrimStart(w) == w;
    }
  }

  /** A blank string collapses to one space, or to nothing when it is empty. */
  lemma CollapseBlank(s: string)
    requires AllSpace(s)
    ensures CollapseSpaces(s) == (if s == [] then "" else " ")
  {
    if s != [] {
      AllSpaceCollapse(s);
    }
  }

  /** Collapsing a single-spaced string that ends in a word, followed by
      anything, leaves the first part alone. */
  lemma {:induction false} CollapseAfterWord(a: string, b: string)
    requires SingleSpaced(a) && (a == [] || !IsSpace(a[|a| - 1]))
    ensures CollapseSpaces(a + b) == a + CollapseSpaces(b)
    decreases |a|
  {
    if a == [] {
      assert a + b == b;
    } else {
      var t := a[1..];
      SingleSpacedTail(a);
      CollapseAfterWord(t, b);
      PrependCollapsed(a[0], t, b);
      assert a == [a[0]] + t;
    }
  }

  /** The tail of a single-spaced string that ends in a word is single-spaced
      and ends in a word, and a leading space of it is a plain space before a word. */
  lemma SingleSpacedTail(a: string)
    requires SingleSpaced(a) && a != [] && !IsSpace(a[|a| - 1])
    ensures SingleSpaced(a[1..]) && !IsSpace(a[|a| - 1])
    ensures IsSpace(a[0]) ==> a[0] == ' ' && |a| >= 2 && !IsSpace(a[1])
  {
    var t := a[1..];
    forall i | 0 <= i < |t| - 1 ensures !SpacePair(t, i) {
      assert !SpacePair(a, i + 1);
    }
    if IsSpace(a[0]) {
      assert |a| >= 2 && !SpacePair(a, 0);
    }
  }

  /** One step of `CollapseAfterWord`: a word character, or a plain space
      before a word, in front of an already handled part. */
  lemma PrependCollapsed(c: char, t: string, b: string)
    requires IsSpace(c) ==> c == ' ' && t != [] && !IsSpace(t[0])
    requires CollapseSpaces(t + b) == t + CollapseSpaces(b)
    ensures CollapseSpaces([c] + t + b) == [c] + t + CollapseSpaces(b)
  {
    if IsSpace(c) {
      assert (t + b)[0] == t[0];
    }
    CollapseStep(c, t + b);
    Associate([c], t, b);
    Associate([c], t, CollapseSpaces(b));
  }

  /** Collapsing a string whose first character is a word character, or a
      lone plain space before one, keeps that character and collapses the rest. */
  lemma CollapseStep(c: char, u: string)
    requires IsSpace(c) ==> c == ' ' && u != [] && !IsSpace(u[0])
    ensures CollapseSpaces([c] + u) == [c] + CollapseSpaces(u)
  {
    var s := [c] + u;
    assert s[0] == c && s[1..] == u;
    if IsSpace(c) {
      assert TrimStart(u) == u;
    }
  }

  /** A string that ends in a word collapses on its own: what follows it is
      collapsed separately. */
  lemma {:induction false} CollapseConcat(a: string, b: string)
    requires a == [] || !IsSpace(a[|a| - 1])
    ensures CollapseSpaces(a + b) == CollapseSpaces(a) + CollapseSpaces(b)
    decreases |a|
  {
    if a == [] {
      assert a + b == b;
    } else {
      var s := a + b;
      assert s[0] == a[0] && s[1..] == a[1..] + b;
      if IsSpace(a[0]) {
        var t := a[1..];
        assert !AllSpace(t) by {
          assert t[|t| - 1] == a[|a| - 1];
        }
        TrimStartConcat(t, b);
        TrimStartIsSuffix(t);
        var u := TrimStart(t);
        assert u[|u| - 1] == a[|a| - 1];
        CollapseConcat(u, b);
        Associate(" ", CollapseSpaces(u), CollapseSpaces(b));
      } else {
        CollapseConcat(a[1..], b);
        Associate([a[0]], CollapseSpaces(a[1..]), CollapseSpaces(b));
      }
    }
  }

  /** `replace(/\s+/g, " ")` turns a white-space run between two words into
      exactly one plain space, whatever the run holds. */
  lemma CollapseInteriorRun(a: string, sp: string, b: string)
    requires a != [] && !IsSpace(a[|a| - 1])
    requires sp != [] && AllSpace(sp)
    requires b != [] && !IsSpace(b[0])
    ensures CollapseSpaces(a + sp + b) == CollapseSpaces(a) + " " + CollapseSpaces(b)
  {
    assert a + sp + b == a + (sp + b);
    CollapseConcat(a, sp + b);
    CollapseLeading(sp, b);
  }

  /** Two normalised words separated by any white-space run normalise to the
      two words joined by one plain space. */
  lemma SanitizeInteriorRun(a: string, sp: string, b: string)
    requires a != [] && IsSanitized(a)
    requires sp != [] && AllSpace(sp)
    requires b != [] && IsSanitized(b)
    ensures SanitizeLine(a + sp + b) == a + " " + b
  {
    CollapseInteriorRun(a, sp, b);
    CollapseSingleSpaced(a);
    CollapseSingleSpaced(b);
    var r := a + " " + b;
    assert r[0] == a[0] && r[|r| - 1] == b[|b| - 1];
    TrimUnpadded(r);
  }

  lemma TrimPaddedWord(p: string, core: string, q: string)
    requires AllSpace(p) && AllSpace(q)
    requires core != [] && !IsSpace(core[0]) && !IsSpace(core[|core| - 1])
    ensures Trim(p + (core + q)) == core
  {
    TrimStartSpaces(p, core + q);
    assert (core + q)[0] == core[0];
    assert TrimStart(core + q) == core + q;
    TrimEndSpaces(core, q);
  }

  /** The name shown for a slot: the normalised name, or "(empty)". */
  function DisplayName(name: string): (t: string)
    ensures t != []
    ensures AllSpace(name) ==> t == "(empty)"
    ensures !AllSpace(name) ==> t == SanitizeLine(name)
  {
    var s := SanitizeLine(name);
    if s == [] then "(empty)" else s
  }

  lemma PlaceholdersSanitized()
    ensures IsSanitized("Untitled") && IsSanitized("(empty)")
  {
    WordSanitized("Untitled");
    WordSanitized("(empty)");
  }

  /** A string without any white space is in normal form. */
  lemma WordSanitized(w: string)
    requires forall i :: 0 <= i < |w| ==> !IsSpace(w[i])
    ensures IsSanitized(w)
  {
  }

  const Dash: string := " \U{2014} "

  /** What the notes add to a slot line: " — notes" when they are not blank. */
  function NotesPart(notes: string): (part: string)
    ensures part == [] <==> AllSpace(notes)
  {
    var n := SanitizeLine(notes);
    if n != [] then Dash + n else ""
  }

  /** Line `index` of the summary (the slot number shown is `index + 1`):
      number, name, role and the optional notes. */
  function SlotLine(index: nat, slot: Slot): string {
    Numbering(index) + DisplayName(slot.name) + RolePart(slot)
  }

  /** "N. " with N = `index + 1`. */
  function Numbering(index: nat): string {
    DecimalString(index + 1) + ". "
  }

  /** " — role", followed by the notes part. */
  function RolePart(slot: Slot): string {
    Dash + RoleLabel(slot.role) + NotesPart(slot.notes)
  }

  lemma SlotLineHasNoNewline(index: nat, slot: Slot)
    ensures '\n' !in SlotLine(index, slot)
  {
    NumberingHasNoNewline(index);
    DisplayNameHasNoNewline(slot.name);
    RolePartHasNoNewline(slot);
    NotInConcat('\n', Numbering(index), DisplayName(slot.name));
    NotInConcat('\n', Numbering(index) + DisplayName(slot.name), RolePart(slot));
  }

  lemma NumberingHasNoNewline(index: nat)
    ensures '\n' !in Numbering(index)
  {
    DecimalHasNoNewline(index + 1);
    NotInConcat('\n', DecimalString(index + 1), ". ");
  }

  lemma DisplayNameHasNoNewline(name: string)
    ensures '\n' !in DisplayName(name)
  {
    DisplayNameIsSanitized(name);
    SanitizedHasNoNewline(DisplayName(name));
  }

  lemma DisplayNameIsSanitized(name: string)
    ensures IsSanitized(DisplayName(name))
  {
    PlaceholdersSanitized();
    SanitizeLineIsSanitized(name);
  }

  lemma RolePartHasNoNewline(slot: Slot)
    ensures '\n' !in RolePart(slot)
  {
    SanitizeLineIsSanitized(slot.notes);
    SanitizedHasNoNewline(SanitizeLine(slot.notes));
    NotInConcat('\n', Dash, SanitizeLine(slot.notes));
    assert '\n' !in Dash && '\n' !in NotesPart(slot.notes);
    NotInConcat('\n', Dash, RoleLabel(slot.role));
    NotInConcat('\n', Dash + RoleLabel(slot.role), NotesPart(slot.notes));
  }

  lemma DecimalHasNoNewline(n: nat)
    ensures '\n' !in DecimalString(n)
  {
  }

  function SlotLines(slots: seq<Slot>): (lines: seq<string>)
    ensures |lines| == |slots|
    ensures forall i :: 0 <= i < |slots| ==> lines[i] == SlotLine(i, slots[i])
  {
    seq(|slots|, i requires 0 <= i < |slots| => SlotLine(i, slots[i]))
  }

  /** The lines of the summary, before they are joined. */
  function ExportLinesOf(teamName: string, slots: seq<Slot>): (lines: seq<string>)
    ensures |lines| == |slots| + 2
  {
    [Header(teamName), ""] + SlotLines(slots)
  }

  /** `exportText`: header, an empty line, then one line per slot, joined by newlines. */
  function Export(teamName: string, slots: seq<Slot>): string {
    Join(ExportLinesOf(teamName, slots), "\n")
  }

  /** The summary reads back, line by line, as the header, an empty line and
      the slot lines: for the six-slot roster, exactly eight lines. */
  lemma ExportLines(teamName: string, slots: seq<Slot>)
    ensures Split(Export(teamName, slots), '\n') == [Header(teamName), ""] + SlotLines(slots)
    ensures |Split(Export(teamName, slots), '\n')| == |slots| + 2
  {
    LinesHaveNoNewline(teamName, slots);
    SplitJoin(ExportLinesOf(teamName, slots), '\n');
  }

  lemma LinesHaveNoNewline(teamName: string, slots: seq<Slot>)
    ensures forall j :: 0 <= j < |ExportLinesOf(teamName, slots)| ==> '\n' !in ExportLinesOf(teamName, slots)[j]
  {
    LinesOf(teamName, slots);
    HeaderHasNoNewline(teamName);
    SlotLinesHaveNoNewline(slots);
    NoNewlineAfterHeader(Header(teamName), SlotLines(slots));
  }

  lemma NoNewlineAfterHeader(header: string, body: seq<string>)
    requires '\n' !in header
    requires forall j :: 0 <= j < |body| ==> '\n' !in body[j]
    ensures forall j :: 0 <= j < |[header, ""] + body| ==> '\n' !in ([header, ""] + body)[j]
  {
    var lines := [header, ""] + body;
    forall j | 0 <= j < |lines| ensures '\n' !in lines[j] {
      if j >= 2 {
        assert lines[j] == body[j - 2];
      }
    }
  }

  lemma SlotLinesHaveNoNewline(slots: seq<Slot>)
    ensures forall j :: 0 <= j < |SlotLines(slots)| ==> '\n' !in SlotLines(slots)[j]
  {
    forall j | 0 <= j < |slots| ensures '\n' !in SlotLines(slots)[j] {
      SlotLineHasNoNewline(j, slots[j]);
    }
  }

  /** Editing slot `index` changes line `index + 2` of the summary and no other. */
  lemma ExportAfterEdit(teamName: string, slots: seq<Slot>, index: nat, slot: Slot)
    requires index < |slots|
    ensures Split(Export(teamName, slots[index := slot]), '\n')
         == ExportLinesOf(teamName, slots)[index + 2 := SlotLine(index, slot)]
  {
    ExportLines(teamName, slots[index := slot]);
    var h: seq<string> := [Header(teamName), ""];
    var before := SlotLines(slots);
    var after := SlotLines(slots[index := slot]);
    var x := SlotLine(index, slot);
    SlotLinesUpdate(slots, index, slot);
    UpdateAfterPrefix(h, before, index, x);
  }

  lemma UpdateAfterPrefix<T>(h: seq<T>, xs: seq<T>, index: nat, x: T)
    requires index < |xs|
    ensures (h + xs)[|h| + index := x] == h + xs[index := x]
  {
  }

  lemma SlotLinesUpdate(slots: seq<Slot>, index: nat, slot: Slot)
    requires index < |slots|
    ensures SlotLines(slots[index := slot]) == SlotLines(slots)[index := SlotLine(index, slot)]
  {
    SlotLinesElsewhere(slots, index, slot);
  }

  lemma SlotLinesElsewhere(slots: seq<Slot>, index: nat, slot: Slot)
    requires index < |slots|
    ensures SlotLines(slots[index := slot])[index] == SlotLine(index, slot)
    ensures forall i :: 0 <= i < |slots| && i != index ==> SlotLines(slots[index := slot])[i] == SlotLines(slots)[i]
  {
    var edited := slots[index := slot];
    forall i | 0 <= i < |slots| && i != index
      ensures SlotLines(edited)[i] == SlotLines(slots)[i]
    {
      assert edited[i] == slots[i];
    }
  }

  /** Normalising the stored text first makes no difference to the summary:
      the summary sees only the normalised form of each text field. */
  lemma ExportSeesOnlySanitized(teamName: string, slots: seq<Slot>)
    ensures Export(teamName, slots) == Export(SanitizeLine(teamName), SanitizeSlots(slots))
  {
    HeaderSeesOnlySanitized(teamName);
    SlotLinesSeeOnlySanitized(slots);
    assert ExportLinesOf(teamName, slots) == ExportLinesOf(SanitizeLine(teamName), SanitizeSlots(slots));
  }

  lemma HeaderSeesOnlySanitized(teamName: string)
    ensures Header(teamName) == Header(SanitizeLine(teamName))
  {
    SanitizeIdempotent(teamName);
  }

  lemma SlotLinesSeeOnlySanitized(slots: seq<Slot>)
    ensures SlotLines(slots) == SlotLines(SanitizeSlots(slots))
  {
    var sane := SanitizeSlots(slots);
    forall i | 0 <= i < |slots|
      ensures SlotLines(slots)[i] == SlotLines(sane)[i]
    {
      SlotLineSeesOnlySanitized(i, slots[i]);
    }
  }

  lemma SlotLineSeesOnlySanitized(index: nat, slot: Slot)
    ensures SlotLine(index, slot) == SlotLine(index, Slot(SanitizeLine(slot.name), slot.role, SanitizeLine(slot.notes)))
  {
    SanitizeIdempotent(slot.name);
    SanitizeIdempotent(slot.notes);
    assert DisplayName(slot.name) == DisplayName(SanitizeLine(slot.name));
    assert NotesPart(slot.notes) == NotesPart(SanitizeLine(slot.notes));
  }

  function SanitizeSlots(slots: seq<Slot>): (r: seq<Slot>)
    ensures |r| == |slots|
    ensures forall i :: 0 <= i < |slots| ==> r[i] == Slot(SanitizeLine(slots[i].name), slots[i].role, SanitizeLine(slots[i].notes))
  {
    seq(|slots|, i requires 0 <= i < |slots| => Slot(SanitizeLine(slots[i].name), slots[i].role, SanitizeLine(slots[i].notes)))
  }

  lemma {:induction false} CancelMiddle(a: string, x: string, y: string, b: string)
    requires a + x + b == a + y + b
    ensures x == y
  {
    var s := a + x + b;
    assert |x| == |y|;
    assert s[|a|..|a| + |x|] == x;
    assert (a + y + b)[|a|..|a| + |y|] == y;
  }

  /** A slot line changes with the notes exactly when they are not blank. */
  lemma NotesShownIffNotBlank(index: nat, slot: Slot)
    ensures SlotLine(index, slot) != SlotLine(index, slot.(notes := "")) <==> !AllSpace(slot.notes)
  {
    var a := Numbering(index) + DisplayName(slot.name);
    var r := Dash + RoleLabel(slot.role);
    assert NotesPart("") == [];
    assert RolePart(slot.(notes := "")) == r;
    assert SlotLine(index, slot.(notes := "")) == a + r;
    Associate(a, r, NotesPart(slot.notes));
    if SlotLine(index, slot) == SlotLine(index, slot.(notes := "")) {
      assert |NotesPart(slot.notes)| == 0;
    }
  }

  /** A slot line does not tell a blank name from a name that normalises to
      "(empty)": the placeholder is shown exactly in those two cases. */
  lemma PlaceholderIffBlankName(index: nat, slot: Slot)
    ensures SlotLine(index, slot) == SlotLine(index, slot.(name := ""))
        <==> AllSpace(slot.name) || SanitizeLine(slot.name) == "(empty)"
  {
    var a := Numbering(index);
    var b := RolePart(slot);
    assert RolePart(slot.(name := "")) == b;
    assert DisplayName("") == "(empty)";
    if SlotLine(index, slot) == SlotLine(index, slot.(name := "")) {
      CancelMiddle(a, DisplayName(slot.name), DisplayName(""), b);
    }
  }

  /** The summary of a freshly reset team, line by line. */
  lemma ResetExport()
    ensures ExportLinesOf(DefaultTeamName, DefaultSlots())
         == ["UTD Team: My UTD Team", "",
             "1. (empty) \U{2014} Flex", "2. (empty) \U{2014} Flex", "3. (empty) \U{2014} Flex",
             "4. (empty) \U{2014} Flex", "5. (empty) \U{2014} Flex", "6. (empty) \U{2014} Flex"]
  {
    DefaultHeader();
    DefaultSlotLines();
    LinesOf(DefaultTeamName, DefaultSlots());
    ResetLinesText();
  }

  lemma LinesOf(teamName: string, slots: seq<Slot>)
    ensures ExportLinesOf(teamName, slots) == [Header(teamName), ""] + SlotLines(slots)
  {
  }

  lemma ResetLinesText()
    ensures ["UTD Team: My UTD Team", ""]
          + ["1. (empty) \U{2014} Flex", "2. (empty) \U{2014} Flex", "3. (empty) \U{2014} Flex",
             "4. (empty) \U{2014} Flex", "5. (empty) \U{2014} Flex", "6. (empty) \U{2014} Flex"]
         == ["UTD Team: My UTD Team", "",
             "1. (empty) \U{2014} Flex", "2. (empty) \U{2014} Flex", "3. (empty) \U{2014} Flex",
             "4. (empty) \U{2014} Flex", "5. (empty) \U{2014} Flex", "6. (empty) \U{2014} Flex"]
  {
  }

  lemma DefaultSlotLines()
    ensures SlotLines(DefaultSlots())
         == ["1. (empty) \U{2014} Flex", "2. (empty) \U{2014} Flex", "3. (empty) \U{2014} Flex",
             "4. (empty) \U{2014} Flex", "5. (empty) \U{2014} Flex", "6. (empty) \U{2014} Flex"]
  {
    var lines := SlotLines(DefaultSlots());
    BlankSlotLine(0);
    BlankSlotLine(1);
    BlankSlotLine(2);
    BlankSlotLine(3);
    BlankSlotLine(4);
    BlankSlotLine(5);
    BlankLineTextsLow();
    BlankLineTextsHigh();
  }

  /** What follows the number on the line of an empty slot. */
  const BlankTail: string := ". (empty) \U{2014} Flex"

  lemma BlankLineTextsLow()
    ensures [Digit(1)] + BlankTail == "1. (empty) \U{2014} Flex"
    ensures [Digit(2)] + BlankTail == "2. (empty) \U{2014} Flex"
    ensures [Digit(3)] + BlankTail == "3. (empty) \U{2014} Flex"
  {
    assert Digit(1) == '1';
    assert Digit(2) == '2';
    assert Digit(3) == '3';
  }

  lemma BlankLineTextsHigh()
    ensures [Digit(4)] + BlankTail == "4. (empty) \U{2014} Flex"
    ensures [Digit(5)] + BlankTail == "5. (empty) \U{2014} Flex"
    ensures [Digit(6)] + BlankTail == "6. (empty) \U{2014} Flex"
  {
    assert Digit(4) == '4';
    assert Digit(5) == '5';
    assert Digit(6) == '6';
  }

  lemma DefaultHeader()
    ensures Header(DefaultTeamName) == "UTD Team: My UTD Team"
  {
    DefaultNameSanitized();
    HeaderOfSanitized(DefaultTeamName);
    DefaultHeaderText();
  }

  lemma DefaultNameSanitized()
    ensures IsSanitized(DefaultTeamName) && DefaultTeamName != []
  {
    var n := DefaultTeamName;
    forall i | 0 <= i < |n| ensures IsSpace(n[i]) ==> n[i] == ' ' {
    }
    forall i | 0 <= i < |n| - 1 ensures !SpacePair(n, i) {
    }
  }

  /** The header shows a normalised, non-empty name as it is. */
  lemma HeaderOfSanitized(n: string)
    requires IsSanitized(n) && n != []
    ensures Header(n) == "UTD Team: " + n
  {
    SanitizeFixesSanitized(n);
  }

  lemma DefaultHeaderText()
    ensures "UTD Team: " + DefaultTeamName == "UTD Team: My UTD Team"
  {
  }

  lemma BlankSlotLine(index: nat)
    requires index < 9
    ensures SlotLine(index, EmptySlot) == [Digit(index + 1)] + BlankTail
  {
    assert DisplayName("") == "(empty)";
    assert NotesPart("") == "";
    assert RolePart(EmptySlot) == " \U{2014} Flex";
    assert Numbering(index) == [Digit(index + 1)] + ". ";
  }

  /** Setting slot 3 to a padded name with an empty note yields a trimmed line without a notes part. */
  lemma PaddedNameExample()
    ensures SlotLine(2, Slot("  Kenpachi  ", MainDps, "")) == "3. Kenpachi \U{2014} Main DPS"
  {
    KenpachiPadded();
    DisplayNameOfPadded("  ", "Kenpachi", "  ");
    KenpachiParts();
    KenpachiLine();
  }

  lemma KenpachiParts()
    ensures Numbering(2) == "3. "
    ensures RolePart(Slot("  Kenpachi  ", MainDps, "")) == " \U{2014} Main DPS"
  {
    NumberingThree();
    MainDpsRolePart(Slot("  Kenpachi  ", MainDps, ""));
  }

  lemma NumberingThree()
    ensures Numbering(2) == "3. "
  {
    assert DecimalString(3) == "3";
  }

  lemma MainDpsRolePart(slot: Slot)
    requires slot.role == MainDps && slot.notes == ""
    ensures RolePart(slot) == " \U{2014} Main DPS"
  {
    assert RoleLabel(slot.role) == "Main DPS";
    assert NotesPart(slot.notes) == [];
    assert RolePart(slot) == Dash + "Main DPS";
  }

  lemma KenpachiPadded()
    ensures "  Kenpachi  " == "  " + "Kenpachi" + "  " && AllSpace("  ")
    ensures IsSanitized("Kenpachi") && "Kenpachi" != []
  {
    var n := "Kenpachi";
    forall i | 0 <= i < |n| ensures !IsSpace(n[i]) {
    }
  }

  lemma KenpachiLine()
    ensures "3. " + "Kenpachi" + " \U{2014} Main DPS" == "3. Kenpachi \U{2014} Main DPS"
  {
  }

  /** A slot shows a normalised, non-empty name as it is, whatever padding surrounds it. */
  lemma DisplayNameOfPadded(pre: string, core: string, post: string)
    requires AllSpace(pre) && AllSpace(post) && IsSanitized(core) && core != []
    ensures DisplayName(pre + core + post) == core
  {
    SanitizeIgnoresPadding(pre, core, post);
  }

  // ---------------------------------------------------------------------------
  // The component state

  /** The builder's state: the raw team name and a fixed buffer of six raw
      slots, as typed. An edit overwrites one entry of the buffer;
      normalisation happens only in `ExportText`. */
  class Team {
    var teamName: string
    const slots: array<Slot>

    ghost predicate Valid()
      reads this
    {
      slots.Length == SlotCount
    }

    /** The summary of the current state. */
    function ExportText(): string
      reads this, slots
    {
      Export(teamName, slots[..])
    }

    constructor ()
      ensures Valid() && fresh(slots)
      ensures teamName == DefaultTeamName && slots[..] == DefaultSlots()
    {
      teamName := DefaultTeamName;
      slots := new Slot[SlotCount](_ => EmptySlot);
    }

    method SetTeamName(name: string)
      modifies this
      ensures teamName == name && slots[..] == old(slots[..])
    {
      teamName := name;
    }

    method SetSlotName(index: nat, name: string)
      requires Valid() && index < SlotCount
      modifies slots
      ensures Valid() && teamName == old(teamName)
      ensures slots[..] == old(slots[..])[index := old(slots[index]).(name := name)]
      ensures Split(ExportText(), '\n') == ExportLinesOf(teamName, old(slots[..]))[index + 2 := SlotLine(index, slots[index])]
    {
      ExportAfterEdit(teamName, slots[..], index, slots[index].(name := name));
      slots[index] := slots[index].(name := name);
    }

    method SetSlotRole(index: nat, role: SlotRole)
      requires Valid() && index < SlotCount
      modifies slots
      ensures Valid() && teamName == old(teamName)
      ensures slots[..] == old(slots[..])[index := old(slots[index]).(role := role)]
      ensures Split(ExportText(), '\n') == ExportLinesOf(teamName, old(slots[..]))[index + 2 := SlotLine(index, slots[index])]
    {
      ExportAfterEdit(teamName, slots[..], index, slots[index].(role := role));
      slots[index] := slots[index].(role := role);
    }

    method SetSlotNotes(index: nat, notes: string)
      requires Valid() && index < SlotCount
      modifies slots
      ensures Valid() && teamName == old(teamName)
      ensures slots[..] == old(slots[..])[index := old(slots[index]).(notes := notes)]
      ensures Split(ExportText(), '\n') == ExportLinesOf(teamName, old(slots[..]))[index + 2 := SlotLine(index, slots[index])]
    {
      ExportAfterEdit(teamName, slots[..], index, slots[index].(notes := notes));
      slots[index] := slots[index].(notes := notes);
    }

    /** Restores the default name and six blank Flex slots. */
    method Reset()
      requires Valid()
      modifies this, slots
      ensures Valid()
      ensures teamName == DefaultTeamName && slots[..] == DefaultSlots()
    {
      teamName := DefaultTeamName;
      forall i | 0 <= i < slots.Length {
        slots[i] := EmptySlot;
      }
    }
  }

  /** A session: edits are stored raw, the summary shows them normalised, and
      reset brings back the default summary. */
  method EditThenReset() returns (edited: string, reset: string)
    ensures |Split(edited, '\n')| == SlotCount + 2
    ensures Split(edited, '\n')[4] == "3. Kenpachi \U{2014} Main DPS"
    ensures reset == Export(DefaultTeamName, DefaultSlots())
  {
    var team := new Team();
    team.SetSlotName(2, "  Kenpachi  ");
    team.SetSlotRole(2, MainDps);
    assert team.slots[2] == Slot("  Kenpachi  ", MainDps, "");
    assert team.slots[0] == EmptySlot;
    PaddedNameExample();
    ExportLines(team.teamName, team.slots[..]);
    edited := team.ExportText();
    assert Split(edited, '\n')[4] == "3. Kenpachi \U{2014} Main DPS";
    team.Reset();
    reset := team.ExportText();
  }
}
