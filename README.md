# Universal Tower Defense fan-site tools, modelled in Dafny

The site is mostly static pages. Five small pieces of it compute something,
and this project models and proves properties of those five:

- **Unit browser** (`unit_browser.dfy`, module `UnitBrowser`). A fixed catalogue
  of units is narrowed by three controls: a role selector, a rarity selector and
  a free-text search. The search text is trimmed and lower-cased. It must occur
  in the lower-cased, space-joined text of the unit's name, role, rarity, how it
  is obtained, notes and tags. The list keeps catalogue order. The counter shows
  "n of m". Reset puts all three controls back.
- **Team builder** (`team_builder.dfy`, module `TeamBuilder`). A team name and six
  slots (name, role, notes) are stored exactly as typed. A plain-text summary is
  rebuilt from them. It has a header line, an empty line and one line per slot.
  Every text field passes through a white-space normaliser (`sanitizeLine`) on
  the way into the summary.
- **Upgrade cost projector** (`upgrade_cost.dfy`, module `UpgradeCost`). Four
  numeric inputs are clamped. A loop lists the cost of every level under a
  linear or an exponential model. A reduction adds the costs up, and the average
  is guarded against zero levels.
- **DPS estimator** (`dps.dfy`, module `Dps`). This is the expected damage of a
  hit when some hits are critical, and the damage per second at a given attack
  rate.
- **Header navigation** (`navigation.dfy`, module `Navigation`). One rule decides
  which menu entry is highlighted for the current path. The mobile menu has an
  open/closed flag.

`text.dfy` (module `Text`) holds the JavaScript string operations these tools
use:

- the white-space set of `trim` and of `\s`;
- lower-casing;
- `trim`, `join` and `includes`;
- the decimal rendering of the slot number.

It also defines a one-character `Split`, which none of the tools calls. The
proofs use it to read the joined summary back into its lines.

Numbers are exact reals. A JavaScript number that is NaN or infinite is an
explicit `NonFinite` value in the cost projector's input. Component state that
changes in place is a class:
- the browser's three control values;
- the team's name and its fixed six-slot buffer;
- the mobile menu flag.

Values derived from that state are pure functions of it.

The catalogue entry's `tags` field follows the code: it is an ordered list
(`string[]`), not a set.

## Model

| member | source | states |
|---|---|---|
| Text.IsSpace | components/utd/TeamBuilder.tsx:18 | Definition of white space: the ECMAScript WhiteSpace and LineTerminator code points, the set that `\s` matches and `trim` removes. |
| Text.LowerChar | components/utd/UnitBrowser.tsx:53 | Lower-casing one character leaves no upper-case ASCII letter, changes only the letters A to Z, and maps white space to white space and nothing else to it. |
| Text.Lower | components/utd/UnitBrowser.tsx:53 | `toLowerCase` keeps the length and lower-cases each character. |
| Text.LowerIdempotent | components/utd/UnitBrowser.tsx:53 | Lower-casing twice is the same as lower-casing once. |
| Text.LowerConcat | components/utd/UnitBrowser.tsx:66-67 | Lower-casing a concatenation lower-cases each part. |
| Text.TrimStart | components/utd/TeamBuilder.tsx:18 | What is dropped at the front is all white space, and what is kept starts with a non-space character. |
| Text.TrimEnd | components/utd/TeamBuilder.tsx:18 | What is dropped at the back is all white space, and what is kept ends with a non-space character. |
| Text.Trim | components/utd/TeamBuilder.tsx:18 | `trim` neither starts nor ends with white space, and it is empty exactly when the input is all white space. |
| Text.TrimIsSlice | components/utd/TeamBuilder.tsx:18 | `trim` returns the contiguous piece of the input that follows the leading white space. |
| Text.TrimStartConcat | components/utd/TeamBuilder.tsx:18 | Once a string holds a non-space character, nothing after it is dropped by the front trim. |
| Text.TrimStartSpaces | components/utd/TeamBuilder.tsx:18 | Leading white space does not change what the front trim keeps. |
| Text.TrimEndSpaces | components/utd/TeamBuilder.tsx:18 | Trailing white space does not change what the back trim keeps. |
| Text.TrimUnpadded | components/utd/TeamBuilder.tsx:18 | A string with no white space at either end is its own trim. |
| Text.TrimLowerCommute | components/utd/UnitBrowser.tsx:53 | Trimming then lower-casing is the same as lower-casing then trimming. |
| Text.Join | components/utd/TeamBuilder.tsx:37 | `join` starts with the first piece and, when there are two or more pieces, with the first piece, the separator and the second. |
| Text.SplitJoin | components/utd/TeamBuilder.tsx:37 | Reading the join back: splitting a newline-joined list on the newline gives the list back when no piece contains a newline. |
| Text.SplitFirst | components/utd/TeamBuilder.tsx:37 | Helper for reading the join back: splitting stops at the first separator. |
| Text.ContainsViaPrefix | components/utd/UnitBrowser.tsx:68 | Whatever `includes` finds in a prefix, it finds in the whole string. |
| Text.ContainsInPiece | components/utd/UnitBrowser.tsx:68 | Whatever `includes` finds in a piece of a string, it finds in the whole string. |
| Text.Contains | components/utd/UnitBrowser.tsx:68 | Definition of `includes`: the needle occurs at some position of the string. `ContainsViaPrefix` and `ContainsInPiece` are the lemmas about it. |
| Text.DecimalString | components/utd/TeamBuilder.tsx:34-35 | The rendering of a slot number is a non-empty string of decimal digits. |
| Text.DecimalRoundTrip | components/utd/TeamBuilder.tsx:34-35 | Reading the decimal rendering back gives the number. |
| UnitBrowser.RoleName | lib/utd.ts:149 | The role as the text a unit record holds and the search reads; never empty. |
| UnitBrowser.RarityName | lib/utd.ts:150 | The rarity as the text a unit record holds and the search reads; never empty. |
| UnitBrowser.NamesDistinct | lib/utd.ts:149-150 | Different roles, and different rarities, have different names. |
| UnitBrowser.OptionsComplete | components/utd/UnitBrowser.tsx:11-28 | Both selectors start with "All" and offer every role and every rarity. |
| UnitBrowser.BadgeColorClass | components/utd/UnitBrowser.tsx:30-45 | Every rarity has a non-empty badge style. `BadgeColorsDistinct` shows the styles are pairwise different. |
| UnitBrowser.BadgeColorsDistinct | components/utd/UnitBrowser.tsx:30-45 | Two rarities share a badge style exactly when they are the same rarity. |
| UnitBrowser.BadgeLength | components/utd/UnitBrowser.tsx:30-45 | Helper for `BadgeColorsDistinct`: the length of each literal badge style. The lengths tell every pair of rarities apart except Epic and Mythic. |
| UnitBrowser.NormalizeQuery | components/utd/UnitBrowser.tsx:53 | The normalised query is empty exactly when the typed query is all white space. |
| UnitBrowser.Haystack | components/utd/UnitBrowser.tsx:58-67 | Definition of the searched text: the lower-cased, space-joined name, role, rarity, obtain text, notes and tags. `HaystackStart` states how it begins. |
| UnitBrowser.Passes | components/utd/UnitBrowser.tsx:54-68 | Definition of the per-unit test: role, then rarity, then an empty normalised query or one contained in the haystack. `Filter` keeps exactly the units it accepts. |
| UnitBrowser.Filter | components/utd/UnitBrowser.tsx:52-70 | The list shown is a subsequence of the catalogue in catalogue order. It is never longer than the catalogue. It holds only units that pass all three tests, and every catalogue unit that passes is in it. |
| UnitBrowser.RoleFilterSound | components/utd/UnitBrowser.tsx:55 | With a role selected, every unit shown has that role. |
| UnitBrowser.RarityFilterSound | components/utd/UnitBrowser.tsx:56 | With a rarity selected, every unit shown has that rarity. |
| UnitBrowser.FilterKeepsAll | components/utd/UnitBrowser.tsx:54-57 | When every unit passes, the whole catalogue is shown in its own order. |
| UnitBrowser.ShowAll | components/utd/UnitBrowser.tsx:53-57 | Both selectors on "All" and a blank or empty search show the whole catalogue. |
| UnitBrowser.FilterSamePasses | components/utd/UnitBrowser.tsx:54 | Two control states that accept the same units show the same list. |
| UnitBrowser.SameQuerySamePasses | components/utd/UnitBrowser.tsx:53-68 | Two states with the same selectors and the same normalised query accept the same units. |
| UnitBrowser.CaseInsensitive | components/utd/UnitBrowser.tsx:53-68 | Two queries that agree once lower-cased show the same units. |
| UnitBrowser.HaystackStart | components/utd/UnitBrowser.tsx:58-67 | The searched text begins with the lower-cased name, a space and the lower-cased role. |
| UnitBrowser.NameStartsHaystack | components/utd/UnitBrowser.tsx:58-67 | The lower-cased name is a prefix of the lower-cased "name role" text. |
| UnitBrowser.NameMatchShown | components/utd/UnitBrowser.tsx:57-68 | A unit that passes both selectors, and whose lower-cased name contains the normalised query, is shown. |
| UnitBrowser.CrossFieldMatch | components/utd/UnitBrowser.tsx:58-68 | A query equal to the lower-cased "name role" text finds the unit: one query can span two fields. |
| UnitBrowser.RarityInHaystack | components/utd/UnitBrowser.tsx:58-67 | The lower-cased rarity name sits in the searched text right after the name, the role and their two separating spaces. |
| UnitBrowser.RarityMatchShown | components/utd/UnitBrowser.tsx:57-68 | A unit that passes both selectors, and whose lower-cased rarity name contains the normalised query, is shown. |
| UnitBrowser.MythicQuery | components/utd/UnitBrowser.tsx:53-68 | The search "MYTHIC", with both selectors on "All", shows every Mythic unit. |
| UnitBrowser.KenpachiDpsQuery | components/utd/UnitBrowser.tsx:53-68 | The search "  Kenpachi DPS " shows a DPS unit named Kenpachi. |
| UnitBrowser.KenpachiDpsText | components/utd/UnitBrowser.tsx:53 | "  Kenpachi DPS " normalises to the lower-cased "Kenpachi DPS". |
| UnitBrowser.KenpachiDpsTrim | components/utd/UnitBrowser.tsx:53 | Trimming "  Kenpachi DPS " gives "Kenpachi DPS". |
| UnitBrowser.FilterIdempotent | components/utd/UnitBrowser.tsx:54-69 | Filtering the shown list again changes nothing. |
| UnitBrowser.SubsequenceSameLength | components/utd/UnitBrowser.tsx:126-127 | A subsequence is never longer than its sequence, and it is as long exactly when it is the sequence itself. |
| UnitBrowser.Browser.Counts | components/utd/UnitBrowser.tsx:126-127 | "Showing n of m": n is the number of units shown, m is the catalogue size, n is at most m, and n equals m exactly when the whole catalogue is shown. |
| UnitBrowser.Browser.Shown | components/utd/UnitBrowser.tsx:52-70 | Definition of the units shown: `Filter` of the catalogue under the current controls. The constructor and `Reset` state that it is then the whole catalogue. |
| UnitBrowser.Browser.constructor | components/utd/UnitBrowser.tsx:48-50 | The controls start empty and on "All", and the whole catalogue is shown. |
| UnitBrowser.Browser.SetQuery | components/utd/UnitBrowser.tsx:48 | The search field changes and nothing else does. |
| UnitBrowser.Browser.SetRole | components/utd/UnitBrowser.tsx:49 | The role selector changes and nothing else does. |
| UnitBrowser.Browser.SetRarity | components/utd/UnitBrowser.tsx:50 | The rarity selector changes and nothing else does. |
| UnitBrowser.Browser.Reset | components/utd/UnitBrowser.tsx:133-137 | After reset, the search is empty, both selectors are "All" and the whole catalogue is shown. |
| TeamBuilder.RoleLabel | components/utd/TeamBuilder.tsx:7 | Every role label is non-empty and has no newline. |
| TeamBuilder.RolesComplete | components/utd/TeamBuilder.tsx:15 | The role selector offers every role, and no role twice. |
| TeamBuilder.DefaultSlots | components/utd/TeamBuilder.tsx:23-25 | The initial roster has six slots, each with an empty name, the Flex role and empty notes. |
| TeamBuilder.CollapseSpaces | components/utd/TeamBuilder.tsx:18 | Replacing each white-space run by one space gives an empty result only for empty input, and keeps whether the first character is white space. |
| TeamBuilder.CollapseIsSingleSpaced | components/utd/TeamBuilder.tsx:18 | After the replacement, white space occurs only as single plain spaces. |
| TeamBuilder.SanitizeLine | components/utd/TeamBuilder.tsx:17-19 | `sanitizeLine` is empty exactly when its input is all white space. |
| TeamBuilder.SanitizeLineIsSanitized | components/utd/TeamBuilder.tsx:17-19 | The output has no white space at either end and no run of two white-space characters, and every white-space character left is a plain space. |
| TeamBuilder.TrimKeepsSingleSpaced | components/utd/TeamBuilder.tsx:18 | Trimming a single-spaced string keeps it single-spaced. |
| TeamBuilder.SanitizeEmptyIffAllSpace | components/utd/TeamBuilder.tsx:17-19 | Normalising gives the empty string exactly for all-white-space input. |
| TeamBuilder.CollapseKeepsWord | components/utd/TeamBuilder.tsx:18 | A string with a non-space character keeps one after the replacement. |
| TeamBuilder.CollapseSingleSpaced | components/utd/TeamBuilder.tsx:18 | The replacement leaves a single-spaced string unchanged. |
| TeamBuilder.SanitizeFixesSanitized | components/utd/TeamBuilder.tsx:17-19 | Normalising leaves an already normalised string unchanged. |
| TeamBuilder.SanitizeIdempotent | components/utd/TeamBuilder.tsx:17-19 | `sanitizeLine(sanitizeLine(s)) == sanitizeLine(s)`. |
| TeamBuilder.WordsCollapse | components/utd/TeamBuilder.tsx:18 | The replacement keeps every non-space character, in order. |
| TeamBuilder.SanitizeKeepsWords | components/utd/TeamBuilder.tsx:17-19 | Normalising changes only white space: the other characters survive, in order. |
| TeamBuilder.SanitizedHasNoNewline | components/utd/TeamBuilder.tsx:17-19 | A normalised string contains no newline. |
| TeamBuilder.SanitizeIgnoresPadding | components/utd/TeamBuilder.tsx:17-19 | White space of any kind around an already normalised value is dropped. |
| TeamBuilder.CollapseConcat | components/utd/TeamBuilder.tsx:18 | A string that ends in a non-space character collapses independently of what follows it. |
| TeamBuilder.CollapseInteriorRun | components/utd/TeamBuilder.tsx:18 | A white-space run of any length and kind between two words becomes exactly one plain space. |
| TeamBuilder.SanitizeInteriorRun | components/utd/TeamBuilder.tsx:17-19 | Two normalised, non-empty words separated by any white-space run normalise to the two words joined by one space. |
| TeamBuilder.Title | components/utd/TeamBuilder.tsx:28 | The header title is "Untitled" for a blank team name, and otherwise the normalised name. |
| TeamBuilder.Header | components/utd/TeamBuilder.tsx:28 | Definition of the header line: "UTD Team: " followed by the title. `HeaderHasNoNewline`, `DefaultHeader` and `HeaderOfSanitized` are the lemmas about it. |
| TeamBuilder.HeaderHasNoNewline | components/utd/TeamBuilder.tsx:28 | The header line contains no newline. |
| TeamBuilder.DisplayName | components/utd/TeamBuilder.tsx:30 | A slot shows "(empty)" for a blank name, and otherwise the normalised name. |
| TeamBuilder.DisplayNameOfPadded | components/utd/TeamBuilder.tsx:30 | A padded, non-empty normalised name is shown without its padding. |
| TeamBuilder.NotesPart | components/utd/TeamBuilder.tsx:33-35 | The notes add nothing to the line exactly when they are blank. |
| TeamBuilder.NotesShownIffNotBlank | components/utd/TeamBuilder.tsx:32-35 | A slot line differs from the same slot with empty notes exactly when the notes are not blank. |
| TeamBuilder.PlaceholderIffBlankName | components/utd/TeamBuilder.tsx:30 | A slot line equals the line for an empty name exactly when the name is blank or normalises to "(empty)". |
| TeamBuilder.SlotLineHasNoNewline | components/utd/TeamBuilder.tsx:29-36 | No slot line contains a newline, whatever was typed. |
| TeamBuilder.SlotLine | components/utd/TeamBuilder.tsx:29-35 | Definition of one slot line: number, display name, role label and notes part. `NotesShownIffNotBlank`, `PlaceholderIffBlankName` and `PaddedNameExample` characterise it. |
| TeamBuilder.SlotLines | components/utd/TeamBuilder.tsx:29-36 | There is one line per slot, and line `i` is the line of slot `i`, numbered `i + 1`. |
| TeamBuilder.ExportLinesOf | components/utd/TeamBuilder.tsx:37 | Before joining, the summary has two lines more than there are slots. |
| TeamBuilder.ExportLines | components/utd/TeamBuilder.tsx:27-38 | Split on newlines, the summary reads back as the header, an empty line and the slot lines. For six slots that is eight lines. |
| TeamBuilder.Export | components/utd/TeamBuilder.tsx:27-38 | Definition of the summary: its lines joined by newlines. `ExportLines` is the round trip that reads the lines back. |
| TeamBuilder.ExportAfterEdit | components/utd/TeamBuilder.tsx:75-79 | Editing slot `index` changes summary line `index + 2` to the new slot's line and leaves every other line alone. |
| TeamBuilder.SlotLinesUpdate | components/utd/TeamBuilder.tsx:29-36 | Replacing one slot replaces exactly that slot's line. |
| TeamBuilder.ExportSeesOnlySanitized | components/utd/TeamBuilder.tsx:28-33 | The summary of the raw fields equals the summary of their normalised forms, so storing raw text loses nothing. |
| TeamBuilder.SanitizeSlots | components/utd/TeamBuilder.tsx:30-32 | Normalising a roster normalises every slot's name and notes, keeps its role, and keeps the slot count. |
| TeamBuilder.ResetExport | components/utd/TeamBuilder.tsx:138-141 | The summary of the initial or reset state is, line by line, "UTD Team: My UTD Team", an empty line, and "N. (empty) — Flex" for N = 1 to 6. |
| TeamBuilder.DefaultHeader | components/utd/TeamBuilder.tsx:22-28 | The default team name gives the header "UTD Team: My UTD Team". |
| TeamBuilder.HeaderOfSanitized | components/utd/TeamBuilder.tsx:28 | A normalised, non-empty team name appears in the header as it is. |
| TeamBuilder.BlankSlotLine | components/utd/TeamBuilder.tsx:30-35 | The line of an empty Flex slot is its number followed by ". (empty) — Flex". |
| TeamBuilder.PaddedNameExample | components/utd/TeamBuilder.tsx:30-35 | Slot 3 holding "  Kenpachi  " as Main DPS with empty notes gives the line "3. Kenpachi — Main DPS". |
| TeamBuilder.Team.constructor | components/utd/TeamBuilder.tsx:22-25 | A new builder has the name "My UTD Team" and six blank Flex slots. |
| TeamBuilder.Team.SetTeamName | components/utd/TeamBuilder.tsx:56 | The raw team name is stored as typed, and the slots do not change. |
| TeamBuilder.Team.SetSlotName | components/utd/TeamBuilder.tsx:75-79 | Only the name of slot `index` changes, to the raw text. There are still six slots. Only summary line `index + 2` changes. |
| TeamBuilder.Team.SetSlotRole | components/utd/TeamBuilder.tsx:89-93 | Only the role of slot `index` changes. There are still six slots. Only summary line `index + 2` changes. |
| TeamBuilder.Team.SetSlotNotes | components/utd/TeamBuilder.tsx:110-114 | Only the notes of slot `index` change, to the raw text. There are still six slots. Only summary line `index + 2` changes. |
| TeamBuilder.Team.Reset | components/utd/TeamBuilder.tsx:138-141 | After reset, the name is "My UTD Team" and all six slots are blank Flex slots. |
| TeamBuilder.Team.ExportText | components/utd/TeamBuilder.tsx:27-38 | Definition of the summary of the current state. The edit methods state how each edit changes it. |
| TeamBuilder.EditThenReset | components/utd/TeamBuilder.tsx:75-141 | Worked session: after naming slot 3 "  Kenpachi  " as Main DPS, summary line 5 reads "3. Kenpachi — Main DPS". After reset, the summary is the default one. |
| UpgradeCost.ClampNumber | components/utd/UpgradeCostCalculator.tsx:7-10 | A non-finite value gives `min`. Otherwise the result lies in `[min, max]`. It is the value itself when that is in range, `min` below the range and `max` above it. |
| UpgradeCost.FloorNumber | components/utd/UpgradeCostCalculator.tsx:20 | `Math.floor` keeps non-finite values non-finite. For a finite value it gives an integer `f` with `f <= value < f + 1`, which is the greatest integer not above the value. |
| UpgradeCost.LevelCount | components/utd/UpgradeCostCalculator.tsx:20 | The level count is at most 999. It is 0 for non-finite or negative input, the floor for input in `[0, 1000)`, and 999 for input from 999 up. |
| UpgradeCost.Normalize | components/utd/UpgradeCostCalculator.tsx:20-23 | After clamping, the base and step lie in `[0, 1e9]`, the rate in `[1, 100]` and the count in `[0, 999]`. A value already in range is kept as typed. |
| UpgradeCost.Pow | components/utd/UpgradeCostCalculator.tsx:30 | A power of a base of at least 1 is at least 1. |
| UpgradeCost.PowMonotone | components/utd/UpgradeCostCalculator.tsx:30 | A base of at least 1 never gives a smaller power for a larger exponent. |
| UpgradeCost.CostList | components/utd/UpgradeCostCalculator.tsx:25-32 | The list of the first `k` costs has length `k`, and entry `i` is `base + i * step` or `base * rate^i`. |
| UpgradeCost.CostAt | components/utd/UpgradeCostCalculator.tsx:27-31 | Definition of the cost of level `i` under each model. `CostNonNegative`, `FirstCostIsBase` and `CostsNonDecreasing` are the lemmas about it. |
| UpgradeCost.Costs | components/utd/UpgradeCostCalculator.tsx:25-32 | The cost list has one entry per level. |
| UpgradeCost.ListCosts | components/utd/UpgradeCostCalculator.tsx:24-32 | The loop that pushes one cost per level produces the cost list. |
| UpgradeCost.Total | components/utd/UpgradeCostCalculator.tsx:33 | The left-to-right reduction gives the sum of every cost. |
| UpgradeCost.Sum | components/utd/UpgradeCostCalculator.tsx:33 | Definition of the left-to-right sum. `Total` computes it, and `SumSplit`, `SumBounds`, `LinearTotal` and `SumIsSeries` are the lemmas about it. |
| UpgradeCost.Project | components/utd/UpgradeCostCalculator.tsx:19-36 | The result holds the full cost list of the clamped inputs and its total. The average is the total over the level count, or 0 with no levels, in which case the total is 0 too. |
| UpgradeCost.CostNonNegative | components/utd/UpgradeCostCalculator.tsx:21-31 | With clamped inputs every cost is non-negative. |
| UpgradeCost.FirstCostIsBase | components/utd/UpgradeCostCalculator.tsx:27-31 | With at least one level, the first cost is the base cost under both models. |
| UpgradeCost.CostsNonDecreasing | components/utd/UpgradeCostCalculator.tsx:22-31 | With clamped inputs the costs never go down from one level to a later one, under both models. |
| UpgradeCost.SumSplit | components/utd/UpgradeCostCalculator.tsx:33 | The total splits at any position into the sum before it and the sum after it. |
| UpgradeCost.Displayed | components/utd/UpgradeCostCalculator.tsx:124 | The displayed list is a prefix of the costs, of length 10 or the whole list when it is shorter. |
| UpgradeCost.TotalCoversHidden | components/utd/UpgradeCostCalculator.tsx:124 | The total is the sum of the displayed costs plus the sum of the hidden ones. |
| UpgradeCost.SumBounds | components/utd/UpgradeCostCalculator.tsx:33 | A sum of values in `[lo, hi]` lies between `count * lo` and `count * hi`. |
| UpgradeCost.AverageBetween | components/utd/UpgradeCostCalculator.tsx:33-34 | With clamped inputs and at least one level, the average lies between the first and the last cost. |
| UpgradeCost.MeanOfBounded | components/utd/UpgradeCostCalculator.tsx:34 | The mean of values that all lie in `[lo, hi]` lies there too. |
| UpgradeCost.LinearTotal | components/utd/UpgradeCostCalculator.tsx:27-33 | The linear total is `k * base + step * k * (k - 1) / 2`. |
| UpgradeCost.SumIsSeries | components/utd/UpgradeCostCalculator.tsx:29-33 | The exponential total is the geometric series `base + base * rate + ... + base * rate^(k-1)`. |
| UpgradeCost.SeriesClosedForm | components/utd/UpgradeCostCalculator.tsx:29-33 | That series satisfies `(rate - 1) * series == base * (rate^k - 1)`. |
| UpgradeCost.LinearExample | components/utd/UpgradeCostCalculator.tsx:19-36 | Linear, base 100, 3 levels, step 25 gives costs 100, 125, 150, total 375 and average 125. |
| UpgradeCost.ExponentialExample | components/utd/UpgradeCostCalculator.tsx:19-36 | Exponential, base 100, 3 levels, rate 2 gives costs 100, 200, 400, total 700 and average 700 / 3. |
| UpgradeCost.NoLevelsExample | components/utd/UpgradeCostCalculator.tsx:19-36 | Zero levels give an empty list, a total of 0 and an average of 0. |
| Dps.EffectiveChance | components/utd/DpsCalculator.tsx:38 | The crit chance lies in `[0, 1]`. It is the percentage over 100 in range, 0 at or below 0 %, and 1 at or above 100 %. |
| Dps.EffectiveMultiplier | components/utd/DpsCalculator.tsx:39 | The multiplier is at least 1. It is kept from 1 up, and any smaller value acts as 1. |
| Dps.Estimate | components/utd/DpsCalculator.tsx:37-46 | The expected hit is the two-outcome average: a normal hit with probability `1 - chance`, a crit of base times multiplier with probability `chance`. DPS is exactly that expected hit times the attack rate. |
| Dps.NoCritIsBase | components/utd/DpsCalculator.tsx:38-44 | With no crit chance, or a multiplier of at most 1, the expected hit is the base damage. |
| Dps.HitBounds | components/utd/DpsCalculator.tsx:38-44 | For non-negative base damage, base damage ≤ expected hit ≤ base damage times the multiplier. |
| Dps.MonotoneInChance | components/utd/DpsCalculator.tsx:38-44 | For non-negative base damage, a higher crit chance never lowers the expected hit. |
| Dps.MonotoneInMultiplier | components/utd/DpsCalculator.tsx:39-44 | For non-negative base damage, a larger multiplier never lowers the expected hit. |
| Dps.ClampedInputsAct | components/utd/DpsCalculator.tsx:38-39 | A chance below 0 or above 100, or a multiplier below 1, gives the same result as the nearest value in range. |
| Dps.NoCritExample | components/utd/DpsCalculator.tsx:37-46 | Base 100, 1 attack per second, 0 % crits at 2x gives 100 per hit and 100 per second. |
| Dps.HalfCritExample | components/utd/DpsCalculator.tsx:37-46 | Base 100, 2 attacks per second, 50 % crits at 3x gives 200 per hit and 400 per second. |
| Navigation.IsActive | components/Header.tsx:47-50 | Definition of the highlight rule, shared by the desktop and the mobile menu. `ActiveIffSegmentPrefix` and `HomeActiveIff` characterise it in both directions. |
| Navigation.ActiveIffSegmentPrefix | components/Header.tsx:47-50 | An entry other than home is highlighted exactly when its link is a prefix of the path that either ends the path or is followed by `/`. |
| Navigation.HomeActiveIff | components/Header.tsx:48-49 | The home entry is highlighted on "/" and nowhere else. |
| Navigation.ActiveOnOwnPages | components/Header.tsx:50 | Any other entry is highlighted on its own page and on every page below it. |
| Navigation.SiblingNotActive | components/Header.tsx:50 | A path that extends the link without a `/` after it does not highlight the entry. |
| Navigation.SiblingExample | components/Header.tsx:50 | "/x-codes-old" does not highlight "/x-codes", and "/x-codes/expired" does. |
| Navigation.MobileMenu.constructor | components/Header.tsx:10 | The mobile menu starts closed. |
| Navigation.MobileMenu.Toggle | components/Header.tsx:89 | The menu button flips the open flag. |
| Navigation.MobileMenu.Close | components/Header.tsx:13 | Closing leaves the menu closed, whatever its state. The overlay (line 110), every menu link (line 125), and the Privacy and Terms links (lines 156 and 163) close it this way. |
| Navigation.ToggleTwice | components/Header.tsx:89 | Pressing the menu button twice leaves the menu as it was. |
| Navigation.OpenThenFollowLink | components/Header.tsx:89-125 | Worked session: the menu button opens a new menu, and following a link leaves it closed. |

The desktop menu (components/Header.tsx:47-50) and the mobile menu
(components/Header.tsx:117-120) use the same expression. Both are modelled by
the one predicate `Navigation.IsActive`.

## Left out

- Rendering, page markup, the site layout, the footer, SEO metadata and the
  redirect table: they compute nothing.
- React mechanics (`useState`, `useMemo`, re-rendering). Each derived value is a
  pure function of the current state: `Filter` and `Counts` for the browser,
  `ExportText` for the team builder, `Project` for the cost projector, and
  `Estimate` for the DPS estimator.
- The copy-to-clipboard button: it is browser I/O and a timer.
- The header effect that locks page scrolling while the mobile menu is open:
  it is DOM manipulation.
- The ROBLOX game link: it leaves the site.
- The navigation entries and the unit catalogue themselves: they are constant
  data. `lib/site.ts` is not part of this model, and the unit record type is
  transcribed from `lib/utd.ts`.
- `unit.tags ?? []`: the record type requires `tags`, so a unit without tags is
  modelled as one with an empty list.
- Text.LowerChar: lower-cases the ASCII letters only. JavaScript's
  `toLowerCase` maps all of Unicode, including characters whose lower case is
  longer than one character.
- Floating point: the cost projector and the DPS estimator compute over exact
  reals. IEEE rounding, overflow to infinity and `toFixed` formatting are not
  modelled. `Math.pow` is the recursive `Pow` on a natural exponent.
- Dps.Estimate: takes finite reals. A NaN or infinite field, which the
  component does not clamp, is not modelled.
- UpgradeCost.SeriesClosedForm: states the exponential total multiplied
  through by `rate - 1` instead of dividing. For a rate of exactly 1 the
  division form does not exist; that total is `k * base`, which
  `SumIsSeries` gives directly.
- Whether two different menu entries can be highlighted at once depends on
  the constant list of links. That list is not part of this model, so this is
  not stated.
