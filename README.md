# Fiasco playset loader and setup generator, in Dafny

This project models the core of a generator for the tabletop game Fiasco and
proves properties of that model. The generator has three parts.

- **The playset tree** (`fiasco/model.py`). A `Playset` maps section names
  to `Section`s. A `Section` maps category names to `Category`s. A
  `Category` holds an ordered list of item strings. All three are mutable
  objects. They are modelled as Dafny classes in module `Model`, with their
  dictionaries and lists as `map` and `seq` fields. Each method states its
  whole new state. `Playset.Tree()` is the abstract content: section name to
  category name to items.
- **The loader** (`fiasco/loader.py`). It makes one forward pass over the
  lines of a playset file:
  - the first line names the Playset;
  - `#` lines open Sections;
  - `##` lines open Categories;
  - every other line is `<ordinal> <text>`, and its text is appended to the
    current Category.

  The first section header must be on line 2 and the first category header
  on line 3. Module `Loader` states the pass twice:
  - `Run` and `Parse` are functions over values, a left fold of `Step`;
  - `Process` is the pass as the source runs it, building the object tree in
    place with a loop.

  `Process`'s postcondition ties the objects it builds to `Parse`: the same
  name, the same content, and the same exception when it fails.
  `LoaderFacts` proves what the loader promises about `Run` and `Parse`.
- **The setup generator** (`fiasco/generator.py`), in module `Generator`:
  - `Circular` pairs each player with the player before them, round the
    table;
  - `SimpleSectionChoiceStrategy` cycles round-robin over the section keys
    other than "relationships";
  - `Setup.Build` gives each pair a `Connection`. Its relationship is drawn
    from the "relationships" Section, and its detail is drawn from the next
    Section of the cycle.

Supporting modules:
- `Results` holds the Python exceptions the code can raise, as a `Result`
  datatype.
- `Text` holds the Python 2 builtins the loader uses: `strip`, `lower`,
  `index` and `int`. The loader never calls `str`; `Text.IntString` models
  `str` of an integer only to state that `int` reads back what it writes.

Python exceptions become `Err` values. The source calls `random.choice` in
two places: `Category.random_item` and `Section.random_category`. Each call
is modelled as a nondeterministic choice of some element (`:|`), and the
contract promises only membership. A Python
generator that is suspended between calls to `next` is modelled as an object
(`ChoiceCursor`) whose fields are the generator's local variables.

Behaviours of the code worth noting:
- A line of only whitespace after the first line is an item line, so
  `parse_line` raises ValueError on it (or AttributeError before any
  Category). Blank trailing lines are therefore not ignored. Each line keeps
  its line terminator, as iterating over a file gives it.
- Lookups `playset[k]` and `section[k]` use exactly the key given, with no
  case folding. The loader stores keys lower-cased. The generator drops a
  section from the detail cycle when its lower-cased key is
  "relationships", but it looks up the relationship Section under
  "relationships" exactly.
- An empty list of detail sections is not refused at construction. The
  first `next` raises IndexError, and every later `next` raises
  StopIteration.
- The first section header is accepted only on line 2 and the first category
  header only on line 3. Later headers may appear anywhere.
- No lines at all gives `None`, and no Playset is built. `Setup` of that
  `None` raises AttributeError when its section strategy reads
  `playset.sections`; `Setup.Create` and `SimpleSectionChoiceStrategy.Create`
  take a Playset that may be None and model that error, while the
  constructors take a Playset.
- `Setup.build` calls `random_item()` on a Section, which has no such method
  (see Findings).

## Model

| member | source | states |
|---|---|---|
| Text.TrimStart | fiasco/loader.py:32 | `lstrip`, the first half of `strip`, defined by recursion; what it removes is stated by `Text.TrimStartSpec` |
| Text.TrimEnd | fiasco/loader.py:32 | `rstrip`, the second half of `strip`, defined by recursion; what it removes is stated by `Text.TrimEndSpec` |
| Text.Strip | fiasco/loader.py:32 | `strip()` as `rstrip` after `lstrip`; its properties are `Text.StripSpec`, `Text.StripInfix`, `Text.StripAround` and `Text.StripIdempotent` |
| Text.TrimStartSpec | fiasco/loader.py:32 | `lstrip` removes exactly a whitespace prefix and stops at the first other character |
| Text.TrimEndSpec | fiasco/loader.py:32 | `rstrip` removes exactly a whitespace suffix and stops at the last other character |
| Text.StripSpec | fiasco/loader.py:35 | what `strip` returns has no whitespace at either end and is no longer than its input |
| Text.StripInfix | fiasco/loader.py:35 | `strip` returns the input with only whitespace removed at either end |
| Text.StripAround | fiasco/loader.py:38 | whitespace around a stripped string is what `strip` removes, giving that string back |
| Text.StripTrailingSpace | fiasco/loader.py:38 | whitespace appended to a string, such as a line terminator, does not change what `strip` gives |
| Text.StripIdempotent | fiasco/loader.py:35 | stripping twice is stripping once |
| Text.Lower | fiasco/loader.py:42 | `lower()` keeps the length and lowers each character on its own, changing only 'A'..'Z' |
| Text.LowerIsLowerCase | fiasco/loader.py:46 | `lower()` leaves no upper-case letter, so lowering again changes nothing |
| Text.IndexOf | fiasco/loader.py:31 | `index(" ")` gives the position of the first space, or ValueError exactly when there is none |
| Text.IntValue | fiasco/loader.py:32 | `int()` succeeds exactly on an optional sign followed by digits, and fails with ValueError otherwise |
| Text.Decimal | fiasco/loader.py:32 | `str(n)` of a natural is a non-empty digit string with no leading zero |
| Text.DecimalRoundTrip | fiasco/loader.py:32 | the digits of `str(n)` read back as `n` |
| Text.IntString | fiasco/loader.py:32 | `str(n)` of an integer is non-empty, all digits except a leading minus sign |
| Text.IntRoundTrip | fiasco/loader.py:32 | `int(str(n)) == n` for every integer, negative ones included |
| Model.Category.constructor | fiasco/model.py:12-14 | a new Category has the given name and no items |
| Model.Category.AddItem | fiasco/model.py:19-21 | `add_item` appends the item after the earlier items, which it leaves unchanged, and returns the same Category |
| Model.Category.RandomItem | fiasco/model.py:16-17 | `random_item` returns a member of the items, and raises IndexError exactly when there are none |
| Model.Section.constructor | fiasco/model.py:24-26 | a new Section has the given name and no categories |
| Model.Section.Lookup | fiasco/model.py:28-29 | `section[k]` is the Category stored under exactly `k`, or KeyError(k) exactly when `k` is absent |
| Model.Section.RandomCategory | fiasco/model.py:31-32 | `random_category` returns a stored (name, Category) pair, and raises IndexError exactly when there is none |
| Model.Section.NewCategory | fiasco/model.py:34-36 | `new_category(n)` stores a fresh empty Category under `n`, replacing any old one, returns it, and leaves every other key's lookup and items unchanged; a Section with distinct, correctly named Categories stays so |
| Model.Playset.constructor | fiasco/model.py:39-41 | a new Playset has the given name, no sections, and empty content |
| Model.Playset.Lookup | fiasco/model.py:43-44 | `playset[k]` is the Section stored under exactly `k`, or KeyError(k) exactly when `k` is absent |
| Model.Playset.NewSection | fiasco/model.py:46-48 | `new_section(n)` stores a fresh empty Section under `n`, replacing any old one. The content changes only at `n`, a tree stays a tree, and the Categories of a replaced Section leave it |
| Model.InstallEmptyContent | fiasco/model.py:47 | installing an empty Section under `k` empties the content at `k`, and the replaced Section's Categories drop out |
| Model.InstallEmpty | fiasco/model.py:47 | installing a fresh empty Section changes the content at `k` only and keeps the tree shape |
| Model.InstallEmptyTree | fiasco/model.py:47 | a fresh empty Section keeps every Section and Category stored once and named by its key |
| Model.FamilyExample | fiasco/model.py:4-7 | the module doctest: chained calls store ["Cousins", "Spouses"] under "Relationships" and "Family" |
| Loader.ParseLine | fiasco/loader.py:26-32 | every failure of `parse_line` is a ValueError |
| Loader.Skip | fiasco/loader.py:34-35 | `skip` of a line no longer than the header is empty |
| Loader.SectionKey | fiasco/loader.py:40-42 | the key `build_section` stores a Section under is lower case |
| Loader.CatKey | fiasco/loader.py:44-46 | the key `build_cat` stores a Category under is lower case, and a header that does not parse fails with ValueError |
| Loader.IsCat | fiasco/loader.py:48-57 | `is_cat` holds exactly when the line starts with `##` |
| Loader.IsSection | fiasco/loader.py:59-68 | `is_section` holds exactly when the line starts with `#` and not `##`, and never together with `is_cat` |
| Loader.OpenSection | fiasco/loader.py:40-42 | opening a Section keeps the current names inside the tree |
| Loader.OpenCat | fiasco/loader.py:44-46 | opening a Category keeps the current names inside the tree |
| Loader.AddText | fiasco/loader.py:92 | appending an item keeps the current names inside the tree |
| Loader.SectionStep | fiasco/loader.py:83-86 | a section line counts one line and keeps the current names inside the tree |
| Loader.CatStep | fiasco/loader.py:87-90 | a category line counts one line and keeps the current names inside the tree |
| Loader.ItemStep | fiasco/loader.py:91-92 | an item line counts one line and keeps the current names inside the tree |
| Loader.Step | fiasco/loader.py:79-92 | one iteration of the loop counts one line and keeps the current names inside the tree |
| Loader.Run | fiasco/loader.py:78-92 | after `n` lines the line counter is `n` |
| Loader.Parse | fiasco/loader.py:70-93 | `process` returns None exactly when there are no lines |
| Loader.RunStopsAtError | fiasco/loader.py:78-93 | the first exception ends the pass: later lines do not change the outcome |
| Loader.BuildPlayset | fiasco/loader.py:37-38 | `build_playset` returns a fresh Playset named by the stripped line, with empty content |
| Loader.BuildSection | fiasco/loader.py:40-42 | `build_section` stores a fresh empty Section under the lower-cased header text, and nothing else changes |
| Loader.BuildCat | fiasco/loader.py:44-46 | `build_cat`: ValueError for a malformed header, AttributeError with no Section, otherwise a fresh empty Category under the lower-cased title; nothing changes on failure |
| Loader.StoredOpenSection | fiasco/loader.py:85 | replacing a Section's categories with none changes the mirrored content at that key only |
| Loader.AgreesOpenSection | fiasco/loader.py:85 | after `new_section`, the objects still agree with the view, and a current Category of the replaced Section is detached |
| Loader.StoredOpenCat | fiasco/loader.py:89 | a fresh Category under `key` adds an empty item list at that path only |
| Loader.AgreesOpenCat | fiasco/loader.py:89 | after `new_category`, the objects agree with the view, with the new Category current |
| Loader.StoredAddText | fiasco/loader.py:92 | appending to the Category at one path changes the content at that path only |
| Loader.StoredAddDetached | fiasco/loader.py:92 | appending to a Category stored nowhere leaves the content unchanged |
| Loader.AgreesAddText | fiasco/loader.py:92 | after `add_item`, the objects agree with the view |
| Loader.SectionLine | fiasco/loader.py:85 | `build_section` on the objects does what `OpenSection` does to the view |
| Loader.SectionOpened | fiasco/loader.py:85 | storing an empty Section under `k` empties the object structure at `k` only |
| Loader.PathsOpened | fiasco/loader.py:89 | storing a Category in one Section changes the object structure at that path only |
| Loader.ItemsOpened | fiasco/loader.py:89 | a fresh empty Category joins the items without changing the others' |
| Loader.CatOpened | fiasco/loader.py:89 | `new_category` on the objects does what `OpenCat` does to the view |
| Loader.CatLine | fiasco/loader.py:89 | `build_cat` on the objects fails as `CatKey` or `OpenCat` does, or does what `OpenCat` does to the view |
| Loader.ItemLine | fiasco/loader.py:92 | `add_item` on the objects does what `AddText` does to the view |
| Loader.MirrorsStart | fiasco/loader.py:81 | a new Playset agrees with the view that holds only its name |
| Loader.SectionBranch | fiasco/loader.py:83-86 | the section branch of the loop fails exactly when `Step` does, with the same exception; otherwise it does what `Step` does and clears `first_section` |
| Loader.CatBranch | fiasco/loader.py:87-90 | the category branch fails exactly when `Step` does, with the same exception; otherwise it does what `Step` does and clears `first_cat` |
| Loader.ItemBranch | fiasco/loader.py:91-92 | the item branch fails exactly when `Step` does, with the same exception; otherwise it does what `Step` does |
| Loader.FirstLine | fiasco/loader.py:80-82 | the first line never fails, and the fresh Playset agrees with `Run` after one line |
| Loader.NextLine | fiasco/loader.py:83-92 | one later line fails exactly when `Run` does at that line, with the same exception; otherwise the objects and flags agree with `Run` one line further, and the only Section it can add is a fresh current one |
| Loader.ProcessLines | fiasco/loader.py:78-93 | the loop over a non-empty file fails exactly when `Run` does, with the same exception; otherwise it returns a fresh tree-shaped Playset, with fresh Sections and Categories, whose name and content are those `Run` computes |
| Loader.Process | fiasco/loader.py:70-93 | `process` fails exactly when `Parse` does, with the same exception; it returns None exactly for no lines; otherwise it returns a fresh, tree-shaped Playset, with fresh Sections and Categories, whose name and content are `Parse`'s |
| Loader.MirrorsTree | fiasco/loader.py:93 | objects that agree with the view hold its content and form a tree |
| LoaderFacts.RunKeepsName | fiasco/loader.py:80-82 | the Playset name stays the stripped first line for the rest of the pass |
| LoaderFacts.SectionFlag | fiasco/loader.py:84-86 | `first_section` stays set exactly while no section header has been read, and `current_section` is None exactly then |
| LoaderFacts.CatFlag | fiasco/loader.py:88-90 | `first_cat` stays set exactly while no category header has been read, and `current_cat` is None exactly then |
| LoaderFacts.NameIsFirstLine | fiasco/loader.py:80-82 | the first line names the Playset whatever it holds, stripped and with its case kept |
| LoaderFacts.SectionPositionRule | fiasco/loader.py:84 | a section header fails exactly when it is the first one and not on line 2, and then with AssertionError |
| LoaderFacts.CatPositionRule | fiasco/loader.py:88 | a category header fails with AssertionError exactly when it is the first one and not on line 3 |
| LoaderFacts.ItemBeforeCategoryFails | fiasco/loader.py:92 | an item line before any category header fails with AttributeError |
| LoaderFacts.ItemAppends | fiasco/loader.py:92 | an item line appends its text at the current Category's path and changes no other path |
| LoaderFacts.ReopenedSectionDetaches | fiasco/loader.py:85 | reopening the current Category's Section empties it and leaves the current Category out of the tree |
| LoaderFacts.CatLineSetsCurrent | fiasco/loader.py:87-90 | a category header that passes makes its new, empty Category, stored under its key in the current Section, the current Category; the current Section stays; the tree changes only by that Category replacing any one stored under the same key |
| LoaderFacts.SectionLineOpens | fiasco/loader.py:83-86 | a section header that passes stores a new, empty Section under its key, replacing any stored there, leaves every other Section as it is and becomes the current Section |
| LoaderFacts.ItemKeepsCurrent | fiasco/loader.py:91-92 | an item line moves neither the current Section nor the current Category |
| LoaderFacts.SectionKeepsOtherCurrent | fiasco/loader.py:83-86 | a section header whose key is not that of the current Category's Section becomes the current Section and leaves the current Category as it is |
| LoaderFacts.DetachedItemIsLost | fiasco/loader.py:92 | an item for a detached Category changes nothing the returned Playset shows |
| LoaderFacts.KeysLowercase | fiasco/loader.py:40-46 | every section and category key the pass stores is lower case |
| LoaderFacts.ParsedKeysLowercase | fiasco/loader.py:40-46 | every key of a parsed Playset is lower case |
| LoaderFacts.ParseLineNeedsSpace | fiasco/loader.py:31 | `parse_line` fails with ValueError on a line with no space |
| LoaderFacts.ParseLineStripped | fiasco/loader.py:32 | the text `parse_line` returns is stripped |
| LoaderFacts.ParseLineRoundTrip | fiasco/loader.py:26-32 | `parse_line(str(n) + " " + text)` gives back `(n, text)` for stripped text, whatever whitespace (such as a line terminator) follows |
| LoaderFacts.ParseLineExample | fiasco/loader.py:27-29 | the doctest: "5 this is a test" gives (5, "this is a test") |
| LoaderFacts.SkipHeader | fiasco/loader.py:34-35 | `skip` drops exactly the header and strips what follows |
| LoaderFacts.SectionHeaderLine | fiasco/loader.py:40-42 | `# <title>` is a section header keyed by the lower-cased title, whatever line terminator follows |
| LoaderFacts.CatHeaderLine | fiasco/loader.py:44-46 | `## <ordinal> <title>` is a category header keyed by the lower-cased title alone, whatever line terminator follows |
| LoaderFacts.ItemLineReads | fiasco/loader.py:92 | an item line is no header, and `parse_line` reads back its ordinal and text, whatever line terminator follows |
| LoaderFacts.SimplePlayset | fiasco/loader.py:3-18 | the shape of the module doctest: a name, one Section, one Category and item lines, each ending in the same whitespace line terminator as iterating over a file gives them, give those items in file order under the lower-cased keys and the stripped name |
| LoaderFacts.LoaderDoctest | fiasco/loader.py:3-18 | the module doctest itself: "Test", "# RELATIONSHIPS", "## 1 Family", "1 Parent / Child" and "2 Cousins", each followed by the same line terminator (such as a newline), give the Playset "Test" with `{"relationships": {"family": ["Parent / Child", "Cousins"]}}` |
| LoaderFacts.SimpleItems | fiasco/loader.py:92 | after `n` item lines the only Category holds the first `n` texts in order |
| Generator.RingPairsShape | fiasco/generator.py:46-50 | `Circular.build` yields one pair per player: pair 0 is (last, first) and pair `i` is (player `i-1`, player `i`) |
| Generator.RingPairs | fiasco/generator.py:46-50 | the pairs of `Circular.build`, one per player; their shape is stated by `Generator.RingPairsShape` |
| Generator.RingChains | fiasco/generator.py:46-50 | the right of each pair is the left of the next, and the last pair's right is the first pair's left |
| Generator.RingSeatsEveryoneTwice | fiasco/generator.py:46-50 | the rights are the players in order, and the lefts are the players rotated, so each player is a left exactly once |
| Generator.CircularExample | fiasco/generator.py:36-41 | the doctest: Joebob, Sallybob, Jimbob give (Jimbob, Joebob), (Joebob, Sallybob), (Sallybob, Jimbob) |
| Generator.Circular.constructor | fiasco/generator.py:43-44 | the strategy keeps the players as given |
| Generator.Circular.Build | fiasco/generator.py:46-50 | the loop over `prev` yields exactly the ring pairs; no players is IndexError |
| Generator.DetailKeys | fiasco/generator.py:68-73 | the keys the constructor's loop keeps, in order; which ones is stated by `Generator.DetailKeysMembers` and `Generator.DetailKeysDistinct` |
| Generator.DetailKeysMembers | fiasco/generator.py:68-73 | a key is kept exactly when it is one of the keys and its lower case is not "relationships" |
| Generator.DetailKeysDistinct | fiasco/generator.py:68-73 | keys given once are kept at most once |
| Generator.ChoiceSections | fiasco/generator.py:68-73 | the detail keys are exactly the Playset's section keys other than the relationship one, each once |
| Generator.SimpleSectionChoiceStrategy.constructor | fiasco/generator.py:68-73 | the loop keeps the section keys in dictionary order, skipping those whose lower case is "relationships" |
| Generator.SimpleSectionChoiceStrategy.Create | fiasco/generator.py:68-73 | the strategy built from a Playset that may be None: AttributeError exactly for None, otherwise the constructor's detail keys |
| Generator.SimpleSectionChoiceStrategy.Choices | fiasco/generator.py:75-76 | `choices()` is a fresh generator over the kept keys, about to yield the first |
| Generator.Succ | fiasco/generator.py:79 | the next index stays below the number of keys |
| Generator.SuccIsMod | fiasco/generator.py:79 | `(idx + 1) % len(sections)` is that next index |
| Generator.Advance | fiasco/generator.py:77-79 | the index after `k` yields stays below the number of keys |
| Generator.AdvanceAdd | fiasco/generator.py:77-79 | `k1` steps and then `k2` steps are `k1 + k2` steps |
| Generator.AdvanceWithinRound | fiasco/generator.py:77-79 | within one round, `k` steps from `a` reach `a + k`, wrapped at most once |
| Generator.AdvanceIsMod | fiasco/generator.py:75-79 | after `k` yields from index `a`, the index is `(a + k) mod n` |
| Generator.ChoiceCursor.constructor | fiasco/generator.py:75-76 | a new generator starts at index 0, not failed |
| Generator.ChoiceCursor.Next | fiasco/generator.py:77-79 | `next` yields the key at `idx` and moves `idx` on round the list; with no keys, IndexError first and StopIteration after |
| Generator.Cycle | fiasco/generator.py:77-79 | `k` yields give `k` keys |
| Generator.CycleContinues | fiasco/generator.py:98-103 | a generator kept across calls continues its cycle: `k1` yields and then `k2` more are `k1 + k2` yields from the start |
| Generator.CyclePeriod | fiasco/generator.py:77-79 | the yielded keys repeat with the period of the number of keys |
| Generator.CycleRotates | fiasco/generator.py:77-79 | one round yields the keys rotated to the starting index, so each key exactly once |
| Generator.DrawItem | fiasco/generator.py:110-111 | a draw under `key` is KeyError for a missing Section, IndexError for one with no category, succeeds when every category has an item, and gives an item of that Section |
| Generator.JoinsAllSnoc | fiasco/generator.py:108-109 | appending a Connection that joins its pair keeps the list joined pair by pair |
| Generator.JoinsAllAt | fiasco/generator.py:105-112 | the list is joined pair by pair exactly when every position is |
| Generator.Connect | fiasco/generator.py:109-111 | a built Connection has the pair's left and right, a relationship item and a detail item; it succeeds when both Sections are drawable, and its only errors are the lookups' KeyError and IndexError |
| Generator.Setup.constructor | fiasco/generator.py:98-103 | the setup keeps the Playset and players and makes a fresh choice generator over the detail keys, at its start |
| Generator.Setup.Create | fiasco/generator.py:98-103 | `Setup(playset, characters)` for a Playset that may be None, as `process` gives for an empty file: AttributeError exactly for None, otherwise what the constructor builds |
| Generator.Setup.BuildAsWritten | fiasco/generator.py:105-112 | `build` as written always fails: IndexError with no players, leaving the generator untouched; the generator's error with no detail keys, leaving it finished; otherwise KeyError("relationships") or AttributeError after one key is consumed |
| Generator.Setup.Build | fiasco/generator.py:105-112 | `build` as intended: one Connection per ring pair in order, each joining its pair with a relationship item and an item of the next key of the cycle, which continues where the last call stopped; the error cases, with the generator untouched when there are no players and finished when there are no detail keys; success whenever the "relationships" Section and the Section of each key the cycle yields for this call have categories that all hold items |
| Generator.Setup.ConnectNext | fiasco/generator.py:107-111 | one turn: the next key is taken, and the Connection joins the pair with an item of that key's Section, without changing the Playset; it succeeds when the "relationships" Section and that key's Section are drawable |
| Generator.Setup.ConnectAll | fiasco/generator.py:106-111 | the loop: all pairs joined in order with the consecutive keys of the cycle, or the first error, with the generator finished when there are no detail keys; success when the "relationships" Section and every Section the cycle yields for these pairs are drawable |

## Left out

- `fiasco/__main__.py`: reading arguments, opening files and printing are I/O. The loader takes the file's lines as a `seq<string>`.
- `Connection.__repr__`: text rendering only. `Connection` is a datatype holding its four fields as given.
- `ConnectionStrategy`: the base class's `build` does nothing. Only the default strategies that `Setup` uses are modelled, as concrete classes: `Circular` and `SimpleSectionChoiceStrategy`.
- The doctest harnesses and the mock Playset of `generator.py`. Its keys ("Relationships", "Test1") do not match the lookups of its own doctests, and the model keeps lookups exact.
- Randomness: `random.choice` is a nondeterministic choice. The contracts promise membership, not a distribution.
- Dictionary iteration order: it is an input, the sequence `order` of section keys given to `SimpleSectionChoiceStrategy` and `Setup`.
- Python 2 strings are byte strings: whitespace and case are the ASCII ones, and there is no Unicode handling.
- Loader.ParseLine: the ordinal is accepted as an optional sign followed by decimal digits. Other spellings that `int()` may accept, such as a long suffix or whitespace after the sign, are treated as ValueError.
- Loader.ParseLine: its own contract states only the error kind. Its round trip, its examples and its failure on a line with no space are LoaderFacts lemmas.
- Loader.Skip: its own contract states only the short-line case. `LoaderFacts.SkipHeader` states the rest.
- Loader.Step: its own contract states only well-formedness and the line count. Its meaning is stated by the LoaderFacts lemmas and by the tie between `Process` and `Parse`.
- Loader.SectionStep: its own contract states only well-formedness and the line count. `LoaderFacts.SectionPositionRule` states when it fails, `LoaderFacts.SectionLineOpens` what it does to the tree and the current Section, and `LoaderFacts.ReopenedSectionDetaches` and `LoaderFacts.SectionKeepsOtherCurrent` what it does to the current Category.
- Loader.CatStep: its own contract states only well-formedness and the line count. `LoaderFacts.CatPositionRule` states when it fails, and `LoaderFacts.CatLineSetsCurrent` what it does to the tree and the current names.
- Loader.ItemStep: its own contract states only well-formedness and the line count. `LoaderFacts.ItemAppends`, `LoaderFacts.ItemBeforeCategoryFails` and `LoaderFacts.ItemKeepsCurrent` state the rest.
- Loader.OpenSection: its own contract states only well-formedness. What it does to the tree is stated by `LoaderFacts.SectionLineOpens`, what it does to the current Category by `LoaderFacts.ReopenedSectionDetaches` and `LoaderFacts.SectionKeepsOtherCurrent`, and its heap counterpart by `Loader.StoredOpenSection`.
- Loader.OpenCat: its own contract states only well-formedness. What it does to the tree and the current Category is stated by `LoaderFacts.CatLineSetsCurrent`, and its heap counterpart by `Loader.StoredOpenCat`.
- Loader.AddText: its own contract states only well-formedness. What it does to the tree is stated by `LoaderFacts.ItemAppends`, `LoaderFacts.DetachedItemIsLost` and `Loader.StoredAddText`.
- Generator.Setup.Build: after a failed item draw, the contract does not say how far the choice generator has advanced.
- Generator.Setup.Build: the source's `self.fiasco` list is never written by `build`, and the model leaves it unchanged too.
- A lazy generator that is abandoned half-way is not modelled: `Circular.build` returns all pairs at once. Its only failure, no players, surfaces at the first pair, as it does when `build` iterates the generator.

## Findings

| source | as written | input that shows it | evidently intended | confidence | as-written member | corrected member |
|---|---|---|---|---|---|---|
| fiasco/generator.py:110-111 | `build` calls `random_item()` on the Section returned by `playset["relationships"]`, but `Section` defines no `random_item`, so every call fails with AttributeError | any Setup with at least one player, at least one detail Section, and a "relationships" Section, e.g. the module's own doctest after its keys are lower-cased | draw a category of the Section and then an item of it: `random_category()`, then that Category's `random_item()`, for both the relationship and the detail | high; not executed | Generator.Setup.BuildAsWritten | Generator.Setup.Build |
