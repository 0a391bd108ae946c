/** The playset loader: one forward pass over the lines of a playset file.
    The first line names the Playset, `#` lines open Sections, `##` lines open
    Categories, and every other line is `<ordinal> <text>`, whose text is
    appended to the most recently opened Category.

    `Parse` is the pass written as a function over values, a left fold of
    `Step`; `Process` is the pass as the source runs it, building the object
    tree in place, and its postcondition ties what it builds to `Parse`. */
module Loader {
  import opened Results
  import opened Text
  import opened Model

  const SectionHeader: string := "#"
  const CatHeader: string := SectionHeader + SectionHeader

  predicate StartsWith(s: string, prefix: string) {
    |prefix| <= |s| && s[..|prefix|] == prefix
  }

  /** `parse_line`: splits at the first space into the ordinal before it and
      the stripped text after it. ValueError when there is no space or the
      part before it is not an ordinal. */
  function ParseLine(line: string): (r: Result<(int, string)>)
    ensures r.Err? ==> r.error == ValueError
  {
    match IndexOf(line, ' ')
    case Err(e) => Err(e)
    case Ok(i) =>
      match IntValue(Strip(line[..i]))
      case Err(e) => Err(e)
      case Ok(n) => Ok((n, Strip(line[i..])))
  }

  /** `skip`: drops `|header|` leading characters (all of a shorter line) and strips the rest. */
  function Skip(line: string, header: string): (r: string)
    ensures |line| <= |header| ==> r == []
  {
    if |header| <= |line| then Strip(line[|header|..]) else ""
  }

  /** `is_cat`: the line opens with two `#`. */
  function IsCat(line: string): (b: bool)
    ensures b <==> |line| >= 2 && line[0] == '#' && line[1] == '#'
  {
    StartsWith(line, CatHeader)
  }

  /** `is_section`: the line opens with one `#` not followed by another. */
  function IsSection(line: string): (b: bool)
    ensures b <==> |line| >= 1 && line[0] == '#' && (|line| == 1 || line[1] != '#')
    ensures b ==> !IsCat(line)
  {
    StartsWith(line, SectionHeader) && !IsCat(line)
  }

  /* ---------------------------------------------------------------------
     The pass over values.
     --------------------------------------------------------------------- */

  /** Where `current_cat` points: nowhere yet, to the Category stored under
      `category` in the Section stored under `section`, or to a Category
      that is no longer reachable because its Section has been replaced. */
  datatype CatRef = NoCat | InTree(section: string, category: string) | Detached

  /** What the objects of the pass hold, as a value: the Playset name, its
      content (section name to category name to items), and where
      `current_section` and `current_cat` point. */
  datatype View = View(
    name: string,
    tree: map<string, map<string, seq<string>>>,
    section: Option<string>,
    cat: CatRef)

  /** The loop variables of the pass: the view, the line counter and the two
      flags of the position rules. */
  datatype ParseState = ParseState(view: View, lineCount: nat, firstSection: bool, firstCat: bool)

  /** The finished tree: the Playset name and its content. */
  datatype PlaysetValue = PlaysetValue(name: string, sections: map<string, map<string, seq<string>>>)

  const Start: ParseState := ParseState(View("", map[], None, NoCat), 0, true, true)

  /** The current section and category name entries of the tree. */
  ghost predicate WellFormed(v: View) {
    && (v.section.Some? ==> v.section.value in v.tree)
    && (v.cat.InTree? ==> v.cat.section in v.tree && v.cat.category in v.tree[v.cat.section])
  }

  /** The key a section header is stored under. */
  function SectionKey(line: string): (k: string)
    ensures IsLowerCase(k)
  {
    LowerIsLowerCase(Skip(line, SectionHeader));
    Lower(Skip(line, SectionHeader))
  }

  /** The key a category header is stored under, once its `<ordinal> <title>` parses. */
  function CatKey(line: string): (r: Result<string>)
    ensures r.Err? ==> r.error == ValueError
    ensures r.Ok? ==> IsLowerCase(r.value)
  {
    match ParseLine(Skip(line, CatHeader))
    case Err(e) => Err(e)
    case Ok(parsed) =>
      LowerIsLowerCase(parsed.1);
      Ok(Lower(parsed.1))
  }

  /** `playset.new_section(k)`: an empty Section under `k` becomes current. A
      current Category inside the Section it replaces becomes detached. */
  function OpenSection(v: View, k: string): (r: View)
    ensures WellFormed(v) ==> WellFormed(r)
  {
    var cat := if v.cat.InTree? && v.cat.section == k then Detached else v.cat;
    v.(tree := v.tree[k := map[]], section := Some(k), cat := cat)
  }

  /** `current_section.new_category(k)`: an empty Category under `k` in the
      current Section becomes current; AttributeError when there is no Section. */
  function OpenCat(v: View, k: string): (r: Result<View>)
    requires WellFormed(v)
    ensures r.Ok? ==> WellFormed(r.value)
  {
    match v.section
    case None => Err(AttributeError)
    case Some(s) => Ok(v.(tree := v.tree[s := v.tree[s][k := []]], cat := InTree(s, k)))
  }

  /** `current_cat.add_item(text)`: a Category in the tree gets `text` at the
      end of its items; a detached one takes it out of the tree's sight. */
  function AddText(v: View, text: string): (r: View)
    requires WellFormed(v)
    ensures WellFormed(r)
  {
    if v.cat.InTree? then
      var s, c := v.cat.section, v.cat.category;
      v.(tree := v.tree[s := v.tree[s][c := v.tree[s][c] + [text]]])
    else v
  }

  /** A section header: checks the position rule, then opens the Section. */
  function SectionStep(st: ParseState, line: string): (r: Result<ParseState>)
    requires WellFormed(st.view)
    ensures r.Ok? ==> WellFormed(r.value.view) && r.value.lineCount == st.lineCount + 1
  {
    var n := st.lineCount + 1;
    if n == 2 || !st.firstSection then
      Ok(ParseState(OpenSection(st.view, SectionKey(line)), n, false, st.firstCat))
    else
      Err(AssertionError)
  }

  /** A category header: checks the position rule, parses `<ordinal> <title>`
      and opens the Category in the current Section. */
  function CatStep(st: ParseState, line: string): (r: Result<ParseState>)
    requires WellFormed(st.view)
    ensures r.Ok? ==> WellFormed(r.value.view) && r.value.lineCount == st.lineCount + 1
  {
    var n := st.lineCount + 1;
    if n == 3 || !st.firstCat then
      match CatKey(line)
      case Err(e) => Err(e)
      case Ok(k) =>
        match OpenCat(st.view, k)
        case Err(e) => Err(e)
        case Ok(v) => Ok(ParseState(v, n, st.firstSection, false))
    else
      Err(AssertionError)
  }

  /** An item line: the current Category (none is AttributeError) receives the
      text after the ordinal. */
  function ItemStep(st: ParseState, line: string): (r: Result<ParseState>)
    requires WellFormed(st.view)
    ensures r.Ok? ==> WellFormed(r.value.view) && r.value.lineCount == st.lineCount + 1
  {
    if st.view.cat.NoCat? then
      Err(AttributeError)
    else
      match ParseLine(line)
      case Err(e) => Err(e)
      case Ok(parsed) => Ok(st.(view := AddText(st.view, parsed.1), lineCount := st.lineCount + 1))
  }

  /** One iteration of the pass over `line`: the first line names the
      Playset whatever it holds; later lines are classified by prefix. */
  function Step(st: ParseState, line: string): (r: Result<ParseState>)
    requires WellFormed(st.view)
    ensures r.Ok? ==> WellFormed(r.value.view) && r.value.lineCount == st.lineCount + 1
  {
    if st.lineCount == 0 then Ok(st.(view := st.view.(name := Strip(line)), lineCount := 1))
    else if IsSection(line) then SectionStep(st, line)
    else if IsCat(line) then CatStep(st, line)
    else ItemStep(st, line)
  }

  /** The pass over the first `n` of `lines`, one `Step` per line, stopping
      at the first error. */
  function Run(lines: seq<string>, n: nat): (r: Result<ParseState>)
    requires n <= |lines|
    ensures r.Ok? ==> WellFormed(r.value.view) && r.value.lineCount == n
  {
    if n == 0 then Ok(Start)
    else
      match Run(lines, n - 1)
      case Err(e) => Err(e)
      case Ok(st) => Step(st, lines[n - 1])
  }

  /** What `process` returns: nothing for no lines, else the Playset built. */
  function Parse(lines: seq<string>): (r: Result<Option<PlaysetValue>>)
    ensures r == Ok(None) <==> lines == []
  {
    match Run(lines, |lines|)
    case Err(e) => Err(e)
    case Ok(st) => if st.lineCount == 0 then Ok(None) else Ok(Some(PlaysetValue(st.view.name, st.view.tree)))
  }

  /** Once the pass fails on a prefix of the lines, it fails the same way on all of them. */
  lemma {:induction false} RunStopsAtError(lines: seq<string>, i: nat, n: nat)
    requires i <= n <= |lines| && Run(lines, i).Err?
    ensures Run(lines, n) == Run(lines, i)
    decreases n
  {
    if i < n {
      RunStopsAtError(lines, i, n - 1);
    }
  }

  /* ---------------------------------------------------------------------
     The pass over objects, as the source runs it.
     --------------------------------------------------------------------- */

  /** `build_playset`: a new Playset named by the stripped line. */
  method BuildPlayset(line: string) returns (p: Playset)
    ensures fresh(p) && p.name == Strip(line) && p.sections == map[]
    ensures p.Valid() && p.Tree() == map[]
  {
    p := new Playset(Strip(line));
  }

  /** `build_section`: a fresh Section under the lower-cased header text. */
  method BuildSection(p: Playset, line: string) returns (s: Section)
    modifies p
    ensures fresh(s) && s.name == SectionKey(line) && s.categories == map[]
    ensures p.sections == old(p.sections)[SectionKey(line) := s]
  {
    var title := Skip(line, SectionHeader);
    s := p.NewSection(Lower(title));
  }

  /** `build_cat`: the header after `##` is itself `<ordinal> <title>`; a fresh
      Category goes under the lower-cased title. ValueError when the header
      does not parse; AttributeError when there is no Section yet. */
  method BuildCat(section: Section?, line: string) returns (r: Result<Category>)
    modifies section
    ensures CatKey(line).Err? ==> r == Err(CatKey(line).error)
    ensures CatKey(line).Ok? && section == null ==> r == Err(AttributeError)
    ensures CatKey(line).Ok? && section != null ==>
      && r.Ok? && fresh(r.value) && r.value.name == CatKey(line).value && r.value.items == []
      && section.categories == old(section.categories)[CatKey(line).value := r.value]
    ensures r.Err? && section != null ==> unchanged(section)
  {
    var parsed := ParseLine(Skip(line, CatHeader));
    if parsed.Err? {
      return Err(parsed.error);
    }
    if section == null {
      return Err(AttributeError);
    }
    var c := section.NewCategory(Lower(parsed.value.1));
    r := Ok(c);
  }

  /** The object structure of a Playset: section name to category name to Category. */
  ghost function Paths(p: Playset): map<string, map<string, Category>>
    reads p, p.sections.Values
  {
    map k | k in p.sections :: p.sections[k].categories
  }

  /** The items each Category in `cats` holds. */
  ghost function ItemsIn(cats: set<Category>): map<Category, seq<string>>
    reads cats
  {
    map c | c in cats :: c.items
  }

  /** No Section object is stored under two names. */
  ghost predicate Distinct(sections: map<string, Section>) {
    forall k1, k2 | k1 in sections && k2 in sections && k1 != k2 :: sections[k1] != sections[k2]
  }

  /** An object structure and the items of its Categories hold `tree`: the
      same section and category names, each Category named by its key, none
      stored at two paths, and the items `tree` records at each path. */
  ghost predicate Stored(paths: map<string, map<string, Category>>, items: map<Category, seq<string>>,
                         tree: map<string, map<string, seq<string>>>)
  {
    && paths.Keys == tree.Keys
    && (forall k | k in paths :: paths[k].Keys == tree[k].Keys && paths[k].Values <= items.Keys)
    && (forall k, j | k in paths && j in paths[k] :: paths[k][j].name == j && items[paths[k][j]] == tree[k][j])
    && (forall k, j1, j2 | k in paths && j1 in paths[k] && j2 in paths[k] && j1 != j2 :: paths[k][j1] != paths[k][j2])
    && (forall k1, k2 | k1 in paths && k2 in paths && k1 != k2 :: paths[k1].Values !! paths[k2].Values)
  }

  /** An object structure and the items of its Categories agree with the view:
      they hold its tree, and `cat` is the Category at the view's current
      path, or one at no path. */
  ghost predicate Agrees(paths: map<string, map<string, Category>>, items: map<Category, seq<string>>,
                         cat: Category?, v: View)
  {
    && Stored(paths, items, v.tree)
    && (cat == null <==> v.cat.NoCat?)
    && (cat != null ==> cat in items)
    && (v.cat.InTree? ==>
          && v.cat.section in paths
          && v.cat.category in paths[v.cat.section]
          && paths[v.cat.section][v.cat.category] == cat)
    && (v.cat.Detached? ==> forall k | k in paths :: cat !in paths[k].Values)
  }

  /** The objects the pass holds agree with the view: the Playset's name,
      `current_section` the Section stored under the current key, and the
      object structure with the items of `cats` as `Agrees` says. */
  ghost predicate Mirrors(p: Playset, sec: Section?, cat: Category?, v: View, cats: set<Category>)
    reads p, p.sections.Values, cats
  {
    && p.name == v.name
    && Distinct(p.sections)
    && (forall k | k in p.sections :: p.sections[k].name == k)
    && (sec == null <==> v.section.None?)
    && (v.section.Some? ==> v.section.value in p.sections && p.sections[v.section.value] == sec)
    && Agrees(Paths(p), ItemsIn(cats), cat, v)
  }

  /** Replacing the categories under `k` with none empties the tree at `k` only. */
  lemma StoredOpenSection(paths: map<string, map<string, Category>>, items: map<Category, seq<string>>,
                          tree: map<string, map<string, seq<string>>>, k: string)
    requires Stored(paths, items, tree)
    ensures Stored(paths[k := map[]], items, tree[k := map[]])
  {
    var next: map<string, map<string, Category>> := paths[k := map[]];
    var t: map<string, map<string, seq<string>>> := tree[k := map[]];
    forall k1, j | k1 in next && j in next[k1] ensures next[k1][j].name == j && items[next[k1][j]] == t[k1][j] {
      assert k1 != k && next[k1][j] == paths[k1][j];
    }
    forall k1, k2 | k1 in next && k2 in next && k1 != k2 ensures next[k1].Values !! next[k2].Values {
      if k1 != k && k2 != k {
        assert next[k1] == paths[k1] && next[k2] == paths[k2];
      }
    }
  }

  /** Opening a Section replaces the categories under its key with none. */
  lemma AgreesOpenSection(paths: map<string, map<string, Category>>, items: map<Category, seq<string>>,
                          cat: Category?, v: View, k: string)
    requires WellFormed(v) && Agrees(paths, items, cat, v)
    ensures Agrees(paths[k := map[]], items, cat, OpenSection(v, k))
  {
    StoredOpenSection(paths, items, v.tree, k);
    var next: map<string, map<string, Category>> := paths[k := map[]];
    if v.cat.InTree? && v.cat.section == k {
      assert cat in paths[k].Values;
      forall k1 | k1 in next ensures cat !in next[k1].Values {
        if k1 != k {
          assert next[k1] == paths[k1];
        }
      }
    } else if v.cat.Detached? {
      forall k1 | k1 in next ensures cat !in next[k1].Values {
        if k1 != k {
          assert next[k1] == paths[k1];
        }
      }
    }
  }

  /** Storing a fresh Category `c` under `key` in Section `sk` adds an empty
      item list at that path only. */
  lemma StoredOpenCat(paths: map<string, map<string, Category>>, items: map<Category, seq<string>>,
                      tree: map<string, map<string, seq<string>>>, sk: string, key: string, c: Category)
    requires Stored(paths, items, tree) && sk in paths && c !in items && c.name == key
    ensures Stored(paths[sk := paths[sk][key := c]], items[c := []], tree[sk := tree[sk][key := []]])
  {
    var next, items', t := paths[sk := paths[sk][key := c]], items[c := []], tree[sk := tree[sk][key := []]];
    forall k | k in next ensures next[k].Keys == t[k].Keys && next[k].Values <= items'.Keys {
      if k == sk {
        forall x | x in next[sk].Values ensures x in items'.Keys {
          if x != c {
            var j :| j in next[sk] && next[sk][j] == x;
            assert x in paths[sk].Values;
          }
        }
      }
    }
    forall k, j | k in next && j in next[k] ensures next[k][j].name == j && items'[next[k][j]] == t[k][j] {
      if !(k == sk && j == key) {
        assert next[k][j] == paths[k][j] && paths[k][j] in paths[k].Values;
      }
    }
    forall k, j1, j2 | k in next && j1 in next[k] && j2 in next[k] && j1 != j2 ensures next[k][j1] != next[k][j2] {
      if k == sk && (j1 == key || j2 == key) {
        var j := if j1 == key then j2 else j1;
        assert paths[sk][j] in paths[sk].Values;
      }
    }
    forall k1, k2 | k1 in next && k2 in next && k1 != k2 ensures next[k1].Values !! next[k2].Values {
      if k1 == sk || k2 == sk {
        var other := if k1 == sk then k2 else k1;
        forall x | x in next[sk].Values ensures x !in next[other].Values {
          if x != c {
            var j :| j in next[sk] && next[sk][j] == x;
            assert j in paths[sk] && paths[sk][j] == x;
          } else {
            assert next[other].Values <= items.Keys;
          }
        }
      }
    }
  }

  /** Opening a Category under `key` in Section `sk` stores a fresh Category `c` there. */
  lemma AgreesOpenCat(paths: map<string, map<string, Category>>, items: map<Category, seq<string>>,
                      cat: Category?, v: View, sk: string, key: string, c: Category)
    requires WellFormed(v) && Agrees(paths, items, cat, v)
    requires v.section == Some(sk) && c !in items && c.name == key
    ensures OpenCat(v, key).Ok?
    ensures Agrees(paths[sk := paths[sk][key := c]], items[c := []], c, OpenCat(v, key).value)
  {
    StoredOpenCat(paths, items, v.tree, sk, key, c);
    assert OpenCat(v, key).value.tree == v.tree[sk := v.tree[sk][key := []]];
  }

  /** Appending `text` to the items of the Category at path (`s`, `j`)
      changes the tree at that path only. */
  lemma StoredAddText(paths: map<string, map<string, Category>>, items: map<Category, seq<string>>,
                      tree: map<string, map<string, seq<string>>>, s: string, j: string, text: string)
    requires Stored(paths, items, tree) && s in paths && j in paths[s]
    ensures var c := paths[s][j];
      Stored(paths, items[c := items[c] + [text]], tree[s := tree[s][j := tree[s][j] + [text]]])
  {
    var c := paths[s][j];
    assert c in paths[s].Values;
    forall k, j' | k in paths && j' in paths[k] && !(k == s && j' == j) ensures paths[k][j'] != c {
      assert paths[k][j'] in paths[k].Values;
    }
  }

  /** Appending `text` to the items of a Category stored at no path leaves the tree as it is. */
  lemma StoredAddDetached(paths: map<string, map<string, Category>>, items: map<Category, seq<string>>,
                          tree: map<string, map<string, seq<string>>>, c: Category, text: string)
    requires Stored(paths, items, tree) && c in items && forall k | k in paths :: c !in paths[k].Values
    ensures Stored(paths, items[c := items[c] + [text]], tree)
  {
    forall k, j | k in paths && j in paths[k] ensures paths[k][j] != c {
      assert paths[k][j] in paths[k].Values;
    }
  }

  /** Appending `text` to the current Category changes the items at its path
      and nowhere else. */
  lemma AgreesAddText(paths: map<string, map<string, Category>>, items: map<Category, seq<string>>,
                      cat: Category, v: View, text: string)
    requires WellFormed(v) && Agrees(paths, items, cat, v)
    ensures Agrees(paths, items[cat := items[cat] + [text]], cat, AddText(v, text))
  {
    if v.cat.InTree? {
      StoredAddText(paths, items, v.tree, v.cat.section, v.cat.category, text);
    } else {
      StoredAddDetached(paths, items, v.tree, cat, text);
    }
  }

  /** The section-header branch of `process`, once the position rule has passed. */
  method SectionLine(p: Playset, line: string, ghost sec: Section?, ghost cat: Category?, ghost v: View,
                     ghost cats: set<Category>)
    returns (s: Section)
    requires WellFormed(v) && Mirrors(p, sec, cat, v, cats)
    modifies p
    ensures fresh(s) && p.sections.Values <= old(p.sections.Values) + {s}
    ensures Mirrors(p, s, cat, OpenSection(v, SectionKey(line)), cats)
  {
    ghost var k := SectionKey(line);
    ghost var items := ItemsIn(cats);
    AgreesOpenSection(Paths(p), items, cat, v, k);
    s := BuildSection(p, line);
    SectionOpened(p, k, s);
    assert ItemsIn(cats) == items;
  }

  /** Storing an empty Section under `k` empties the object structure at `k` only. */
  twostate lemma SectionOpened(new p: Playset, new k: string, new s: Section)
    requires old(allocated(p))
    requires p.sections == old(p.sections)[k := s] && s.categories == map[]
    requires forall x | x in old(p.sections.Values) :: unchanged(x)
    ensures Paths(p) == old(Paths(p))[k := map[]]
  {
    forall j | j in p.sections && j != k ensures p.sections[j].categories == old(Paths(p))[j] {
      assert old(p.sections[j]) in old(p.sections.Values);
    }
  }

  /** Storing `c` under `key` in the Section stored under `sk` changes the
      object structure at that path only. */
  twostate lemma PathsOpened(new p: Playset, new sec: Section, new sk: string, new key: string, new c: Category)
    requires old(allocated(p) && allocated(sec))
    requires unchanged(p) && (forall s | s in p.sections.Values && s != sec :: unchanged(s))
    requires sk in p.sections && p.sections[sk] == sec && Distinct(p.sections)
    requires sec.categories == old(sec.categories)[key := c]
    ensures Paths(p) == old(Paths(p))[sk := old(Paths(p))[sk][key := c]]
  {
    var paths := old(Paths(p));
    forall k | k in p.sections && k != sk ensures p.sections[k].categories == paths[k] {
      assert p.sections[k] != sec && p.sections[k] in p.sections.Values;
      assert paths[k] == old(p.sections[k].categories);
    }
  }

  /** A fresh empty Category joins the items without changing those of the others. */
  twostate lemma ItemsOpened(new cats: set<Category>, new c: Category)
    requires old(allocated(cats))
    requires (forall x | x in cats :: unchanged(x)) && c.items == []
    ensures ItemsIn(cats + {c}) == old(ItemsIn(cats))[c := []]
  {
    forall x | x in cats ensures x.items == old(x.items) {
    }
  }

  /** What `new_category` does to the objects: a fresh empty Category under
      `key` in the current Section, and nothing else changed. */
  twostate lemma CatOpened(new p: Playset, new sec: Section, new cat: Category?, new v: View,
                           new cats: set<Category>, new key: string, new c: Category)
    requires old(allocated(p) && allocated(sec) && allocated(cat) && allocated(cats))
    requires WellFormed(v) && old(Mirrors(p, sec, cat, v, cats)) && v.section.Some?
    requires unchanged(p) && (forall s | s in p.sections.Values && s != sec :: unchanged(s))
    requires forall x | x in cats :: unchanged(x)
    requires sec.categories == old(sec.categories)[key := c] && c.items == [] && c.name == key && c !in cats
    ensures Mirrors(p, sec, c, OpenCat(v, key).value, cats + {c})
  {
    var sk := v.section.value;
    AgreesOpenCat(old(Paths(p)), old(ItemsIn(cats)), cat, v, sk, key, c);
    PathsOpened(p, sec, sk, key, c);
    ItemsOpened(cats, c);
  }

  /** The category-header branch of `process`, once the position rule has passed. */
  method CatLine(p: Playset, sec: Section?, line: string, ghost cat: Category?, ghost v: View,
                 ghost cats: set<Category>)
    returns (r: Result<Category>)
    requires WellFormed(v) && Mirrors(p, sec, cat, v, cats)
    modifies sec
    ensures CatKey(line).Err? ==> r == Err(CatKey(line).error)
    ensures CatKey(line).Ok? && v.section.None? ==> r == Err(AttributeError)
    ensures CatKey(line).Ok? && v.section.Some? ==>
      r.Ok? && fresh(r.value) && Mirrors(p, sec, r.value, OpenCat(v, CatKey(line).value).value, cats + {r.value})
  {
    r := BuildCat(sec, line);
    if r.Ok? {
      CatOpened(p, sec, cat, v, cats, CatKey(line).value, r.value);
    }
  }

  /** The item-line branch of `process`, once the line has parsed:
      `current_cat.add_item(text)`. */
  method ItemLine(p: Playset, cat: Category, text: string, ghost sec: Section?, ghost v: View,
                  ghost cats: set<Category>)
    requires WellFormed(v) && Mirrors(p, sec, cat, v, cats)
    modifies cat
    ensures Mirrors(p, sec, cat, AddText(v, text), cats)
  {
    ghost var items := ItemsIn(cats);
    ghost var paths := Paths(p);
    AgreesAddText(paths, items, cat, v, text);
    var _ := cat.AddItem(text);
    assert p.sections == old(p.sections);
    assert Paths(p) == paths;
    assert ItemsIn(cats) == items[cat := items[cat] + [text]];
  }

  /** A Playset with no Section agrees with the view that only has its name. */
  lemma MirrorsStart(p: Playset)
    requires p.sections == map[]
    ensures Mirrors(p, null, null, View(p.name, map[], None, NoCat), {})
  {
    assert Paths(p) == map[];
    assert ItemsIn({}) == map[];
  }

  /** A section line after the first: `assert linecount == 2 or not
      first_section`, then `build_section`. */
  method SectionBranch(p: Playset, line: string, linecount: nat, firstSection: bool,
                       ghost sec: Section?, ghost cat: Category?, ghost st: ParseState, ghost cats: set<Category>)
    returns (r: Result<Section>)
    requires st.lineCount > 0 && IsSection(line)
    requires linecount == st.lineCount + 1 && firstSection == st.firstSection
    requires WellFormed(st.view) && Mirrors(p, sec, cat, st.view, cats)
    modifies p
    ensures r.Err? <==> Step(st, line).Err?
    ensures r.Err? ==> r.error == Step(st, line).error
    ensures r.Ok? ==>
      && fresh(r.value) && p.sections.Values <= old(p.sections.Values) + {r.value}
      && !Step(st, line).value.firstSection && Step(st, line).value.firstCat == st.firstCat
      && Mirrors(p, r.value, cat, Step(st, line).value.view, cats)
  {
    if !(linecount == 2 || !firstSection) {
      return Err(AssertionError);
    }
    var s := SectionLine(p, line, sec, cat, st.view, cats);
    r := Ok(s);
  }

  /** A category line: `assert linecount == 3 or not first_cat`, then `build_cat`. */
  method CatBranch(p: Playset, sec: Section?, line: string, linecount: nat, firstCat: bool,
                   ghost cat: Category?, ghost st: ParseState, ghost cats: set<Category>)
    returns (r: Result<Category>)
    requires st.lineCount > 0 && !IsSection(line) && IsCat(line)
    requires linecount == st.lineCount + 1 && firstCat == st.firstCat
    requires WellFormed(st.view) && Mirrors(p, sec, cat, st.view, cats)
    modifies sec
    ensures r.Err? <==> Step(st, line).Err?
    ensures r.Err? ==> r.error == Step(st, line).error
    ensures r.Ok? ==>
      && fresh(r.value)
      && !Step(st, line).value.firstCat && Step(st, line).value.firstSection == st.firstSection
      && Mirrors(p, sec, r.value, Step(st, line).value.view, cats + {r.value})
  {
    if !(linecount == 3 || !firstCat) {
      return Err(AssertionError);
    }
    r := CatLine(p, sec, line, cat, st.view, cats);
  }

  /** Any other line: `current_cat.add_item(parse_line(line)[1])`. */
  method ItemBranch(p: Playset, cat: Category?, line: string,
                    ghost sec: Section?, ghost st: ParseState, ghost cats: set<Category>)
    returns (r: Result<()>)
    requires st.lineCount > 0 && !IsSection(line) && !IsCat(line)
    requires WellFormed(st.view) && Mirrors(p, sec, cat, st.view, cats)
    modifies cat
    ensures r.Err? <==> Step(st, line).Err?
    ensures r.Err? ==> r.error == Step(st, line).error
    ensures r.Ok? ==>
      && Step(st, line).value.firstSection == st.firstSection && Step(st, line).value.firstCat == st.firstCat
      && Mirrors(p, sec, cat, Step(st, line).value.view, cats)
  {
    if cat == null {
      return Err(AttributeError);
    }
    var parsed := ParseLine(line);
    if parsed.Err? {
      return Err(parsed.error);
    }
    ItemLine(p, cat, parsed.value.1, sec, st.view, cats);
    r := Ok(());
  }

  /** The iteration of `process` that sees `first_line`: the first line names the Playset. */
  method FirstLine(lines: seq<string>) returns (p: Playset)
    requires |lines| > 0
    ensures Run(lines, 1).Ok? && fresh(p) && p.sections == map[] && Mirrors(p, null, null, Run(lines, 1).value.view, {})
  {
    p := BuildPlayset(lines[0]);
    MirrorsStart(p);
  }

  /** The loop variables of `process` that the lines after the first update:
      `current_section`, `current_cat`, `first_section` and `first_cat`. */
  datatype Cursor = Cursor(section: Section?, cat: Category?, firstSection: bool, firstCat: bool)

  /** After line `i - 1`: the pass has not failed, the loop variables hold
      what `Run` records, and the objects mirror its view. */
  ghost predicate Reached(p: Playset, cur: Cursor, lines: seq<string>, i: nat, cats: set<Category>)
    reads p, p.sections.Values, cats
  {
    && i <= |lines| && Run(lines, i).Ok?
    && cur.firstSection == Run(lines, i).value.firstSection
    && cur.firstCat == Run(lines, i).value.firstCat
    && Mirrors(p, cur.section, cur.cat, Run(lines, i).value.view, cats)
  }

  /** Line `i` of `lines`, after the first, dispatched on its prefix as `process` does. */
  method NextLine(p: Playset, cur: Cursor, lines: seq<string>, i: nat, linecount: nat, ghost cats: set<Category>)
    returns (r: Result<Cursor>, ghost cats': set<Category>)
    requires 0 < i < |lines| && linecount == i + 1 && Reached(p, cur, lines, i, cats)
    modifies p, cur.section, cur.cat
    ensures r.Err? <==> Run(lines, i + 1).Err?
    ensures r.Err? ==> r.error == Run(lines, i + 1).error
    ensures r.Ok? ==>
      && Reached(p, r.value, lines, i + 1, cats')
      && (r.value.section == cur.section || fresh(r.value.section))
      && (cats' == cats || (r.value.cat != null && fresh(r.value.cat) && cats' == cats + {r.value.cat}))
      && p.sections.Values <= old(p.sections.Values) + {r.value.section}
  {
    ghost var st := Run(lines, i).value;
    var line := lines[i];
    cats' := cats;
    if IsSection(line) {
      var s := SectionBranch(p, line, linecount, cur.firstSection, cur.section, cur.cat, st, cats);
      if s.Err? {
        return Err(s.error), cats';
      }
      r := Ok(cur.(section := s.value, firstSection := false));
    } else if IsCat(line) {
      var c := CatBranch(p, cur.section, line, linecount, cur.firstCat, cur.cat, st, cats);
      if c.Err? {
        return Err(c.error), cats';
      }
      cats' := cats + {c.value};
      r := Ok(cur.(cat := c.value, firstCat := false));
    } else {
      var added := ItemBranch(p, cur.cat, line, cur.section, st, cats);
      if added.Err? {
        return Err(added.error), cats';
      }
      r := Ok(cur);
    }
  }

  /** The loop of `process` over a non-empty list of lines: the Playset it
      builds fails exactly when `Run` does and otherwise holds what `Run` computes. */
  method ProcessLines(lines: seq<string>) returns (r: Result<Playset>)
    requires |lines| > 0
    ensures r.Err? <==> Run(lines, |lines|).Err?
    ensures r.Err? ==> r.error == Run(lines, |lines|).error
    ensures r.Ok? ==>
      && fresh(r.value) && fresh(r.value.sections.Values) && fresh(r.value.Cats()) && r.value.Valid()
      && r.value.name == Run(lines, |lines|).value.view.name
      && r.value.Tree() == Run(lines, |lines|).value.view.tree
  {
    var playset := FirstLine(lines);
    var linecount := 1;
    var cur := Cursor(null, null, true, true);
    ghost var cats: set<Category> := {};
    for i := 1 to |lines|
      invariant linecount == i
      invariant fresh(cats) && (cur.cat != null ==> cur.cat in cats)
      invariant cur.section != null ==> fresh(cur.section)
      invariant fresh(playset.sections.Values)
      invariant Reached(playset, cur, lines, i, cats)
    {
      linecount := linecount + 1;
      var next, cats' := NextLine(playset, cur, lines, i, linecount, cats);
      if next.Err? {
        RunStopsAtError(lines, i + 1, |lines|);
        return Err(next.error);
      }
      cur := next.value;
      cats := cats';
    }
    ghost var st := Run(lines, |lines|).value;
    MirrorsTree(playset, cur.section, cur.cat, st.view, cats);
    r := Ok(playset);
  }

  /** `process`: the pass over `lines`, building the tree in place. Returns
      null for no lines. The Playset it returns is freshly allocated, is a
      tree, and holds exactly what `Parse` computes; it fails exactly when
      `Parse` does, with the same exception. */
  method Process(lines: seq<string>) returns (r: Result<Playset?>)
    ensures r.Err? <==> Parse(lines).Err?
    ensures r.Err? ==> r.error == Parse(lines).error
    ensures r.Ok? ==> (r.value == null <==> Parse(lines).value.None?)
    ensures r.Ok? && r.value != null ==>
      && fresh(r.value) && fresh(r.value.sections.Values) && fresh(r.value.Cats())
      && r.value.Valid()
      && Parse(lines).value == Some(PlaysetValue(r.value.name, r.value.Tree()))
  {
    if |lines| == 0 {
      return Ok(null);
    }
    var built := ProcessLines(lines);
    if built.Err? {
      return Err(built.error);
    }
    r := Ok(built.value);
  }

  /** Agreement path by path gives agreement of the whole content, and a tree. */
  lemma MirrorsTree(p: Playset, sec: Section?, cat: Category?, v: View, cats: set<Category>)
    requires Mirrors(p, sec, cat, v, cats)
    ensures p.Tree() == v.tree
    ensures p.Cats() <= cats
    ensures p.Valid()
  {
    var paths := Paths(p);
    forall k | k in p.sections ensures p.sections[k].Items() == v.tree[k] {
      assert p.sections[k].categories == paths[k];
    }
    forall c | c in p.Cats() ensures c in cats {
      var k :| k in p.sections && c in p.sections[k].categories.Values;
      assert p.sections[k].categories == paths[k];
    }
    forall k | k in p.sections ensures p.sections[k].Valid() {
      assert p.sections[k].categories == paths[k];
    }
    forall k1, k2 | k1 in p.sections && k2 in p.sections && k1 != k2
      ensures p.sections[k1].categories.Values !! p.sections[k2].categories.Values
    {
      assert p.sections[k1].categories == paths[k1] && p.sections[k2].categories == paths[k2];
    }
  }
}
