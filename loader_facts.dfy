/** What the loader promises, stated over `Run` and `Parse`, the pass written
    as a function: the first line names the Playset, the position rules of
    the first section and category headers, items before any category, the
    lower-cased keys, and the string helpers `parse_line` and `skip`. */
module LoaderFacts {
  import opened Results
  import opened Text
  import opened Loader

  /** No line after the first, before line index `n`, is a section header. */
  ghost predicate NoSectionBefore(lines: seq<string>, n: nat)
    requires n <= |lines|
  {
    forall j | 1 <= j < n :: !IsSection(lines[j])
  }

  /** No line after the first, before line index `n`, is a category header. */
  ghost predicate NoCatBefore(lines: seq<string>, n: nat)
    requires n <= |lines|
  {
    forall j | 1 <= j < n :: !IsCat(lines[j])
  }

  /** Every section and category key in `tree` is lower case. */
  ghost predicate LowerKeys(tree: map<string, map<string, seq<string>>>) {
    forall k | k in tree :: IsLowerCase(k) && forall j | j in tree[k] :: IsLowerCase(j)
  }

  /** After any number of lines the Playset name is still the stripped first line. */
  lemma {:induction false} RunKeepsName(lines: seq<string>, n: nat)
    requires 1 <= n <= |lines| && Run(lines, n).Ok?
    ensures Run(lines, n).value.view.name == Strip(lines[0])
    decreases n
  {
    if n > 1 {
      RunKeepsName(lines, n - 1);
      assert Run(lines, n) == Step(Run(lines, n - 1).value, lines[n - 1]);
    }
  }

  /** `first_section` stays set exactly while no section header has been
      seen, and `current_section` is None exactly while it is set. */
  lemma {:induction false} SectionFlag(lines: seq<string>, n: nat)
    requires 1 <= n <= |lines| && Run(lines, n).Ok?
    ensures var st := Run(lines, n).value;
      && (st.firstSection <==> NoSectionBefore(lines, n))
      && (st.view.section.None? <==> st.firstSection)
    decreases n
  {
    if n > 1 {
      SectionFlag(lines, n - 1);
      assert Run(lines, n) == Step(Run(lines, n - 1).value, lines[n - 1]);
      assert NoSectionBefore(lines, n) <==> NoSectionBefore(lines, n - 1) && !IsSection(lines[n - 1]);
    }
  }

  /** `first_cat` stays set exactly while no category header has been seen,
      and `current_cat` is None exactly while it is set. */
  lemma {:induction false} CatFlag(lines: seq<string>, n: nat)
    requires 1 <= n <= |lines| && Run(lines, n).Ok?
    ensures var st := Run(lines, n).value;
      && (st.firstCat <==> NoCatBefore(lines, n))
      && (st.view.cat.NoCat? <==> st.firstCat)
    decreases n
  {
    if n > 1 {
      CatFlag(lines, n - 1);
      assert Run(lines, n) == Step(Run(lines, n - 1).value, lines[n - 1]);
      assert NoCatBefore(lines, n) <==> NoCatBefore(lines, n - 1) && !IsCat(lines[n - 1]);
    }
  }

  /** The first line names the Playset whatever it holds, even a header:
      the pass never fails on it, and the name is that line stripped, with
      its case kept. */
  lemma NameIsFirstLine(lines: seq<string>)
    requires |lines| > 0
    ensures Run(lines, 1).Ok?
    ensures Parse(lines).Ok? ==> Parse(lines).value.Some? && Parse(lines).value.value.name == Strip(lines[0])
  {
    assert Run(lines, 1) == Step(Start, lines[0]);
    if Parse(lines).Ok? {
      RunKeepsName(lines, |lines|);
    }
  }

  /** A section header on line index `i` (line `i + 1`) fails exactly when it
      is the first one and not on line 2, and then with AssertionError. */
  lemma SectionPositionRule(lines: seq<string>, i: nat)
    requires 1 <= i < |lines| && Run(lines, i).Ok? && IsSection(lines[i])
    ensures Run(lines, i + 1).Err? <==> i != 1 && NoSectionBefore(lines, i)
    ensures Run(lines, i + 1).Err? ==> Run(lines, i + 1).error == AssertionError
  {
    SectionFlag(lines, i);
    assert Run(lines, i + 1) == Step(Run(lines, i).value, lines[i]);
  }

  /** A category header on line index `i` fails with AssertionError exactly
      when it is the first one and not on line 3; any other failure of it is
      a malformed header or a missing Section. */
  lemma CatPositionRule(lines: seq<string>, i: nat)
    requires 1 <= i < |lines| && Run(lines, i).Ok? && IsCat(lines[i])
    ensures Run(lines, i + 1) == Err(AssertionError) <==> i != 2 && NoCatBefore(lines, i)
  {
    CatFlag(lines, i);
    assert Run(lines, i + 1) == Step(Run(lines, i).value, lines[i]);
  }

  /** An item line with no category header before it fails with
      AttributeError: `current_cat` is still None. */
  lemma ItemBeforeCategoryFails(lines: seq<string>, i: nat)
    requires 1 <= i < |lines| && Run(lines, i).Ok?
    requires !IsSection(lines[i]) && !IsCat(lines[i]) && NoCatBefore(lines, i)
    ensures Run(lines, i + 1) == Err(AttributeError)
  {
    CatFlag(lines, i);
    assert Run(lines, i + 1) == Step(Run(lines, i).value, lines[i]);
  }

  /** An item line appends its text, in input order, to the items at the
      current Category's path, and changes no other path. */
  lemma ItemAppends(lines: seq<string>, i: nat, s: string, c: string)
    requires 1 <= i < |lines| && Run(lines, i).Ok? && Run(lines, i).value.view.cat == InTree(s, c)
    requires !IsSection(lines[i]) && !IsCat(lines[i]) && ParseLine(lines[i]).Ok?
    ensures Run(lines, i + 1).Ok?
    ensures var before, after := Run(lines, i).value.view.tree, Run(lines, i + 1).value.view.tree;
      && after.Keys == before.Keys && after[s].Keys == before[s].Keys
      && after[s][c] == before[s][c] + [ParseLine(lines[i]).value.1]
      && (forall k, j | k in before && j in before[k] && (k, j) != (s, c) :: after[k][j] == before[k][j])
  {
    assert Run(lines, i + 1) == Step(Run(lines, i).value, lines[i]);
  }

  /** A section header whose key is that of the current Category's Section
      replaces that Section with an empty one: the current Category stays
      current but is no longer in the tree. */
  lemma ReopenedSectionDetaches(lines: seq<string>, i: nat)
    requires 1 <= i < |lines| && Run(lines, i).Ok? && IsSection(lines[i]) && Run(lines, i + 1).Ok?
    requires Run(lines, i).value.view.cat.InTree? && Run(lines, i).value.view.cat.section == SectionKey(lines[i])
    ensures Run(lines, i + 1).value.view.cat == Detached
    ensures Run(lines, i + 1).value.view.tree[SectionKey(lines[i])] == map[]
  {
    assert Run(lines, i + 1) == Step(Run(lines, i).value, lines[i]);
  }

  /** An item line for a detached Category changes nothing that the
      returned Playset shows. */
  lemma DetachedItemIsLost(lines: seq<string>, i: nat)
    requires 1 <= i < |lines| && Run(lines, i).Ok? && Run(lines, i).value.view.cat.Detached?
    requires !IsSection(lines[i]) && !IsCat(lines[i]) && ParseLine(lines[i]).Ok?
    ensures Run(lines, i + 1) == Ok(Run(lines, i).value.(lineCount := i + 1))
  {
    assert Run(lines, i + 1) == Step(Run(lines, i).value, lines[i]);
  }

  /** A category header that passes makes its Category, empty and stored
      under its key in the current Section, the current Category; the
      current Section stays. */
  lemma CatLineSetsCurrent(lines: seq<string>, i: nat)
    requires 1 <= i < |lines| && Run(lines, i).Ok? && IsCat(lines[i]) && Run(lines, i + 1).Ok?
    ensures CatKey(lines[i]).Ok? && Run(lines, i).value.view.section.Some?
    ensures var s, k, after := Run(lines, i).value.view.section.value, CatKey(lines[i]).value, Run(lines, i + 1).value.view;
      && after.cat == InTree(s, k) && after.section == Some(s) && after.tree[s][k] == []
    ensures var s, k, before := Run(lines, i).value.view.section.value, CatKey(lines[i]).value, Run(lines, i).value.view;
      s in before.tree && Run(lines, i + 1).value.view.tree == before.tree[s := before.tree[s][k := []]]
  {
    assert Run(lines, i + 1) == Step(Run(lines, i).value, lines[i]);
  }

  /** A section header that passes stores a new, empty Section under its
      key, replacing any Section stored there, and leaves every other
      Section as it is. */
  lemma SectionLineOpens(lines: seq<string>, i: nat)
    requires 1 <= i < |lines| && Run(lines, i).Ok? && IsSection(lines[i]) && Run(lines, i + 1).Ok?
    ensures Run(lines, i + 1).value.view.tree == Run(lines, i).value.view.tree[SectionKey(lines[i]) := map[]]
    ensures Run(lines, i + 1).value.view.section == Some(SectionKey(lines[i]))
  {
    assert Run(lines, i + 1) == Step(Run(lines, i).value, lines[i]);
  }

  /** An item line moves neither the current Section nor the current Category. */
  lemma ItemKeepsCurrent(lines: seq<string>, i: nat)
    requires 1 <= i < |lines| && Run(lines, i).Ok? && !IsSection(lines[i]) && !IsCat(lines[i]) && Run(lines, i + 1).Ok?
    ensures Run(lines, i + 1).value.view.cat == Run(lines, i).value.view.cat
    ensures Run(lines, i + 1).value.view.section == Run(lines, i).value.view.section
  {
    assert Run(lines, i + 1) == Step(Run(lines, i).value, lines[i]);
  }

  /** A section header under any key but that of the current Category's
      Section makes a new current Section and leaves the current Category as it is. */
  lemma SectionKeepsOtherCurrent(lines: seq<string>, i: nat)
    requires 1 <= i < |lines| && Run(lines, i).Ok? && IsSection(lines[i]) && Run(lines, i + 1).Ok?
    requires !(Run(lines, i).value.view.cat.InTree? && Run(lines, i).value.view.cat.section == SectionKey(lines[i]))
    ensures Run(lines, i + 1).value.view.cat == Run(lines, i).value.view.cat
    ensures Run(lines, i + 1).value.view.section == Some(SectionKey(lines[i]))
  {
    assert Run(lines, i + 1) == Step(Run(lines, i).value, lines[i]);
  }

  /** Section keys and category keys are lower case, as `lower()` leaves them. */
  lemma {:induction false} KeysLowercase(lines: seq<string>, n: nat)
    requires n <= |lines| && Run(lines, n).Ok?
    ensures LowerKeys(Run(lines, n).value.view.tree)
    decreases n
  {
    if n > 0 {
      KeysLowercase(lines, n - 1);
      var st := Run(lines, n - 1).value;
      var line := lines[n - 1];
      assert Run(lines, n) == Step(st, line);
      if st.lineCount > 0 && IsSection(line) {
        LowerIsLowerCase(Skip(line, SectionHeader));
      } else if st.lineCount > 0 && IsCat(line) && CatKey(line).Ok? {
        LowerIsLowerCase(ParseLine(Skip(line, CatHeader)).value.1);
      }
    }
  }

  /** Every key of a parsed Playset is lower case. */
  lemma ParsedKeysLowercase(lines: seq<string>)
    requires Parse(lines).Ok? && Parse(lines).value.Some?
    ensures LowerKeys(Parse(lines).value.value.sections)
  {
    KeysLowercase(lines, |lines|);
  }

  /** `parse_line` fails with ValueError on a line with no space. */
  lemma ParseLineNeedsSpace(line: string)
    requires ' ' !in line
    ensures ParseLine(line) == Err(ValueError)
  {
  }

  /** The text `parse_line` returns is stripped. */
  lemma ParseLineStripped(line: string)
    requires ParseLine(line).Ok?
    ensures Stripped(ParseLine(line).value.1)
  {
    var i := IndexOf(line, ' ').value;
    StripSpec(line[i..]);
  }

  /** `parse_line` reads back the ordinal and the text of `str(n) + " " + text`,
      followed by any whitespace such as a line terminator. */
  lemma ParseLineRoundTrip(n: int, text: string, eol: string)
    requires Stripped(text) && AllSpace(eol)
    ensures ParseLine(IntString(n) + " " + text + eol) == Ok((n, text))
  {
    var d := IntString(n);
    var line := d + " " + text + eol;
    assert forall k | 0 <= k < |d| :: line[k] == d[k] && line[k] != ' ';
    assert IndexOf(line, ' ') == Ok(|d|) by {
      assert line[|d|] == ' ' && line[..|d|] == d;
    }
    assert line[..|d|] == d && line[|d|..] == [' '] + text + eol;
    StripStripped(d);
    IntRoundTrip(n);
    StripAround([' '], text, eol);
  }

  /** The doctest of `parse_line`: "5 this is a test" gives (5, "this is a test"). */
  lemma ParseLineExample()
    ensures ParseLine("5 this is a test") == Ok((5, "this is a test"))
  {
    assert IntString(5) + " " + "this is a test" + "" == "5 this is a test";
    ParseLineRoundTrip(5, "this is a test", "");
  }

  /** `skip` drops exactly the header and strips what follows it. */
  lemma SkipHeader(header: string, rest: string)
    ensures Skip(header + rest, header) == Strip(rest)
    ensures Stripped(Skip(header + rest, header))
  {
    assert (header + rest)[|header|..] == rest;
    StripSpec(rest);
  }

  /** An item line as a file holds it: the ordinal in decimal, a space and the text. */
  function ItemText(item: (int, string)): string {
    IntString(item.0) + " " + item.1
  }

  /** The item lines of a file, each followed by the line terminator `eol`. */
  function ItemTexts(items: seq<(int, string)>, eol: string): seq<string> {
    seq(|items|, k requires 0 <= k < |items| => ItemText(items[k]) + eol)
  }

  function Texts(items: seq<(int, string)>): seq<string> {
    if items == [] then [] else Texts(items[..|items| - 1]) + [items[|items| - 1].1]
  }

  /** `# <title>` is a section header keyed by the lower-cased title,
      whatever line terminator follows it. */
  lemma SectionHeaderLine(title: string, eol: string)
    requires Stripped(title) && AllSpace(eol)
    ensures IsSection(SectionHeader + " " + title + eol)
    ensures SectionKey(SectionHeader + " " + title + eol) == Lower(title)
  {
    var line := SectionHeader + " " + title + eol;
    assert line[|SectionHeader|..] == [' '] + title + eol;
    StripAround([' '], title, eol);
  }

  /** A header, a space, stripped text and whitespace: `skip` gives back the text. */
  lemma HeaderSkips(header: string, rest: string, eol: string)
    requires Stripped(rest) && AllSpace(eol)
    ensures Skip(header + " " + rest + eol, header) == rest
  {
    assert header + " " + rest + eol == header + ([' '] + rest + eol);
    SkipHeader(header, [' '] + rest + eol);
    StripAround([' '], rest, eol);
  }

  /** An item line with a non-empty stripped text is itself stripped. */
  lemma ItemLineStripped(item: (int, string))
    requires Stripped(item.1) && item.1 != []
    ensures Stripped(ItemText(item))
  {
    var d := IntString(item.0);
    var line := ItemText(item);
    assert line[0] == d[0];
    assert line[|line| - 1] == item.1[|item.1| - 1];
  }

  /** `## <ordinal> <title>` is a category header keyed by the lower-cased
      title alone, whatever line terminator follows it. */
  lemma CatHeaderLine(ordinal: int, title: string, eol: string)
    requires Stripped(title) && title != [] && AllSpace(eol)
    ensures !IsSection(CatHeader + " " + ItemText((ordinal, title)) + eol)
    ensures IsCat(CatHeader + " " + ItemText((ordinal, title)) + eol)
    ensures CatKey(CatHeader + " " + ItemText((ordinal, title)) + eol) == Ok(Lower(title))
  {
    var rest := ItemText((ordinal, title));
    ItemLineStripped((ordinal, title));
    HeaderSkips(CatHeader, rest, eol);
    assert rest + "" == rest;
    ParseLineRoundTrip(ordinal, title, "");
  }

  /** An item line is no header, and `parse_line` reads back its ordinal and
      text, whatever line terminator follows it. */
  lemma ItemLineReads(item: (int, string), eol: string)
    requires Stripped(item.1) && AllSpace(eol)
    ensures !IsSection(ItemText(item) + eol) && !IsCat(ItemText(item) + eol)
    ensures ParseLine(ItemText(item) + eol) == Ok(item)
  {
    var d := IntString(item.0);
    assert (ItemText(item) + eol)[0] == d[0];
    ParseLineRoundTrip(item.0, item.1, eol);
  }

  /** The lines of a Playset with one Section holding one Category, each
      ending in the line terminator `eol` as iterating over a file gives them. */
  function SimpleLines(name: string, section: string, ordinal: int, cat: string,
                       items: seq<(int, string)>, eol: string): seq<string> {
    [name + eol, SectionHeader + " " + section + eol, CatHeader + " " + ItemText((ordinal, cat)) + eol]
      + ItemTexts(items, eol)
  }

  /** A Playset with one Section holding one Category: each item line's text
      is appended in file order, under the lower-cased keys, and the name is
      the stripped first line; the line terminators are stripped away. */
  lemma SimplePlayset(name: string, section: string, ordinal: int, cat: string, items: seq<(int, string)>, eol: string)
    requires Stripped(section) && Stripped(cat) && cat != [] && AllSpace(eol)
    requires forall k | 0 <= k < |items| :: Stripped(items[k].1)
    ensures Parse(SimpleLines(name, section, ordinal, cat, items, eol))
      == Ok(Some(PlaysetValue(Strip(name), map[Lower(section) := map[Lower(cat) := Texts(items)]])))
  {
    SimpleHeaders(name, section, ordinal, cat, items, eol);
    SimpleItems(name, section, ordinal, cat, items, eol, |items|);
    assert items[..|items|] == items;
  }

  /** The module doctest: a file of five lines, each ending in the same line
      terminator, gives the Playset "Test" with the two items under
      "relationships" and "family". */
  lemma LoaderDoctest(eol: string)
    requires AllSpace(eol)
    ensures Parse(["Test" + eol, "# RELATIONSHIPS" + eol, "## 1 Family" + eol, "1 Parent / Child" + eol, "2 Cousins" + eol])
      == Ok(Some(PlaysetValue("Test", map["relationships" := map["family" := ["Parent / Child", "Cousins"]]])))
  {
    var items := [(1, "Parent / Child"), (2, "Cousins")];
    DoctestLines(items, eol);
    SimplePlayset("Test", "RELATIONSHIPS", 1, "Family", items, eol);
    DoctestName();
    DoctestSectionKey();
    DoctestCategoryKey();
    DoctestTexts(items);
  }

  /** The doctest's file is the one-Section, one-Category layout. */
  lemma DoctestLines(items: seq<(int, string)>, eol: string)
    requires items == [(1, "Parent / Child"), (2, "Cousins")]
    ensures SimpleLines("Test", "RELATIONSHIPS", 1, "Family", items, eol)
      == ["Test" + eol, "# RELATIONSHIPS" + eol, "## 1 Family" + eol, "1 Parent / Child" + eol, "2 Cousins" + eol]
  {
    assert IntString(1) == "1" && IntString(2) == "2";
    assert ItemText((1, "Family")) == "1 Family";
    assert ItemTexts(items, eol) == ["1 Parent / Child" + eol, "2 Cousins" + eol] by {
      assert ItemText(items[0]) == "1 Parent / Child" && ItemText(items[1]) == "2 Cousins";
    }
    assert SectionHeader + " " + "RELATIONSHIPS" == "# RELATIONSHIPS";
    assert CatHeader + " " + "1 Family" == "## 1 Family";
  }

  /** The doctest's name as the pass computes it. */
  lemma DoctestName()
    ensures Strip("Test") == "Test"
  {
    assert Stripped("Test");
    StripStripped("Test");
  }

  /** The doctest's Section key as the pass computes it. */
  lemma DoctestSectionKey()
    ensures Lower("RELATIONSHIPS") == "relationships"
  {
    LowerSpelled("RELATIONSHIPS", "relationships");
  }

  /** The doctest's Category key as the pass computes it. */
  lemma DoctestCategoryKey()
    ensures Lower("Family") == "family"
  {
    LowerSpelled("Family", "family");
  }

  /** The doctest's item texts, in file order. */
  lemma DoctestTexts(items: seq<(int, string)>)
    requires items == [(1, "Parent / Child"), (2, "Cousins")]
    ensures Texts(items) == ["Parent / Child", "Cousins"]
  {
    var first := items[..1];
    assert first[..0] == [];
    assert Texts(first) == ["Parent / Child"];
    assert items[..|items| - 1] == first;
  }

  /** `Lower(s)` is `t` when they agree character by character under `LowerChar`. */
  lemma LowerSpelled(s: string, t: string)
    requires |s| == |t| && forall k | 0 <= k < |s| :: LowerChar(s[k]) == t[k]
    ensures Lower(s) == t
  {
  }

  /** The state of the pass after the three header lines of `SimpleLines`. */
  lemma SimpleHeaders(name: string, section: string, ordinal: int, cat: string, items: seq<(int, string)>, eol: string)
    requires Stripped(section) && Stripped(cat) && cat != [] && AllSpace(eol)
    ensures var lines := SimpleLines(name, section, ordinal, cat, items, eol);
      var ks, kc := Lower(section), Lower(cat);
      Run(lines, 3) == Ok(ParseState(View(Strip(name), map[ks := map[kc := []]], Some(ks), InTree(ks, kc)), 3, false, false))
  {
    var lines := SimpleLines(name, section, ordinal, cat, items, eol);
    var ks, kc := Lower(section), Lower(cat);
    SectionHeaderLine(section, eol);
    CatHeaderLine(ordinal, cat, eol);
    StripTrailingSpace(name, eol);
    var st1 := ParseState(View(Strip(name), map[], None, NoCat), 1, true, true);
    assert Run(lines, 1) == Ok(st1) by {
      assert Run(lines, 1) == Step(Start, lines[0]);
    }
    var st2 := ParseState(View(Strip(name), map[ks := map[]], Some(ks), NoCat), 2, false, true);
    assert Run(lines, 2) == Ok(st2) by {
      assert lines[1] == SectionHeader + " " + section + eol;
      assert Run(lines, 2) == SectionStep(st1, lines[1]);
    }
    assert Run(lines, 3) == CatStep(st2, lines[2]) by {
      assert lines[2] == CatHeader + " " + ItemText((ordinal, cat)) + eol;
    }
    var empty: map<string, seq<string>> := map[];
    assert st2.view.tree[ks := empty[kc := []]] == map[ks := map[kc := []]];
  }

  /** The state of the pass after the first `n` item lines of `SimpleLines`. */
  lemma {:induction false} SimpleItems(name: string, section: string, ordinal: int, cat: string,
                                       items: seq<(int, string)>, eol: string, n: nat)
    requires Stripped(section) && Stripped(cat) && cat != [] && AllSpace(eol)
    requires forall k | 0 <= k < |items| :: Stripped(items[k].1)
    requires n <= |items|
    ensures var lines := SimpleLines(name, section, ordinal, cat, items, eol);
      var ks, kc := Lower(section), Lower(cat);
      Run(lines, 3 + n)
        == Ok(ParseState(View(Strip(name), map[ks := map[kc := Texts(items[..n])]], Some(ks), InTree(ks, kc)), 3 + n, false, false))
    decreases n
  {
    var lines := SimpleLines(name, section, ordinal, cat, items, eol);
    var ks, kc := Lower(section), Lower(cat);
    if n == 0 {
      SimpleHeaders(name, section, ordinal, cat, items, eol);
      assert items[..0] == [];
    } else {
      SimpleItems(name, section, ordinal, cat, items, eol, n - 1);
      var v := View(Strip(name), map[ks := map[kc := Texts(items[..n - 1])]], Some(ks), InTree(ks, kc));
      assert lines[3 + n - 1] == ItemText(items[n - 1]) + eol;
      ItemToOnlyCategory(v, 3 + n - 1, items[n - 1], eol);
      assert items[..n][..n - 1] == items[..n - 1];
    }
  }

  /** An item line while the only Category is current appends its text there. */
  lemma ItemToOnlyCategory(v: View, count: nat, item: (int, string), eol: string)
    requires v.cat.InTree? && v.section == Some(v.cat.section)
    requires v.tree.Keys == {v.cat.section} && v.tree[v.cat.section].Keys == {v.cat.category}
    requires count > 0 && Stripped(item.1) && AllSpace(eol)
    ensures var ks, kc := v.cat.section, v.cat.category;
      Step(ParseState(v, count, false, false), ItemText(item) + eol)
        == Ok(ParseState(v.(tree := map[ks := map[kc := v.tree[ks][kc] + [item.1]]]), count + 1, false, false))
  {
    var ks, kc := v.cat.section, v.cat.category;
    ItemLineReads(item, eol);
    var inner := map[kc := v.tree[ks][kc] + [item.1]];
    assert v.tree[ks][kc := v.tree[ks][kc] + [item.1]] == inner;
    assert v.tree[ks := inner] == map[ks := inner];
  }
}
