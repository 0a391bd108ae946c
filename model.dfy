/** The playset tree: a Playset maps section names to Sections, a Section maps
    category names to Categories, and a Category holds an ordered list of
    items. All three are mutable objects that the loader fills in place. */
module Model {
  import opened Results

  class Category {
    const name: string
    var items: seq<string>

    constructor (name: string)
      ensures this.name == name && items == []
    {
      this.name := name;
      items := [];
    }

    /** Appends `item` and returns this Category, so calls can be chained. */
    method AddItem(item: string) returns (c: Category)
      modifies this
      ensures c == this
      ensures items == old(items) + [item]
    {
      items := items + [item];
      c := this;
    }

    /** `random.choice(self.items)`: some item, or IndexError when there are none.
        Which item is drawn is left open. */
    method RandomItem() returns (r: Result<string>)
      ensures r.Ok? <==> items != []
      ensures r.Ok? ==> r.value in items
      ensures r.Err? ==> r.error == IndexError
    {
      if items == [] {
        r := Err(IndexError);
      } else {
        assert items[0] in items;
        var x :| x in items;
        r := Ok(x);
      }
    }
  }

  class Section {
    const name: string
    var categories: map<string, Category>

    /** Distinct keys hold distinct Category objects, each named by its key. */
    ghost predicate Valid()
      reads this
    {
      && (forall k1, k2 | k1 in categories && k2 in categories && k1 != k2 :: categories[k1] != categories[k2])
      && (forall k | k in categories :: categories[k].name == k)
    }

    /** The abstract content: each category name with its items. */
    ghost function Items(): map<string, seq<string>>
      reads this, categories.Values
    {
      ItemsOf(categories)
    }

    constructor (name: string)
      ensures this.name == name && categories == map[]
      ensures Valid() && Items() == map[]
    {
      this.name := name;
      categories := map[];
    }

    /** `section[k]`: the Category stored under exactly `k`, or KeyError. */
    function Lookup(k: string): (r: Result<Category>)
      reads this
      ensures r.Ok? <==> k in categories
      ensures r.Ok? ==> r.value == categories[k]
      ensures r.Err? ==> r.error == KeyError(k)
    {
      if k in categories then Ok(categories[k]) else Err(KeyError(k))
    }

    /** `random.choice(self.categories.items())`: some stored (name, Category)
        pair, or IndexError when the section has no category. */
    method RandomCategory() returns (r: Result<(string, Category)>)
      ensures r.Ok? <==> categories != map[]
      ensures r.Ok? ==> r.value.0 in categories && categories[r.value.0] == r.value.1
      ensures r.Err? ==> r.error == IndexError
    {
      if categories == map[] {
        r := Err(IndexError);
      } else {
        var k :| k in categories;
        r := Ok((k, categories[k]));
      }
    }

    /** Installs a fresh empty Category under `n`, replacing any Category
        already stored there, and returns it. */
    method NewCategory(n: string) returns (c: Category)
      modifies this
      ensures fresh(c) && c.name == n && c.items == []
      ensures categories == old(categories)[n := c]
      ensures Lookup(n) == Ok(c)
      ensures forall k | k != n :: Lookup(k) == old(Lookup(k))
      ensures Items() == old(Items())[n := []]
      ensures old(Valid()) ==> Valid()
    {
      c := new Category(n);
      categories := categories[n := c];
    }
  }

  class Playset {
    const name: string
    var sections: map<string, Section>

    /** Every Category reachable from this Playset. */
    ghost function Cats(): set<Category>
      reads this, sections.Values
    {
      CatsOf(sections)
    }

    ghost predicate Valid()
      reads this, sections.Values
    {
      IsTree(sections)
    }

    /** The abstract content: section name to category name to items. */
    ghost function Tree(): map<string, map<string, seq<string>>>
      reads this, sections.Values, Cats()
    {
      ContentOf(sections)
    }

    constructor (name: string)
      ensures this.name == name && sections == map[]
      ensures Valid() && Tree() == map[]
    {
      this.name := name;
      sections := map[];
    }

    /** `playset[k]`: the Section stored under exactly `k`, or KeyError. */
    function Lookup(k: string): (r: Result<Section>)
      reads this
      ensures r.Ok? <==> k in sections
      ensures r.Ok? ==> r.value == sections[k]
      ensures r.Err? ==> r.error == KeyError(k)
    {
      if k in sections then Ok(sections[k]) else Err(KeyError(k))
    }

    /** Installs a fresh empty Section under `n`, replacing any Section
        already stored there, and returns it. */
    method NewSection(n: string) returns (s: Section)
      modifies this
      ensures fresh(s) && s.name == n && s.categories == map[]
      ensures sections == old(sections)[n := s]
      ensures Tree() == old(Tree())[n := map[]]
      ensures old(Valid()) ==> Valid()
      ensures Cats() <= old(Cats())
      ensures old(Valid()) && n in old(sections) ==> old(sections[n]).categories.Values !! Cats()
    {
      ghost var before := sections;
      s := new Section(n);
      sections := sections[n := s];
      InstallEmpty(before, n, s);
    }
  }

  /** The items of each Category in `cats`, by name. */
  ghost function ItemsOf(cats: map<string, Category>): map<string, seq<string>>
    reads cats.Values
  {
    map k | k in cats :: cats[k].items
  }

  /** Every Category stored in one of `sections`. */
  ghost function CatsOf(sections: map<string, Section>): set<Category>
    reads sections.Values
  {
    set k, c | k in sections && c in sections[k].categories.Values :: c
  }

  /** `sections` forms a tree: no Section is stored twice, no Category is
      shared between two sections, and every object is named by its key. */
  ghost predicate IsTree(sections: map<string, Section>)
    reads sections.Values
  {
    && (forall k1, k2 | k1 in sections && k2 in sections && k1 != k2 :: sections[k1] != sections[k2])
    && (forall k1, k2 | k1 in sections && k2 in sections && k1 != k2 ::
          sections[k1].categories.Values !! sections[k2].categories.Values)
    && (forall k | k in sections :: sections[k].name == k && sections[k].Valid())
  }

  /** The content of `sections`: section name to category name to items. */
  ghost function ContentOf(sections: map<string, Section>): map<string, map<string, seq<string>>>
    reads sections.Values, CatsOf(sections)
  {
    map k | k in sections :: sections[k].Items()
  }

  /** The Categories split into one Section's and the rest. */
  lemma CatsSplit(sections: map<string, Section>, k: string)
    requires k in sections
    ensures CatsOf(sections) == CatsOf(sections - {k}) + sections[k].categories.Values
  {
    forall c | c in CatsOf(sections) ensures c in CatsOf(sections - {k}) + sections[k].categories.Values {
      var k1 :| k1 in sections && c in sections[k1].categories.Values;
      if k1 != k {
        var rest := sections - {k};
        assert k1 in rest && rest[k1] == sections[k1];
      }
    }
  }

  /** The Sections of a tree other than `k` form a tree, kept apart from
      the Section under `k`. */
  lemma TreeWithout(sections: map<string, Section>, k: string)
    requires k in sections && IsTree(sections)
    ensures IsTree(sections - {k})
    ensures sections[k] !in (sections - {k}).Values
    ensures sections[k].name == k && sections[k].Valid()
    ensures sections[k].categories.Values !! CatsOf(sections - {k})
  {
    var rest := sections - {k};
    var s := sections[k];
    forall c | c in CatsOf(rest) ensures c !in s.categories.Values {
      var k1 :| k1 in rest && c in rest[k1].categories.Values;
      assert k1 in sections && k1 != k;
    }
    forall k1, k2 | k1 in rest && k2 in rest && k1 != k2
      ensures rest[k1] != rest[k2] && rest[k1].categories.Values !! rest[k2].categories.Values
    {
      assert k1 in sections && k2 in sections;
    }
    forall k1 | k1 in rest ensures rest[k1].name == k1 && rest[k1].Valid() {
      assert k1 in sections;
    }
    forall s1 | s1 in rest.Values ensures s1 != s {
      var k1 :| k1 in rest && rest[k1] == s1;
      assert k1 in sections && k1 != k;
    }
  }

  /** A tree, plus a valid Section kept apart from it, is a tree. */
  lemma TreeWith(sections: map<string, Section>, k: string)
    requires k in sections
    requires IsTree(sections - {k})
    requires sections[k] !in (sections - {k}).Values
    requires sections[k].name == k && sections[k].Valid()
    requires sections[k].categories.Values !! CatsOf(sections - {k})
    ensures IsTree(sections)
  {
    var rest := sections - {k};
    forall k1, k2 | k1 in sections && k2 in sections && k1 != k2
      ensures sections[k1] != sections[k2]
      ensures sections[k1].categories.Values !! sections[k2].categories.Values
    {
      if k1 == k {
        assert k2 in rest && rest[k2] == sections[k2];
        assert sections[k2] in rest.Values;
        forall c | c in sections[k2].categories.Values ensures c in CatsOf(rest) {
          assert k2 in rest;
        }
      } else if k2 == k {
        assert k1 in rest && rest[k1] == sections[k1];
        assert sections[k1] in rest.Values;
        forall c | c in sections[k1].categories.Values ensures c in CatsOf(rest) {
          assert k1 in rest;
        }
      } else {
        assert k1 in rest && k2 in rest && rest[k1] == sections[k1] && rest[k2] == sections[k2];
      }
    }
    forall k1 | k1 in sections ensures sections[k1].name == k1 && sections[k1].Valid() {
      if k1 != k {
        assert k1 in rest;
      }
    }
  }

  /** Installing an empty Section under `k` empties that key's content;
      the Categories of a Section it replaces leave the tree. */
  lemma InstallEmptyContent(sections: map<string, Section>, k: string, s: Section)
    requires s.categories == map[]
    ensures CatsOf(sections[k := s]) == CatsOf(sections - {k})
    ensures CatsOf(sections - {k}) <= CatsOf(sections)
    ensures ContentOf(sections[k := s]) == ContentOf(sections)[k := map[]]
  {
    var next := sections[k := s];
    assert next - {k} == sections - {k};
    CatsSplit(next, k);
    if k in sections {
      CatsSplit(sections, k);
    } else {
      assert sections - {k} == sections;
    }
  }

  /** Installing a fresh empty Section under `k`: what `NewSection` does to the tree. */
  lemma InstallEmpty(sections: map<string, Section>, k: string, s: Section)
    requires s !in sections.Values && s.name == k && s.categories == map[]
    ensures CatsOf(sections[k := s]) <= CatsOf(sections)
    ensures ContentOf(sections[k := s]) == ContentOf(sections)[k := map[]]
    ensures IsTree(sections) ==> IsTree(sections[k := s])
    ensures IsTree(sections) && k in sections ==> sections[k].categories.Values !! CatsOf(sections[k := s])
  {
    InstallEmptyContent(sections, k, s);
    if IsTree(sections) {
      InstallEmptyTree(sections, k, s);
    }
  }

  /** Installing a fresh empty Section keeps a tree a tree, and the
      Categories of a Section it replaces are no longer in it. */
  lemma InstallEmptyTree(sections: map<string, Section>, k: string, s: Section)
    requires IsTree(sections) && s !in sections.Values && s.name == k && s.categories == map[]
    ensures IsTree(sections[k := s])
    ensures k in sections ==> sections[k].categories.Values !! CatsOf(sections[k := s])
  {
    var next := sections[k := s];
    assert next - {k} == sections - {k};
    InstallEmptyContent(sections, k, s);
    if k in sections {
      TreeWithout(sections, k);
    } else {
      assert sections - {k} == sections;
    }
    assert s.Valid();
    TreeWith(next, k);
  }

  /** The module's doctest: a chain of calls builds one category whose items
      come back in insertion order, under the keys as given. */
  method FamilyExample() returns (items: seq<string>)
    ensures items == ["Cousins", "Spouses"]
  {
    var p := new Playset("test");
    var s := p.NewSection("Relationships");
    var c := s.NewCategory("Family");
    c := c.AddItem("Cousins");
    c := c.AddItem("Spouses");
    var rs := p.Lookup("Relationships");
    var rc := rs.value.Lookup("Family");
    items := rc.value.items;
  }
}
