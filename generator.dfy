/** The Fiasco setup generator: the players sit in a ring and each adjacent
    pair gets a Connection, whose relationship is drawn from the
    "relationships" Section and whose detail is drawn from the other
    Sections in turn. */
module Generator {
  import opened Results
  import opened Text
  import opened Model

  /** One pair of adjacent players and what ties them. */
  datatype Connection = Connection(left: string, right: string, relationship: string, detail: string)

  /* ---------------------------------------------------------------------
     The ring of adjacent pairs.
     --------------------------------------------------------------------- */

  /** The players rotated one seat to the right: the last one comes first. */
  function Rotated(players: seq<string>): seq<string>
    requires players != []
  {
    [players[|players| - 1]] + players[..|players| - 1]
  }

  function Zip(lefts: seq<string>, rights: seq<string>): (r: seq<(string, string)>)
    requires |lefts| == |rights|
    ensures |r| == |lefts|
    ensures forall i | 0 <= i < |r| :: r[i] == (lefts[i], rights[i])
  {
    if lefts == [] then [] else [(lefts[0], rights[0])] + Zip(lefts[1..], rights[1..])
  }

  /** The pairs around the table: each player with the one before, the
      first with the last. */
  function RingPairs(players: seq<string>): (r: seq<(string, string)>)
    requires players != []
    ensures |r| == |players|
  {
    Zip(Rotated(players), players)
  }

  /** There is one pair per player; pair 0 wraps around from the last player
      to the first, and pair `i` joins players `i - 1` and `i`. */
  lemma RingPairsShape(players: seq<string>)
    requires players != []
    ensures |RingPairs(players)| == |players|
    ensures RingPairs(players)[0] == (players[|players| - 1], players[0])
    ensures forall i | 0 < i < |players| :: RingPairs(players)[i] == (players[i - 1], players[i])
  {
    var rot := Rotated(players);
    forall i | 0 < i < |players| ensures rot[i] == players[i - 1] {
      assert rot[i] == players[..|players| - 1][i - 1];
    }
  }

  /** The pairs close into a ring: the right of each pair is the left of the
      next, and the right of the last is the left of the first. */
  lemma RingChains(players: seq<string>)
    requires players != []
    ensures var r := RingPairs(players);
      forall i | 0 <= i < |r| :: r[i].1 == r[(i + 1) % |r|].0
  {
    RingPairsShape(players);
    var r, n := RingPairs(players), |players|;
    forall i | 0 <= i < n ensures r[i].1 == r[(i + 1) % n].0 {
      if i + 1 < n {
        ModUnique(i + 1, n, 0, i + 1);
      } else {
        ModUnique(i + 1, n, 1, 0);
      }
    }
  }

  function Lefts(pairs: seq<(string, string)>): (r: seq<string>)
    ensures |r| == |pairs| && forall i | 0 <= i < |pairs| :: r[i] == pairs[i].0
  {
    seq(|pairs|, i requires 0 <= i < |pairs| => pairs[i].0)
  }

  function Rights(pairs: seq<(string, string)>): (r: seq<string>)
    ensures |r| == |pairs| && forall i | 0 <= i < |pairs| :: r[i] == pairs[i].1
  {
    seq(|pairs|, i requires 0 <= i < |pairs| => pairs[i].1)
  }

  /** Every player is the right of exactly the pair at their own seat and the
      left of exactly one pair: the lefts are the players rotated. */
  lemma RingSeatsEveryoneTwice(players: seq<string>)
    requires players != []
    ensures Rights(RingPairs(players)) == players
    ensures Lefts(RingPairs(players)) == Rotated(players)
    ensures multiset(Lefts(RingPairs(players))) == multiset(players)
  {
    var rot := Rotated(players);
    assert players == players[..|players| - 1] + [players[|players| - 1]];
    assert multiset(rot) == multiset(players);
  }

  /** The doctest of `Circular`: three players give three pairs, starting
      with the last player and the first. */
  lemma CircularExample()
    ensures RingPairs(["Joebob", "Sallybob", "Jimbob"])
      == [("Jimbob", "Joebob"), ("Joebob", "Sallybob"), ("Sallybob", "Jimbob")]
  {
    RingPairsShape(["Joebob", "Sallybob", "Jimbob"]);
  }

  /** The Circular connection strategy over a fixed list of players. */
  class Circular {
    const characterSet: seq<string>

    constructor (characterSet: seq<string>)
      ensures this.characterSet == characterSet
    {
      this.characterSet := characterSet;
    }

    /** `build`: each player paired with the one before, starting from the
        last; IndexError when there are no players. */
    method Build() returns (r: Result<seq<(string, string)>>)
      ensures characterSet == [] ==> r == Err(IndexError)
      ensures characterSet != [] ==> r == Ok(RingPairs(characterSet))
    {
      if |characterSet| == 0 {
        return Err(IndexError);
      }
      var prev := characterSet[|characterSet| - 1];
      var pairs: seq<(string, string)> := [];
      ghost var ring := RingPairs(characterSet);
      RingPairsShape(characterSet);
      for i := 0 to |characterSet|
        invariant pairs == ring[..i]
        invariant prev == if i == 0 then characterSet[|characterSet| - 1] else characterSet[i - 1]
      {
        pairs := pairs + [(prev, characterSet[i])];
        prev := characterSet[i];
      }
      assert ring[..|characterSet|] == ring;
      r := Ok(pairs);
    }
  }

  /* ---------------------------------------------------------------------
     The round-robin choice of detail Sections.
     --------------------------------------------------------------------- */

  /** The key the relationship Section is stored under. */
  const RelationshipsKey: string := "relationships"

  predicate IsRelationships(key: string) {
    Lower(key) == RelationshipsKey
  }

  /** The keys in `keys`, in order, without those whose lower case is "relationships". */
  function DetailKeys(keys: seq<string>): seq<string> {
    if keys == [] then []
    else DetailKeys(keys[..|keys| - 1]) + (if IsRelationships(keys[|keys| - 1]) then [] else [keys[|keys| - 1]])
  }

  /** A key is a detail key exactly when it is one of `keys` and not the
      relationship Section's key in any case. */
  lemma {:induction false} DetailKeysMembers(keys: seq<string>)
    ensures forall k :: k in DetailKeys(keys) <==> k in keys && !IsRelationships(k)
    ensures |DetailKeys(keys)| <= |keys|
    decreases |keys|
  {
    if keys != [] {
      var init := keys[..|keys| - 1];
      DetailKeysMembers(init);
      assert keys == init + [keys[|keys| - 1]];
    }
  }

  /** Every key of a list of keys distinct from one another appears in the
      detail keys at most once. */
  lemma {:induction false} DetailKeysDistinct(keys: seq<string>)
    requires forall i, j | 0 <= i < j < |keys| :: keys[i] != keys[j]
    ensures var d := DetailKeys(keys); forall i, j | 0 <= i < j < |d| :: d[i] != d[j]
    decreases |keys|
  {
    if keys != [] {
      var init := keys[..|keys| - 1];
      DetailKeysDistinct(init);
      DetailKeysMembers(init);
      assert keys[|keys| - 1] !in init;
    }
  }

  /** `order` lists each key of `sections` once: the order in which the
      dictionary hands its keys out. */
  ghost predicate Enumerates(order: seq<string>, sections: map<string, Section>) {
    && (forall k :: k in order <==> k in sections)
    && (forall i, j | 0 <= i < j < |order| :: order[i] != order[j])
  }

  lemma MulAtLeast(x: int, m: int)
    requires x >= 1 && m > 0
    ensures x * m >= m
  {
  }

  /** The quotient and remainder of a division are the only ones. */
  lemma ModUnique(a: int, m: int, q: int, r: int)
    requires m > 0 && a == q * m + r && 0 <= r < m
    ensures a % m == r && a / m == q
  {
    var q', r' := a / m, a % m;
    assert (q' - q) * m == r - r';
    if q' > q {
      MulAtLeast(q' - q, m);
      assert false;
    } else if q' < q {
      MulAtLeast(q - q', m);
      assert false;
    }
  }

  /** `SimpleSectionChoiceStrategy`: the detail Sections to cycle through. */
  class SimpleSectionChoiceStrategy {
    var sections: seq<string>

    /** Keeps the Playset's section keys, in `order`, except the
        relationship Section's. */
    constructor (playset: Playset, order: seq<string>)
      requires Enumerates(order, playset.sections)
      ensures sections == DetailKeys(order)
    {
      var keys: seq<string> := [];
      for i := 0 to |order|
        invariant keys == DetailKeys(order[..i])
      {
        assert order[..i + 1][..i] == order[..i];
        if IsRelationships(order[i]) {
          continue;
        }
        keys := keys + [order[i]];
      }
      assert order[..|order|] == order;
      sections := keys;
    }

    /** `SimpleSectionChoiceStrategy(playset)` for a Playset that may be
        None, as `process` returns for an empty file: reading `sections` of
        None raises AttributeError. */
    static method Create(playset: Playset?, order: seq<string>) returns (r: Result<SimpleSectionChoiceStrategy>)
      requires playset != null ==> Enumerates(order, playset.sections)
      ensures playset == null <==> r.Err?
      ensures r.Err? ==> r.error == AttributeError
      ensures r.Ok? ==> fresh(r.value) && r.value.sections == DetailKeys(order)
    {
      if playset == null {
        return Err(AttributeError);
      }
      var strategy := new SimpleSectionChoiceStrategy(playset, order);
      r := Ok(strategy);
    }

    /** `choices()`: a fresh generator over the current sections. */
    method Choices() returns (c: ChoiceCursor)
      ensures fresh(c) && c.sections == sections && c.idx == 0 && !c.failed && c.Valid()
    {
      c := new ChoiceCursor(sections);
    }
  }

  /** The detail keys hold exactly the section keys other than the
      relationship Section's, each once. */
  lemma ChoiceSections(order: seq<string>, sections: map<string, Section>)
    requires Enumerates(order, sections)
    ensures forall k :: k in DetailKeys(order) <==> k in sections && !IsRelationships(k)
    ensures var d := DetailKeys(order); forall i, j | 0 <= i < j < |d| :: d[i] != d[j]
  {
    DetailKeysMembers(order);
    DetailKeysDistinct(order);
  }

  /** The index after `a` in a list of `n` keys, round to the first. */
  function Succ(n: nat, a: nat): (r: nat)
    requires a < n
    ensures r < n
  {
    if a + 1 == n then 0 else a + 1
  }

  /** `idx = (idx + 1) % len(sections)` is the step `Succ` takes. */
  lemma SuccIsMod(n: nat, a: nat)
    requires a < n
    ensures (a + 1) % n == Succ(n, a)
  {
    if a + 1 < n {
      ModUnique(a + 1, n, 0, a + 1);
    } else {
      ModUnique(a + 1, n, 1, 0);
    }
  }

  /** The index `k` steps after `a`. */
  function Advance(n: nat, a: nat, k: nat): (r: nat)
    requires a < n
    ensures r < n
  {
    if k == 0 then a else Succ(n, Advance(n, a, k - 1))
  }

  /** Going on `k1` steps and then `k2` steps is going on `k1 + k2` steps. */
  lemma {:induction false} AdvanceAdd(n: nat, a: nat, k1: nat, k2: nat)
    requires a < n
    ensures Advance(n, Advance(n, a, k1), k2) == Advance(n, a, k1 + k2)
    decreases k2
  {
    if k2 > 0 {
      AdvanceAdd(n, a, k1, k2 - 1);
    }
  }

  /** Within one round, `k` steps from `a` reach `a + k`, wrapped once. */
  lemma {:induction false} AdvanceWithinRound(n: nat, a: nat, k: nat)
    requires a < n && k <= n
    ensures Advance(n, a, k) == if a + k < n then a + k else a + k - n
    decreases k
  {
    if k > 0 {
      AdvanceWithinRound(n, a, k - 1);
    }
  }

  /** Adding one before or after taking the remainder lands on the same index. */
  lemma ModStep(x: nat, n: nat)
    requires n > 0
    ensures (x % n + 1) % n == (x + 1) % n
  {
    var q, b := x / n, x % n;
    if b + 1 < n {
      ModUnique(x + 1, n, q, b + 1);
      ModUnique(b + 1, n, 0, b + 1);
    } else {
      ModUnique(x + 1, n, q + 1, 0);
      ModUnique(b + 1, n, 1, 0);
    }
  }

  /** `k` steps from `a` reach the remainder of `a + k`: the index the
      generator's own arithmetic gives. */
  lemma {:induction false} AdvanceIsMod(n: nat, a: nat, k: nat)
    requires a < n
    ensures Advance(n, a, k) == (a + k) % n
    decreases k
  {
    if k == 0 {
      ModUnique(a, n, 0, a);
    } else {
      AdvanceIsMod(n, a, k - 1);
      var b := (a + k - 1) % n;
      SuccIsMod(n, b);
      ModStep(a + k - 1, n);
    }
  }

  /** The generator `choices()` returns, suspended between calls to `next`:
      `idx` is the index of the key it yields next, and `failed` says it has
      raised and finished. */
  class ChoiceCursor {
    const sections: seq<string>
    var idx: nat
    var failed: bool

    /** `idx` stays in range; a generator only fails when it has no key. */
    ghost predicate Valid()
      reads this
    {
      && (sections != [] ==> idx < |sections| && !failed)
      && (sections == [] ==> idx == 0)
    }

    constructor (sections: seq<string>)
      ensures this.sections == sections && idx == 0 && !failed && Valid()
    {
      this.sections := sections;
      idx := 0;
      failed := false;
    }

    /** `next(choices)`: the key at `idx`, after which `idx` moves on round
        the list. With no keys the first call raises IndexError and later
        calls StopIteration. */
    method Next() returns (r: Result<string>)
      requires Valid()
      modifies this
      ensures Valid()
      ensures old(failed) ==> r == Err(StopIteration) && failed && idx == old(idx)
      ensures !old(failed) && sections == [] ==> r == Err(IndexError) && failed && idx == old(idx)
      ensures !old(failed) && sections != [] ==>
        r == Ok(sections[old(idx)]) && idx == Succ(|sections|, old(idx)) && !failed
    {
      if failed {
        return Err(StopIteration);
      }
      if |sections| == 0 {
        failed := true;
        return Err(IndexError);
      }
      r := Ok(sections[idx]);
      SuccIsMod(|sections|, idx);
      idx := (idx + 1) % |sections|;
    }
  }

  /** The keys yielded by `k` calls of `next` from index `a`. */
  function Cycle(sections: seq<string>, a: nat, k: nat): (r: seq<string>)
    requires a < |sections|
    ensures |r| == k
  {
    seq(k, i requires 0 <= i < k => sections[Advance(|sections|, a, i)])
  }

  /** The cycle goes on where it stopped: `k1` calls and then `k2` more yield
      what `k1 + k2` calls from the same point yield. */
  lemma CycleContinues(sections: seq<string>, a: nat, k1: nat, k2: nat)
    requires a < |sections|
    ensures Cycle(sections, a, k1) + Cycle(sections, Advance(|sections|, a, k1), k2) == Cycle(sections, a, k1 + k2)
  {
    var n := |sections|;
    var c1, c2, c := Cycle(sections, a, k1), Cycle(sections, Advance(n, a, k1), k2), Cycle(sections, a, k1 + k2);
    forall i | 0 <= i < k1 + k2 ensures (c1 + c2)[i] == c[i] {
      if i >= k1 {
        AdvanceAdd(n, a, k1, i - k1);
      }
    }
  }

  /** The cycle repeats with the period of the number of keys. */
  lemma CyclePeriod(sections: seq<string>, a: nat, k: nat)
    requires a < |sections|
    ensures forall i | 0 <= i < k - |sections| :: Cycle(sections, a, k)[i] == Cycle(sections, a, k)[i + |sections|]
  {
    var n, c := |sections|, Cycle(sections, a, k);
    forall i | 0 <= i < k - n ensures c[i] == c[i + n] {
      var b := Advance(n, a, i);
      AdvanceAdd(n, a, i, n);
      AdvanceWithinRound(n, b, n);
    }
  }

  /** One round of the cycle is the keys rotated to where it starts, so
      each key is yielded exactly once in it. */
  lemma CycleRotates(sections: seq<string>, a: nat)
    requires a < |sections|
    ensures Cycle(sections, a, |sections|) == sections[a..] + sections[..a]
    ensures multiset(Cycle(sections, a, |sections|)) == multiset(sections)
  {
    var n, c := |sections|, Cycle(sections, a, |sections|);
    var rot := sections[a..] + sections[..a];
    forall i | 0 <= i < n ensures c[i] == rot[i] {
      AdvanceWithinRound(n, a, i);
    }
    assert c == rot;
    assert sections == sections[..a] + sections[a..];
  }

  /* ---------------------------------------------------------------------
     The setup.
     --------------------------------------------------------------------- */

  /** `item` is an item of some Category of the Section stored under `key`. */
  predicate ItemOf(tree: map<string, map<string, seq<string>>>, key: string, item: string) {
    key in tree && exists j | j in tree[key] :: item in tree[key][j]
  }

  /** Something can be drawn under `key`: its Section exists, has a
      Category, and every Category has an item. */
  predicate Drawable(tree: map<string, map<string, seq<string>>>, key: string) {
    && key in tree
    && tree[key] != map[]
    && forall j | j in tree[key] :: tree[key][j] != []
  }

  /** An item drawn from the Section under `key`: `playset[key]`, then
      `random_category()`, then that Category's `random_item()`. KeyError
      for a missing Section, IndexError for a Section with no Category or a
      drawn Category with no item. */
  method DrawItem(p: Playset, key: string) returns (r: Result<string>)
    ensures key !in p.sections ==> r == Err(KeyError(key))
    ensures key in p.sections && p.sections[key].categories == map[] ==> r == Err(IndexError)
    ensures Drawable(p.Tree(), key) ==> r.Ok?
    ensures r.Ok? ==> ItemOf(p.Tree(), key, r.value)
    ensures r.Err? ==> r.error == KeyError(key) || r.error == IndexError
  {
    var section := p.Lookup(key);
    if section.Err? {
      return Err(section.error);
    }
    var s := section.value;
    var chosen := s.RandomCategory();
    if chosen.Err? {
      return Err(chosen.error);
    }
    var (j, c) := chosen.value;
    assert p.Tree()[key][j] == c.items;
    r := c.RandomItem();
  }

  /** `c` joins the pair `pair` by an item of the relationship Section and
      an item of the Section under `key`. */
  predicate Joins(tree: map<string, map<string, seq<string>>>, c: Connection, pair: (string, string), key: string) {
    && (c.left, c.right) == pair
    && ItemOf(tree, RelationshipsKey, c.relationship)
    && ItemOf(tree, key, c.detail)
  }

  /** Each of `cs` joins the pair at its position by the key at its
      position. */
  predicate JoinsAll(tree: map<string, map<string, seq<string>>>, cs: seq<Connection>, pairs: seq<(string, string)>, keys: seq<string>)
    requires |cs| <= |pairs| && |cs| <= |keys|
    decreases |cs|
  {
    cs != [] ==>
      && JoinsAll(tree, cs[..|cs| - 1], pairs, keys)
      && Joins(tree, cs[|cs| - 1], pairs[|cs| - 1], keys[|cs| - 1])
  }

  /** One more Connection that joins its pair by its key keeps them all joined. */
  lemma JoinsAllSnoc(tree: map<string, map<string, seq<string>>>, cs: seq<Connection>, c: Connection, pairs: seq<(string, string)>, keys: seq<string>)
    requires |cs| < |pairs| && |cs| < |keys|
    requires JoinsAll(tree, cs, pairs, keys) && Joins(tree, c, pairs[|cs|], keys[|cs|])
    ensures JoinsAll(tree, cs + [c], pairs, keys)
  {
    assert (cs + [c])[..|cs|] == cs;
  }

  lemma {:induction false} JoinsAllAt(tree: map<string, map<string, seq<string>>>, cs: seq<Connection>, pairs: seq<(string, string)>, keys: seq<string>)
    requires |cs| <= |pairs| && |cs| <= |keys|
    ensures JoinsAll(tree, cs, pairs, keys) <==> forall m | 0 <= m < |cs| :: Joins(tree, cs[m], pairs[m], keys[m])
    decreases |cs|
  {
    if cs != [] {
      JoinsAllAt(tree, cs[..|cs| - 1], pairs, keys);
    }
  }

  /** The Connection built for one pair: the relationship is drawn first,
      then the detail from the Section under `key`. */
  method Connect(p: Playset, pair: (string, string), key: string) returns (r: Result<Connection>)
    ensures r.Ok? ==> Joins(p.Tree(), r.value, pair, key)
    ensures Drawable(p.Tree(), RelationshipsKey) && Drawable(p.Tree(), key) ==> r.Ok?
    ensures r.Err? ==> r.error in {KeyError(RelationshipsKey), KeyError(key), IndexError}
  {
    var relationship := DrawItem(p, RelationshipsKey);
    if relationship.Err? {
      return Err(relationship.error);
    }
    var detail := DrawItem(p, key);
    if detail.Err? {
      return Err(detail.error);
    }
    r := Ok(Connection(pair.0, pair.1, relationship.value, detail.value));
  }

  /** `Setup`: a Playset, the players, their Circular pairing and the
      generator of detail Sections, created once. */
  class Setup {
    const playset: Playset
    const characters: seq<string>
    const connections: Circular
    const choices: ChoiceCursor
    var fiasco: seq<Connection>

    ghost predicate Valid()
      reads this, choices
    {
      connections.characterSet == characters && choices.Valid()
    }

    /** `Setup(playset, characters)` with the default strategies; `order` is
        the order in which the Playset's dictionary lists its section keys. */
    constructor (playset: Playset, characters: seq<string>, order: seq<string>)
      requires Enumerates(order, playset.sections)
      ensures this.playset == playset && this.characters == characters && fiasco == []
      ensures fresh(choices) && choices.sections == DetailKeys(order) && choices.idx == 0 && !choices.failed
      ensures Valid()
    {
      this.playset := playset;
      this.characters := characters;
      connections := new Circular(characters);
      var strategy := new SimpleSectionChoiceStrategy(playset, order);
      var cursor := strategy.Choices();
      choices := cursor;
      fiasco := [];
    }

    /** `Setup(playset, characters)` for a Playset that may be None: the
        default section strategy then raises AttributeError. */
    static method Create(playset: Playset?, characters: seq<string>, order: seq<string>) returns (r: Result<Setup>)
      requires playset != null ==> Enumerates(order, playset.sections)
      ensures playset == null <==> r.Err?
      ensures r.Err? ==> r.error == AttributeError
      ensures r.Ok? ==>
        && fresh(r.value) && fresh(r.value.choices) && r.value.Valid()
        && r.value.playset == playset && r.value.characters == characters && r.value.fiasco == []
        && r.value.choices.sections == DetailKeys(order) && r.value.choices.idx == 0 && !r.value.choices.failed
    {
      if playset == null {
        return Err(AttributeError);
      }
      var setup := new Setup(playset, characters, order);
      r := Ok(setup);
    }

    /** `build` as written: the draws call `random_item` on a Section, which
        has no such method, so every call fails. The first pair is formed,
        the next detail key is taken, and then the lookup of "relationships"
        raises KeyError or the call raises AttributeError; earlier, no
        players raise IndexError and an exhausted choice generator its own
        error. */
    method BuildAsWritten() returns (r: Result<seq<Connection>>)
      requires Valid()
      modifies choices
      ensures Valid() && r.Err?
      ensures characters == [] ==>
        r.error == IndexError && choices.idx == old(choices.idx) && choices.failed == old(choices.failed)
      ensures characters != [] && choices.sections == [] ==> choices.failed
      ensures characters != [] && old(choices.failed) ==> r.error == StopIteration
      ensures characters != [] && !old(choices.failed) && choices.sections == [] ==> r.error == IndexError
      ensures characters != [] && !old(choices.failed) && choices.sections != [] ==>
        && r.error == (if RelationshipsKey in playset.sections then AttributeError else KeyError(RelationshipsKey))
        && choices.idx == Succ(|choices.sections|, old(choices.idx))
    {
      var pairs := connections.Build();
      if pairs.Err? {
        return Err(pairs.error);
      }
      var sectionName := choices.Next();
      if sectionName.Err? {
        return Err(sectionName.error);
      }
      var relationships := playset.Lookup(RelationshipsKey);
      if relationships.Err? {
        return Err(relationships.error);
      }
      r := Err(AttributeError);
    }

    /** `build` as evidently intended: for each pair in ring order, the next
        detail key, then a relationship drawn from the "relationships"
        Section and a detail drawn from the Section under that key. The
        choice generator goes on from where the previous `build` left it. */
    method Build() returns (r: Result<seq<Connection>>)
      requires Valid()
      modifies choices
      ensures Valid()
      ensures characters == [] ==>
        r == Err(IndexError) && choices.idx == old(choices.idx) && choices.failed == old(choices.failed)
      ensures characters != [] && choices.sections == [] ==> choices.failed
      ensures characters != [] && old(choices.failed) ==> r == Err(StopIteration)
      ensures characters != [] && !old(choices.failed) && choices.sections == [] ==> r == Err(IndexError)
      ensures r.Ok? ==>
        && characters != [] && choices.sections != []
        && |r.value| == |characters|
        && choices.idx == Advance(|choices.sections|, old(choices.idx), |characters|)
        && forall i | 0 <= i < |characters| ::
             Joins(playset.Tree(), r.value[i], RingPairs(characters)[i], Cycle(choices.sections, old(choices.idx), |characters|)[i])
      ensures r.Err? ==> r.error in {IndexError, StopIteration} || r.error.KeyError?
      ensures (characters != [] && !old(choices.failed) && choices.sections != [] && Drawable(playset.Tree(), RelationshipsKey)
               && forall i | 0 <= i < |characters| :: Drawable(playset.Tree(), Cycle(choices.sections, old(choices.idx), |characters|)[i]))
              ==> r.Ok?
    {
      var pairs := connections.Build();
      if pairs.Err? {
        return Err(pairs.error);
      }
      r := ConnectAll(pairs.value);
    }

    /** One turn of the loop of `build`: the next detail key, then the
        Connection drawn for `pair` with it. */
    method ConnectNext(pair: (string, string)) returns (r: Result<Connection>)
      requires Valid()
      modifies choices
      ensures Valid()
      ensures old(choices.failed) ==> r == Err(StopIteration) && choices.failed
      ensures !old(choices.failed) && choices.sections == [] ==> r == Err(IndexError) && choices.failed
      ensures !old(choices.failed) && choices.sections != [] ==>
        && !choices.failed
        && choices.idx == Succ(|choices.sections|, old(choices.idx))
        && (r.Ok? ==> Joins(playset.Tree(), r.value, pair, choices.sections[old(choices.idx)]))
      ensures r.Err? ==> r.error in {IndexError, StopIteration} || r.error.KeyError?
      ensures (!old(choices.failed) && choices.sections != [] && Drawable(playset.Tree(), RelationshipsKey)
               && Drawable(playset.Tree(), choices.sections[old(choices.idx)])) ==> r.Ok?
      ensures playset.Tree() == old(playset.Tree())
    {
      var sectionName := choices.Next();
      if sectionName.Err? {
        return Err(sectionName.error);
      }
      r := Connect(playset, pair, sectionName.value);
    }

    /** The loop of `build`: for each pair, the next detail key and the
        Connection drawn for it; the first error ends the build. */
    method ConnectAll(ring: seq<(string, string)>) returns (r: Result<seq<Connection>>)
      requires Valid() && ring != []
      modifies choices
      ensures Valid()
      ensures old(choices.failed) ==> r == Err(StopIteration)
      ensures !old(choices.failed) && choices.sections == [] ==> r == Err(IndexError)
      ensures choices.sections == [] ==> choices.failed
      ensures r.Ok? ==>
        && choices.sections != []
        && |r.value| == |ring|
        && choices.idx == Advance(|choices.sections|, old(choices.idx), |ring|)
        && forall i | 0 <= i < |ring| ::
             Joins(playset.Tree(), r.value[i], ring[i], Cycle(choices.sections, old(choices.idx), |ring|)[i])
      ensures r.Err? ==> r.error in {IndexError, StopIteration} || r.error.KeyError?
      ensures (!old(choices.failed) && choices.sections != [] && Drawable(playset.Tree(), RelationshipsKey)
               && forall i | 0 <= i < |ring| :: Drawable(playset.Tree(), Cycle(choices.sections, old(choices.idx), |ring|)[i]))
              ==> r.Ok?
    {
      ghost var start := choices.idx;
      ghost var tree := playset.Tree();
      ghost var cycle := if choices.sections == [] then [] else Cycle(choices.sections, start, |ring|);
      var built: seq<Connection> := [];
      for i := 0 to |ring|
        invariant Valid() && |built| == i
        invariant i > 0 ==> choices.sections != [] && !choices.failed
        invariant choices.failed == old(choices.failed)
        invariant choices.sections != [] ==> choices.idx == Advance(|choices.sections|, start, i)
        invariant i > 0 ==> |cycle| == |ring|
        invariant playset.Tree() == tree
        invariant JoinsAll(tree, built, ring, cycle)
      {
        ghost var slot := choices.idx;
        var c := ConnectNext(ring[i]);
        if c.Err? {
          assert choices.sections != [] ==> cycle[i] == choices.sections[slot];
          return Err(c.error);
        }
        assert cycle[i] == choices.sections[slot];
        JoinsAllSnoc(tree, built, c.value, ring, cycle);
        built := built + [c.value];
      }
      JoinsAllAt(tree, built, ring, cycle);
      r := Ok(built);
    }
  }
}
