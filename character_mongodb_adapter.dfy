/**
 * CharacterMongoDBAdapter: the document-store adapter for characters. It maps characters
 * to stored records and back, searches by example (name by substring, every other field by
 * exact equality, null parameters ignored, all constraints together), pages the collection
 * by 100, and keeps the "characters" cache: read-through on a lookup by id, put on update,
 * evict on delete.
 *
 * The collection is a sequence of records in natural order; a record's identity is its
 * ObjectId, kept here as its hexadecimal text.
 */
module CharacterStore {
  import opened Wrappers
  import opened Domain

  /** An ObjectId, by its string form: `new ObjectId(s)` and `toString()` are inverse. */
  datatype ObjectId = ObjectId(hex: string)

  /** The stored document (CharacterModel): six fields, no house name. */
  datatype CharacterModel = CharacterModel(
    id: Option<ObjectId>,
    name: string,
    role: string,
    school: string,
    house: string,
    patronus: string)

  /** The example object of a search: a CharacterModel whose fields may be null. */
  datatype Probe = Probe(
    id: Option<ObjectId>,
    name: Option<string>,
    role: Option<string>,
    school: Option<string>,
    house: Option<string>,
    patronus: Option<string>)

  /** `PageRequest.of(page, 100)`. */
  const PageSize: nat := 100

  // ---------------------------------------------------------------- mappings

  /** `fromCharacter`: every field but the house name, the id parsed when present. */
  function FromCharacter(c: Character): (m: CharacterModel)
    ensures m.id.Some? <==> c.id.Some?
  {
    CharacterModel(
      if c.id.Some? then Some(ObjectId(c.id.value)) else None,
      c.name, c.role, c.school, c.house, c.patronus)
  }

  /** `toCharacter`: the stored fields, the id as text and no house name. */
  function ToCharacter(m: CharacterModel): (c: Character)
    requires m.id.Some?
    ensures c.id == Some(m.id.value.hex) && c.houseName == None
    ensures FromCharacter(c) == m
  {
    Character(Some(m.id.value.hex), m.name, m.role, m.school, m.house, None, m.patronus)
  }

  /** A character with an id survives a round trip through the store, except for its house name. */
  lemma CharacterRoundTrip(c: Character)
    requires c.id.Some?
    ensures ToCharacter(FromCharacter(c)) == c.(houseName := None)
  {
  }

  /** The house name is never written to the store. */
  lemma HouseNameNotStored(c: Character, houseName: Option<string>)
    ensures FromCharacter(c.(houseName := houseName)) == FromCharacter(c)
  {
  }

  /** `ToCharacter` over a sequence of stored records, keeping their order. */
  function ToCharacters(ms: seq<CharacterModel>): (cs: seq<Character>)
    requires forall m :: m in ms ==> m.id.Some?
    ensures |cs| == |ms|
    ensures forall i :: 0 <= i < |ms| ==> cs[i] == ToCharacter(ms[i])
  {
    seq(|ms|, i requires 0 <= i < |ms| => ToCharacter(ms[i]))
  }

  // ---------------------------------------------------------------- query by example

  /** `buildExample`: the five parameters as they are, with no id. */
  function BuildExample(f: SearchFilters): (p: Probe)
    ensures p.id.None?
  {
    Probe(None, f.name, f.role, f.school, f.house, f.patronus)
  }

  /** `part` occurs in `whole` as a contiguous, case-sensitive substring. */
  predicate IsSubstring(part: string, whole: string)
    decreases |whole|
  {
    part <= whole || (|whole| > 0 && IsSubstring(part, whole[1..]))
  }

  lemma {:induction false} IsSubstringIff(part: string, whole: string)
    ensures IsSubstring(part, whole) <==> exists i :: 0 <= i <= |whole| && part <= whole[i..]
    decreases |whole|
  {
    if part <= whole {
      assert whole[0..] == whole;
    } else if |whole| > 0 {
      IsSubstringIff(part, whole[1..]);
      if IsSubstring(part, whole[1..]) {
        var i :| 0 <= i <= |whole[1..]| && part <= whole[1..][i..];
        assert whole[1..][i..] == whole[i + 1..];
      } else {
        forall i | 0 <= i <= |whole| ensures !(part <= whole[i..]) {
          if i > 0 { assert whole[1..][i - 1..] == whole[i..]; }
        }
      }
    } else {
      forall i | 0 <= i <= |whole| ensures !(part <= whole[i..]) {
        assert whole[i..] == whole;
      }
    }
  }

  /** An exact-match constraint: null imposes nothing. */
  predicate Exact(constraint: Option<string>, value: string) {
    constraint.None? || constraint.value == value
  }

  /** A containing constraint: null imposes nothing. */
  predicate Containing(constraint: Option<string>, value: string) {
    constraint.None? || IsSubstring(constraint.value, value)
  }

  /** `matchNameContainingAndEverythingElseMustBeExact()` applied to one record. */
  predicate Matches(m: CharacterModel, p: Probe) {
    && (p.id.None? || m.id == p.id)
    && Containing(p.name, m.name)
    && Exact(p.role, m.role)
    && Exact(p.school, m.school)
    && Exact(p.house, m.house)
    && Exact(p.patronus, m.patronus)
  }

  /** The filters that constrain only one of the five parameters, as `f` does. */
  function OnlyName(f: SearchFilters): SearchFilters { SearchFilters(f.name, None, None, None, None) }
  function OnlyRole(f: SearchFilters): SearchFilters { SearchFilters(None, f.role, None, None, None) }
  function OnlySchool(f: SearchFilters): SearchFilters { SearchFilters(None, None, f.school, None, None) }
  function OnlyHouse(f: SearchFilters): SearchFilters { SearchFilters(None, None, None, f.house, None) }
  function OnlyPatronus(f: SearchFilters): SearchFilters { SearchFilters(None, None, None, None, f.patronus) }

  /** The search is the conjunction of the single-parameter searches; no parameter at all matches everything. */
  lemma MatchesIsConjunction(m: CharacterModel, f: SearchFilters)
    ensures Matches(m, BuildExample(f)) <==>
      && Matches(m, BuildExample(OnlyName(f)))
      && Matches(m, BuildExample(OnlyRole(f)))
      && Matches(m, BuildExample(OnlySchool(f)))
      && Matches(m, BuildExample(OnlyHouse(f)))
      && Matches(m, BuildExample(OnlyPatronus(f)))
    ensures Matches(m, BuildExample(SearchFilters(None, None, None, None, None)))
  {
  }

  /** The name parameter matches every name that contains it, at any position. */
  lemma NameMatchesBySubstring(m: CharacterModel, name: string)
    ensures Matches(m, BuildExample(SearchFilters(Some(name), None, None, None, None))) <==>
      exists i :: 0 <= i <= |m.name| && name <= m.name[i..]
  {
    IsSubstringIff(name, m.name);
  }

  /** The other parameters match by equality only: a value that merely occurs in the stored one does not match. */
  lemma OtherFieldsMatchExactly(m: CharacterModel, f: SearchFilters)
    requires Matches(m, BuildExample(f))
    ensures f.role.Some? ==> m.role == f.role.value
    ensures f.school.Some? ==> m.school == f.school.value
    ensures f.house.Some? ==> m.house == f.house.value
    ensures f.patronus.Some? ==> m.patronus == f.patronus.value
  {
  }

  /** `repository.findAll(example)`: the matching records, in natural order. */
  function Select(rs: seq<CharacterModel>, p: Probe): (r: seq<CharacterModel>)
    ensures forall m :: m in r ==> m in rs && Matches(m, p)
    ensures forall m :: m in rs && Matches(m, p) ==> m in r
    ensures |r| <= |rs|
  {
    if rs == [] then []
    else if Matches(rs[0], p) then [rs[0]] + Select(rs[1..], p)
    else Select(rs[1..], p)
  }

  /** Each matching record is selected as often as it is stored, and nothing else is selected. */
  lemma {:induction false} SelectCounts(rs: seq<CharacterModel>, p: Probe)
    ensures forall m :: multiset(Select(rs, p))[m] == if Matches(m, p) then multiset(rs)[m] else 0
  {
    if rs != [] {
      SelectCounts(rs[1..], p);
      assert rs == [rs[0]] + rs[1..];
    }
  }

  /** The selected records keep the ids present and distinct. */
  lemma {:induction false} SelectKeepsWellStored(rs: seq<CharacterModel>, p: Probe)
    requires WellStored(rs)
    ensures WellStored(Select(rs, p))
  {
    if rs != [] {
      SelectKeepsWellStored(rs[1..], p);
      forall y | y in Select(rs[1..], p) ensures y.id != rs[0].id {
        var j :| 0 <= j < |rs[1..]| && rs[1..][j] == y;
        assert rs[j + 1] == y;
      }
    }
  }

  /** Every character of a substring occurs in the whole. */
  lemma {:induction false} SubstringCharsOccur(part: string, whole: string, ch: char)
    requires IsSubstring(part, whole) && ch in part
    ensures ch in whole
    decreases |whole|
  {
    if part <= whole {
      var i :| 0 <= i < |part| && part[i] == ch;
      assert whole[i] == ch;
    } else {
      SubstringCharsOccur(part, whole[1..], ch);
    }
  }

  /** `Select` takes the first record exactly when it matches. */
  lemma {:induction false} SelectCons(m: CharacterModel, rest: seq<CharacterModel>, p: Probe)
    ensures Select([m] + rest, p) == (if Matches(m, p) then [m] else []) + Select(rest, p)
  {
    assert ([m] + rest)[1..] == rest;
  }

  /** `Select` on four records whose matching is already known. */
  lemma {:induction false} SelectFour(a: CharacterModel, b: CharacterModel, c: CharacterModel, d: CharacterModel, p: Probe,
                   ma: bool, mb: bool, mc: bool, md: bool)
    requires Matches(a, p) == ma && Matches(b, p) == mb && Matches(c, p) == mc && Matches(d, p) == md
    ensures Select([a, b, c, d], p) ==
      (if ma then [a] else []) + ((if mb then [b] else []) + ((if mc then [c] else []) + (if md then [d] else [])))
  {
    var sd := if md then [d] else [];
    var sc := if mc then [c] else [];
    var sb := if mb then [b] else [];
    var sa := if ma then [a] else [];
    assert [d] == [d] + [];
    SelectCons(d, [], p);
    assert [c, d] == [c] + [d];
    SelectCons(c, [d], p);
    assert [b, c, d] == [b] + [c, d];
    SelectCons(b, [c, d], p);
    assert [a, b, c, d] == [a] + [b, c, d];
    SelectCons(a, [b, c, d], p);
    assert Select([a, b, c, d], p) == sa + (sb + (sc + sd));
  }

  /** The records of the search examples; only the fields a search looks at matter. */
  function Record(id: string, name: string, role: string, house: string, patronus: string): CharacterModel {
    CharacterModel(Some(ObjectId(id)), name, role, "Hogwarts", house, patronus)
  }

  const Draco := Record("1", "Draco Malfoy", "Student", "1234Sonserina", "None")
  const Hermione := Record("2", "Hermione Granger", "Student", "4321Gryffindor", "Otter")
  const Rony := Record("3", "Rony Weasley", "Student", "4321Gryffindor", "Terrier")
  const Minerva := Record("4", "Minerva McGonagall", "Professor", "4321Gryffindor", "Cat")
  const Lucius := Record("2", "Lucius Malfoy", "Death Eater", "1234Sonserina", "CantHaveOne")
  const Narcissa := Record("3", "Narcissa Malfoy", "Death Eater", "1234Sonserina", "Terrier")

  function Search(name: Option<string>, role: Option<string>, house: Option<string>): Probe {
    BuildExample(SearchFilters(name, role, None, house, None))
  }

  /** An exact role selects the students. */
  lemma SearchByRoleExample()
    ensures Select([Draco, Hermione, Rony, Minerva], Search(None, Some("Student"), None)) == [Draco, Hermione, Rony]
  {
    SelectFour(Draco, Hermione, Rony, Minerva, Search(None, Some("Student"), None), true, true, true, false);
  }

  /** An exact house id selects that house's members. */
  lemma SearchByHouseExample()
    ensures Select([Draco, Hermione, Rony, Minerva], Search(None, None, Some("4321Gryffindor"))) == [Hermione, Rony, Minerva]
  {
    SelectFour(Draco, Hermione, Rony, Minerva, Search(None, None, Some("4321Gryffindor")), false, true, true, true);
  }

  /** Role and house together select those with both. */
  lemma SearchByRoleAndHouseExample()
    ensures Select([Draco, Hermione, Rony, Minerva], Search(None, Some("Student"), Some("4321Gryffindor"))) == [Hermione, Rony]
  {
    SelectFour(Draco, Hermione, Rony, Minerva, Search(None, Some("Student"), Some("4321Gryffindor")), false, true, true, false);
  }

  /** Prefixes of the role and house select nothing: those fields do not match by containment. */
  lemma SearchByPrefixesExample()
    ensures Select([Draco, Hermione, Rony, Minerva], Search(None, Some("Stu"), Some("4321Gryf"))) == []
  {
    SelectFour(Draco, Hermione, Rony, Minerva, Search(None, Some("Stu"), Some("4321Gryf")), false, false, false, false);
  }

  lemma MinervaIsNoMalfoy(p: Probe)
    requires p == Search(Some("Malfoy"), None, None)
    ensures !Matches(Minerva, p)
  {
    assert "Malfoy"[3] == 'f';
    if IsSubstring("Malfoy", Minerva.name) {
      SubstringCharsOccur("Malfoy", Minerva.name, 'f');
    }
  }

  lemma MalfoysAreMalfoys(p: Probe)
    requires p == Search(Some("Malfoy"), None, None)
    ensures Matches(Draco, p) && Matches(Lucius, p)
  {
  }

  lemma NarcissaIsMalfoy(p: Probe)
    requires p == Search(Some("Malfoy"), None, None)
    ensures Matches(Narcissa, p)
  {
  }

  // The two name searches take their probe as a parameter: a literal probe would let the
  // solver unfold the substring test on every literal name, which costs far more.

  /** Part of a name selects every character whose name contains it. */
  lemma SearchByNameExample(p: Probe)
    requires p == Search(Some("Malfoy"), None, None)
    ensures Select([Draco, Lucius, Narcissa, Minerva], p) == [Draco, Lucius, Narcissa]
  {
    MalfoysAreMalfoys(p);
    NarcissaIsMalfoy(p);
    MinervaIsNoMalfoy(p);
    SelectFour(Draco, Lucius, Narcissa, Minerva, p, true, true, true, false);
  }

  /** Part of a name and an exact role select those with both. */
  lemma SearchByNameAndRoleExample(p: Probe)
    requires p == Search(Some("Malfoy"), Some("Death Eater"), None)
    ensures Select([Draco, Lucius, Narcissa, Minerva], p) == [Lucius, Narcissa]
  {
    var name := Search(Some("Malfoy"), None, None);
    MalfoysAreMalfoys(name);
    NarcissaIsMalfoy(name);
    SelectFour(Draco, Lucius, Narcissa, Minerva, p, false, true, true, false);
  }

  // ---------------------------------------------------------------- the collection

  /** Every stored record has an id, and no two share one. */
  ghost predicate WellStored(rs: seq<CharacterModel>) {
    && (forall m :: m in rs ==> m.id.Some?)
    && (forall i, j :: 0 <= i < j < |rs| ==> rs[i].id != rs[j].id)
  }

  /** The ids in use. */
  function IdsOf(rs: seq<CharacterModel>): set<ObjectId> {
    set m | m in rs && m.id.Some? :: m.id.value
  }

  /** `repository.findById(oid)`. */
  function Lookup(rs: seq<CharacterModel>, oid: ObjectId): (r: Option<CharacterModel>)
    ensures r.Some? <==> oid in IdsOf(rs)
    ensures r.Some? ==> r.value in rs && r.value.id == Some(oid)
  {
    if rs == [] then None
    else if rs[0].id == Some(oid) then Some(rs[0])
    else
      assert forall m :: m in rs[1..] ==> m in rs;
      assert oid !in IdsOf(rs[1..]) ==> oid !in IdsOf(rs);
      Lookup(rs[1..], oid)
  }

  /** `repository.save(m)` for a record with an id: replace the record with that id, or append. */
  function Upsert(rs: seq<CharacterModel>, m: CharacterModel): (r: seq<CharacterModel>)
    requires m.id.Some?
  {
    if rs == [] then [m]
    else if rs[0].id == m.id then [m] + rs[1..]
    else [rs[0]] + Upsert(rs[1..], m)
  }

  /** `repository.deleteById(oid)`. */
  function RemoveId(rs: seq<CharacterModel>, oid: ObjectId): (r: seq<CharacterModel>)
    ensures forall m :: m in r ==> m in rs
  {
    if rs == [] then []
    else if rs[0].id == Some(oid) then RemoveId(rs[1..], oid)
    else [rs[0]] + RemoveId(rs[1..], oid)
  }

  /** After an upsert, the id finds the new record and every other id finds what it found before. */
  lemma {:induction false} LookupUpsert(rs: seq<CharacterModel>, m: CharacterModel, oid: ObjectId)
    requires m.id.Some?
    ensures Lookup(Upsert(rs, m), oid) == if m.id == Some(oid) then Some(m) else Lookup(rs, oid)
  {
    if rs != [] && rs[0].id != m.id {
      LookupUpsert(rs[1..], m, oid);
    }
  }

  lemma {:induction false} UpsertKeepsWellStored(rs: seq<CharacterModel>, m: CharacterModel)
    requires m.id.Some? && WellStored(rs)
    ensures WellStored(Upsert(rs, m))
  {
    if rs != [] && rs[0].id != m.id {
      UpsertKeepsWellStored(rs[1..], m);
      var tail := Upsert(rs[1..], m);
      forall x | x in tail ensures x.id != rs[0].id {
        var oid := x.id.value;
        if oid != m.id.value {
          LookupUpsert(rs[1..], m, oid);
          var y := Lookup(rs[1..], oid).value;
          var j :| 0 <= j < |rs[1..]| && rs[1..][j] == y;
          assert rs[j + 1] == y;
        }
      }
    }
  }

  /** A save with an id adds exactly that id to the ids in use. */
  lemma {:induction false} UpsertIds(rs: seq<CharacterModel>, m: CharacterModel)
    requires m.id.Some?
    ensures IdsOf(Upsert(rs, m)) == IdsOf(rs) + {m.id.value}
  {
    if rs == [] {
    } else if rs[0].id != m.id {
      UpsertIds(rs[1..], m);
      assert IdsOf(rs) == IdsOf([rs[0]]) + IdsOf(rs[1..]);
      assert IdsOf(Upsert(rs, m)) == IdsOf([rs[0]]) + IdsOf(Upsert(rs[1..], m));
    } else {
      assert IdsOf(rs) == {m.id.value} + IdsOf(rs[1..]);
      assert IdsOf(Upsert(rs, m)) == {m.id.value} + IdsOf(rs[1..]);
    }
  }


  /** After a delete, the id finds nothing and every other id finds what it found before. */
  lemma {:induction false} LookupRemoveId(rs: seq<CharacterModel>, x: ObjectId, oid: ObjectId)
    ensures Lookup(RemoveId(rs, x), oid) == if oid == x then None else Lookup(rs, oid)
  {
    if rs != [] {
      LookupRemoveId(rs[1..], x, oid);
    }
  }

  lemma {:induction false} RemoveIdKeepsWellStored(rs: seq<CharacterModel>, x: ObjectId)
    requires WellStored(rs)
    ensures WellStored(RemoveId(rs, x))
  {
    if rs != [] {
      RemoveIdKeepsWellStored(rs[1..], x);
      var tail := RemoveId(rs[1..], x);
      forall y | y in tail ensures y.id != rs[0].id {
        var j :| 0 <= j < |rs[1..]| && rs[1..][j] == y;
        assert rs[j + 1] == y;
      }
    }
  }

  /** An id that no record has: longer than every id in use. */
  method FreshObjectId(taken: set<ObjectId>) returns (oid: ObjectId)
    ensures oid !in taken
  {
    var longest: nat := 0;
    var rest := taken;
    while rest != {}
      invariant rest <= taken
      invariant forall t :: t in taken && t !in rest ==> |t.hex| <= longest
      decreases |rest|
    {
      var t :| t in rest;
      if |t.hex| > longest {
        longest := |t.hex|;
      }
      rest := rest - {t};
    }
    oid := ObjectId(seq(longest + 1, _ => '0'));
  }

  class CharacterMongoDBAdapter {
    var collection: seq<CharacterModel>   // the "character" collection, in natural order
    var cache: map<string, Character>     // the "characters" cache, keyed by character id

    ghost predicate Valid()
      reads this
    {
      WellStored(collection)
    }

    /** Every cached character is what a lookup of its id in the collection would return. */
    ghost predicate CacheCoherent()
      reads this
    {
      forall k :: k in cache ==>
        Lookup(collection, ObjectId(k)).Some? && cache[k] == ToCharacter(Lookup(collection, ObjectId(k)).value)
    }

    constructor ()
      ensures Valid() && CacheCoherent()
      ensures collection == [] && cache == map[]
    {
      collection := [];
      cache := map[];
    }

    /** `repository.save(m)`: a record without id gets a fresh one and is appended; one with an id is upserted. */
    method Save(m: CharacterModel) returns (saved: CharacterModel)
      requires Valid()
      modifies this`collection
      ensures Valid()
      ensures saved.id.Some? && saved == m.(id := saved.id)
      ensures m.id.Some? ==> saved == m && collection == Upsert(old(collection), m)
      ensures m.id.None? ==> saved.id.value !in IdsOf(old(collection)) && collection == old(collection) + [saved]
    {
      if m.id.Some? {
        UpsertKeepsWellStored(collection, m);
        collection := Upsert(collection, m);
        saved := m;
      } else {
        var oid := FreshObjectId(IdsOf(collection));
        saved := m.(id := Some(oid));
        forall i | 0 <= i < |collection| ensures collection[i].id != saved.id {
          assert collection[i] in collection;
        }
        collection := collection + [saved];
      }
    }

    /** `findAll(page)`: the records of page `page` of size 100, mapped to characters. */
    function FindAll(page: nat): (p: Page)
      reads this
      requires Valid()
      ensures p.number == page && p.size == PageSize && |p.content| <= PageSize
      ensures forall i :: 0 <= i < |p.content| ==>
        page * PageSize + i < |collection| && p.content[i] == ToCharacter(collection[page * PageSize + i])
      ensures |p.content| ==
        if page * PageSize >= |collection| then 0
        else if |collection| - page * PageSize < PageSize then |collection| - page * PageSize
        else PageSize
    {
      var lo := if page * PageSize <= |collection| then page * PageSize else |collection|;
      var hi := if lo + PageSize <= |collection| then lo + PageSize else |collection|;
      Page(page, PageSize, ToCharacters(collection[lo..hi]))
    }

    /** `findBy(name, role, school, house, patronus)`. */
    function FindBy(f: SearchFilters): (cs: seq<Character>)
      reads this
      requires Valid()
      ensures forall c :: c in cs <==>
        exists m :: m in collection && Matches(m, BuildExample(f)) && c == ToCharacter(m)
      // each matching record appears once
      ensures forall i, j :: 0 <= i < j < |cs| ==> cs[i].id != cs[j].id
    {
      var found := Select(collection, BuildExample(f));
      SelectKeepsWellStored(collection, BuildExample(f));
      var cs := ToCharacters(found);
      assert forall m :: m in found ==> ToCharacter(m) in cs by {
        forall m | m in found ensures ToCharacter(m) in cs {
          var i :| 0 <= i < |found| && found[i] == m;
          assert cs[i] == ToCharacter(m);
        }
      }
      cs
    }

    /** `findBy(id)` behind `@Cacheable("characters")`. */
    method FindById(id: string) returns (r: Option<Character>)
      requires Valid()
      modifies this`cache
      ensures Valid()
      // a hit is served from the cache; a miss reads the collection and caches what it found
      ensures id in old(cache) ==> r == Some(old(cache)[id]) && cache == old(cache)
      ensures id !in old(cache) ==>
        && r == (if Lookup(collection, ObjectId(id)).Some? then Some(ToCharacter(Lookup(collection, ObjectId(id)).value)) else None)
        && cache - {id} == old(cache)
        && (r.Some? ==> cache == old(cache)[id := r.value])
      // with a coherent cache, the answer is the collection's either way
      ensures old(CacheCoherent()) ==> CacheCoherent()
      ensures old(CacheCoherent()) ==>
        r == if Lookup(collection, ObjectId(id)).Some? then Some(ToCharacter(Lookup(collection, ObjectId(id)).value)) else None
    {
      if id in cache {
        return Some(cache[id]);
      }
      var found := Lookup(collection, ObjectId(id));
      r := if found.Some? then Some(ToCharacter(found.value)) else None;
      if r.Some? {
        cache := cache[id := r.value];
      }
    }

    /** `create(character)`: save the mapped record and map back what was saved. */
    method Create(c: Character) returns (r: Character)
      requires Valid()
      modifies this`collection
      ensures Valid()
      ensures r.id.Some? && r == ToCharacter(FromCharacter(c).(id := Some(ObjectId(r.id.value))))
      ensures c.id.None? ==>
        && ObjectId(r.id.value) !in IdsOf(old(collection))
        && collection == old(collection) + [FromCharacter(r)]
      ensures c.id.Some? ==> r == c.(houseName := None) && collection == Upsert(old(collection), FromCharacter(c))
      // creating without an id never makes a cached entry stale
      ensures c.id.None? && old(CacheCoherent()) ==> CacheCoherent()
    {
      var saved := Save(FromCharacter(c));
      r := ToCharacter(saved);
      if c.id.None? && old(CacheCoherent()) {
        forall k | k in cache
          ensures Lookup(collection, ObjectId(k)) == Lookup(old(collection), ObjectId(k))
        {
          LookupAppend(old(collection), saved, ObjectId(k));
        }
      }
    }

    /** `update(character)` behind `@CachePut(value = "characters", key = "#character.id")`. */
    method Update(c: Character) returns (r: Character)
      requires Valid()
      modifies this`collection, this`cache
      ensures Valid()
      ensures r.id.Some? && r == ToCharacter(FromCharacter(c).(id := Some(ObjectId(r.id.value))))
      ensures c.id.Some? ==>
        && r == c.(houseName := None)
        && collection == Upsert(old(collection), FromCharacter(c))
        && Lookup(collection, ObjectId(c.id.value)) == Some(FromCharacter(c))
        && cache == old(cache)[c.id.value := r]
      ensures c.id.None? ==> collection == old(collection) + [FromCharacter(r)] && cache == old(cache)
      ensures old(CacheCoherent()) ==> CacheCoherent()
    {
      var saved := Save(FromCharacter(c));
      r := ToCharacter(saved);
      if c.id.Some? {
        LookupUpsert(old(collection), FromCharacter(c), ObjectId(c.id.value));
        cache := cache[c.id.value := r];
        if old(CacheCoherent()) {
          forall k | k in cache && k != c.id.value
            ensures Lookup(collection, ObjectId(k)) == Lookup(old(collection), ObjectId(k))
          {
            LookupUpsert(old(collection), FromCharacter(c), ObjectId(k));
          }
        }
      } else if old(CacheCoherent()) {
        forall k | k in cache
          ensures Lookup(collection, ObjectId(k)) == Lookup(old(collection), ObjectId(k))
        {
          LookupAppend(old(collection), saved, ObjectId(k));
        }
      }
    }

    /** `delete(id)` behind `@CacheEvict(value = "characters", key = "#id")`. */
    method Delete(id: string)
      requires Valid()
      modifies this`collection, this`cache
      ensures Valid()
      ensures collection == RemoveId(old(collection), ObjectId(id))
      ensures Lookup(collection, ObjectId(id)) == None
      ensures cache == old(cache) - {id}
      ensures old(CacheCoherent()) ==> CacheCoherent()
    {
      RemoveIdKeepsWellStored(collection, ObjectId(id));
      LookupRemoveId(collection, ObjectId(id), ObjectId(id));
      collection := RemoveId(collection, ObjectId(id));
      cache := cache - {id};
      if old(CacheCoherent()) {
        forall k | k in cache
          ensures Lookup(collection, ObjectId(k)) == Lookup(old(collection), ObjectId(k))
        {
          LookupRemoveId(old(collection), ObjectId(id), ObjectId(k));
        }
      }
    }
  }

  /** Appending a record with a fresh id changes no existing lookup. */
  lemma {:induction false} LookupAppend(rs: seq<CharacterModel>, m: CharacterModel, oid: ObjectId)
    requires oid in IdsOf(rs)
    ensures Lookup(rs + [m], oid) == Lookup(rs, oid)
  {
    if rs[0].id != Some(oid) {
      assert (rs + [m])[1..] == rs[1..] + [m];
      assert oid in IdsOf(rs[1..]) by {
        var x :| x in rs && x.id == Some(oid);
        var i :| 0 <= i < |rs| && rs[i] == x;
        assert i != 0;
        assert rs[1..][i - 1] == x;
      }
      LookupAppend(rs[1..], m, oid);
    }
  }
}
