/**
 * CharactersService: validates the id of a write, resolves and denormalises the referenced
 * house, delegates to the character store and translates every collaborator failure into
 * the exception the inbound ports declare.
 *
 * The two collaborators are interfaces, so they are given as arbitrary total functions from
 * the call's argument to what the call returns or throws: every property below holds for
 * every implementation of the ports. The service's own observable effect is the sequence of
 * calls it makes on them, which it records.
 */
module Service {
  import opened Wrappers
  import opened Domain
  import opened Errors
  import opened ManageCharacters

  /** What each call of the outbound port IObtainHousesInfo returns or throws. */
  datatype HousesPort = HousesPort(
    getHouses: () -> Result<seq<House>, Exception>,
    getHouseById: string -> Result<Option<House>, Exception>)

  /** What each call of the outbound port IStoreCharacters returns or throws. */
  datatype CharactersPort = CharactersPort(
    create: Character -> Result<Character, Exception>,
    update: Character -> Result<Character, Exception>,
    delete: string -> Outcome<Exception>,
    findAll: int -> Result<Page, Exception>,
    findById: string -> Result<Option<Character>, Exception>,
    findBy: SearchFilters -> Result<seq<Character>, Exception>)

  /** A call made on the house port, with its argument. */
  datatype HouseCall = GetHouses | GetHouseById(id: string)

  /** A call made on the character store, with its argument. */
  datatype StoreCall =
    | CreateCall(character: Character)
    | UpdateCall(character: Character)
    | DeleteCall(id: string)
    | FindAllCall(page: int)
    | FindByIdCall(id: string)
    | FindByCall(filters: SearchFilters)

  const CreateWithIdMessage: string := "Character Id must be null - Did you mean to update it?"
  const UpdateWithoutIdMessage: string := "Character Id must not be null - Did you mean to create it?"

  /**
   * The catch blocks of `create`: an IllegalArgumentException is rethrown as it is, anything
   * else is wrapped together with the character the caller passed in.
   */
  function CreateFailure(c: Character, e: Exception): (r: Exception)
    ensures DeclaredByCreate(r)
    ensures IsIllegalArgument(e) ==> r == e
    ensures !IsIllegalArgument(e) ==>
      r.CouldNotCreateCharacter? && r.character == c && Message(r) == Message(e) && Cause(r) == Some(e)
  {
    if IsIllegalArgument(e) then e else CouldNotCreateCharacterException(c, Message(e), e)
  }

  /** The catch blocks of `update`, symmetric to CreateFailure. */
  function UpdateFailure(c: Character, e: Exception): (r: Exception)
    ensures DeclaredByUpdate(r)
    ensures IsIllegalArgument(e) ==> r == e
    ensures !IsIllegalArgument(e) ==>
      r.CouldNotUpdateCharacter? && r.character == c && Message(r) == Message(e) && Cause(r) == Some(e)
  {
    if IsIllegalArgument(e) then e else CouldNotUpdateCharacterException(c, Message(e), e)
  }

  /**
   * The catch block of the three searches: the store's ErrorSearchingCharactersException
   * becomes CouldNotSearchCharactersException with it as cause; a result, or any other
   * (unchecked) exception, passes through unchanged.
   */
  function SearchOutcome<T>(o: Result<T, Exception>): (r: Result<T, Exception>)
    ensures r.Ok? <==> o.Ok?
    ensures o.Ok? ==> r.value == o.value
    ensures o.Err? && o.error.ErrorSearchingCharacters? ==> r.error == CouldNotSearchCharactersException(o.error)
    ensures o.Err? && !o.error.ErrorSearchingCharacters? ==> r.error == o.error
    ensures r.Err? ==> !r.error.ErrorSearchingCharacters?
  {
    match o
    case Ok(_) => o
    case Err(e) => if e.ErrorSearchingCharacters? then Err(CouldNotSearchCharactersException(e)) else o
  }

  /** The catch block of `delete`: ErrorDeletingCharacterException becomes CouldNotDeleteCharacterException for `id`. */
  function DeleteOutcome(id: string, o: Outcome<Exception>): (r: Outcome<Exception>)
    ensures r.Pass? <==> o.Pass?
    ensures o.Fail? && o.error.ErrorDeletingCharacter? ==> r.error == CouldNotDeleteCharacterException(id, o.error)
    ensures o.Fail? && !o.error.ErrorDeletingCharacter? ==> r.error == o.error
    ensures r.Fail? ==> !r.error.ErrorDeletingCharacter?
  {
    match o
    case Pass => Pass
    case Fail(e) => if e.ErrorDeletingCharacter? then Fail(CouldNotDeleteCharacterException(id, e)) else o
  }

  /** The catch block of `findHouses`: ErrorObtainingHousesException becomes CouldNotSearchHousesException. */
  function HousesOutcome(o: Result<seq<House>, Exception>): (r: Result<seq<House>, Exception>)
    ensures r.Ok? <==> o.Ok?
    ensures o.Ok? ==> r.value == o.value
    ensures o.Err? && o.error.ErrorObtainingHouses? ==> r.error == CouldNotSearchHousesException(o.error)
    ensures o.Err? && !o.error.ErrorObtainingHouses? ==> r.error == o.error
    ensures r.Err? ==> !r.error.ErrorObtainingHouses?
  {
    match o
    case Ok(_) => o
    case Err(e) => if e.ErrorObtainingHouses? then Err(CouldNotSearchHousesException(e)) else o
  }

  /**
   * The house-resolution step shared by `create` and `update`: the character to hand to the
   * store, or what stops the write (an unknown house, or the port's own failure).
   */
  function Denormalised(c: Character, lookup: Result<Option<House>, Exception>): (r: Result<Character, Exception>)
    ensures lookup.Ok? && lookup.value.Some? ==>
      r.Ok? && r.value.houseName == Some(lookup.value.value.name) && r.value.(houseName := c.houseName) == c
    ensures lookup.Ok? && lookup.value.None? ==> r == Err(InvalidHouseProvidedException(c.house))
    ensures lookup.Err? ==> r == Err(lookup.error)
  {
    match lookup
    case Err(e) => Err(e)
    case Ok(None) => Err(InvalidHouseProvidedException(c.house))
    case Ok(Some(h)) => Ok(WithHouseName(c, h.name))
  }

  class CharactersService {
    const characters: CharactersPort  // charactersRepository
    const houses: HousesPort          // housesRepository
    var storeCalls: seq<StoreCall>    // every call made on the store, in order
    var houseCalls: seq<HouseCall>    // every call made on the house port, in order

    constructor (characters: CharactersPort, houses: HousesPort)
      ensures this.characters == characters && this.houses == houses
      ensures storeCalls == [] && houseCalls == []
    {
      this.characters := characters;
      this.houses := houses;
      storeCalls := [];
      houseCalls := [];
    }

    /** One `getHouseById` on the house port, resolved into the character to save. */
    method ResolveHouse(c: Character) returns (r: Result<Character, Exception>)
      modifies this`houseCalls
      ensures houseCalls == old(houseCalls) + [GetHouseById(c.house)]
      ensures r == Denormalised(c, houses.getHouseById(c.house))
    {
      houseCalls := houseCalls + [GetHouseById(c.house)];
      r := Denormalised(c, houses.getHouseById(c.house));
    }

    method Create(c: Character) returns (r: Result<Character, Exception>)
      modifies this
      ensures r.Err? ==> DeclaredByCreate(r.error)
      ensures r.Err? && r.error.CouldNotCreateCharacter? ==> r.error.character == c
      // an id already set: rejected before any collaborator is called
      ensures c.id.Some? ==> r == Err(IllegalArgument(CreateWithIdMessage)) && Cause(r.error) == None
      ensures c.id.Some? ==> houseCalls == old(houseCalls) && storeCalls == old(storeCalls)
      // otherwise: exactly one house lookup, for the referenced house
      ensures c.id.None? ==> houseCalls == old(houseCalls) + [GetHouseById(c.house)]
      ensures c.id.None? ==>
        match houses.getHouseById(c.house)
        case Err(e) => r == Err(CreateFailure(c, e)) && storeCalls == old(storeCalls)
        case Ok(None) => r == Err(InvalidHouseProvidedException(c.house)) && storeCalls == old(storeCalls)
        case Ok(Some(h)) =>
          && storeCalls == old(storeCalls) + [CreateCall(WithHouseName(c, h.name))]
          && match characters.create(WithHouseName(c, h.name))
             case Ok(saved) => r == Ok(saved)
             case Err(e) => r == Err(CreateFailure(c, e))
    {
      if c.id.Some? {
        return Err(IllegalArgument(CreateWithIdMessage));
      }
      var toSave := ResolveHouse(c);
      if toSave.Err? {
        return Err(CreateFailure(c, toSave.error));
      }
      storeCalls := storeCalls + [CreateCall(toSave.value)];
      var saved := characters.create(toSave.value);
      r := if saved.Ok? then saved else Err(CreateFailure(c, saved.error));
    }

    method Update(c: Character) returns (r: Result<Character, Exception>)
      modifies this
      ensures r.Err? ==> DeclaredByUpdate(r.error)
      ensures r.Err? && r.error.CouldNotUpdateCharacter? ==> r.error.character == c
      // no id: rejected before any collaborator is called
      ensures c.id.None? ==> r == Err(IllegalArgument(UpdateWithoutIdMessage)) && Cause(r.error) == None
      ensures c.id.None? ==> houseCalls == old(houseCalls) && storeCalls == old(storeCalls)
      // otherwise: exactly one house lookup, for the referenced house
      ensures c.id.Some? ==> houseCalls == old(houseCalls) + [GetHouseById(c.house)]
      ensures c.id.Some? ==>
        match houses.getHouseById(c.house)
        case Err(e) => r == Err(UpdateFailure(c, e)) && storeCalls == old(storeCalls)
        case Ok(None) => r == Err(InvalidHouseProvidedException(c.house)) && storeCalls == old(storeCalls)
        case Ok(Some(h)) =>
          && storeCalls == old(storeCalls) + [UpdateCall(WithHouseName(c, h.name))]
          && match characters.update(WithHouseName(c, h.name))
             case Ok(saved) => r == Ok(saved)
             case Err(e) => r == Err(UpdateFailure(c, e))
    {
      if c.id.None? {
        return Err(IllegalArgument(UpdateWithoutIdMessage));
      }
      var toSave := ResolveHouse(c);
      if toSave.Err? {
        return Err(UpdateFailure(c, toSave.error));
      }
      storeCalls := storeCalls + [UpdateCall(toSave.value)];
      var saved := characters.update(toSave.value);
      r := if saved.Ok? then saved else Err(UpdateFailure(c, saved.error));
    }

    method Delete(id: string) returns (r: Outcome<Exception>)
      modifies this`storeCalls
      ensures storeCalls == old(storeCalls) + [DeleteCall(id)]
      ensures r == DeleteOutcome(id, characters.delete(id))
    {
      storeCalls := storeCalls + [DeleteCall(id)];
      r := DeleteOutcome(id, characters.delete(id));
    }

    method FindAll(page: int) returns (r: Result<Page, Exception>)
      modifies this`storeCalls
      ensures storeCalls == old(storeCalls) + [FindAllCall(page)]
      ensures r == SearchOutcome(characters.findAll(page))
    {
      storeCalls := storeCalls + [FindAllCall(page)];
      r := SearchOutcome(characters.findAll(page));
    }

    method FindById(id: string) returns (r: Result<Option<Character>, Exception>)
      modifies this`storeCalls
      ensures storeCalls == old(storeCalls) + [FindByIdCall(id)]
      ensures r == SearchOutcome(characters.findById(id))
    {
      storeCalls := storeCalls + [FindByIdCall(id)];
      r := SearchOutcome(characters.findById(id));
    }

    method FindBy(filters: SearchFilters) returns (r: Result<seq<Character>, Exception>)
      modifies this`storeCalls
      ensures storeCalls == old(storeCalls) + [FindByCall(filters)]
      ensures r == SearchOutcome(characters.findBy(filters))
    {
      storeCalls := storeCalls + [FindByCall(filters)];
      r := SearchOutcome(characters.findBy(filters));
    }

    method FindHouses() returns (r: Result<seq<House>, Exception>)
      modifies this`houseCalls
      ensures houseCalls == old(houseCalls) + [GetHouses]
      ensures r == HousesOutcome(houses.getHouses())
    {
      houseCalls := houseCalls + [GetHouses];
      r := HousesOutcome(houses.getHouses());
    }
  }
}
