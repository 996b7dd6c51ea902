/**
 * The inbound port IManageCharacters: the exception classes it declares and which of them
 * each write operation may surface.
 */
module ManageCharacters {
  import opened Wrappers
  import opened Domain
  import opened Errors

  const InvalidHousePrefix: string := "Invalid house provided as argument - House id: "

  /** `new InvalidHouseProvidedException(houseProvided)`. */
  function InvalidHouseProvidedException(houseProvided: string): (e: Exception)
    ensures IsIllegalArgument(e)
    ensures Message(e) == InvalidHousePrefix + houseProvided
    ensures Cause(e) == None
  {
    InvalidHouseProvided(InvalidHousePrefix + houseProvided)
  }

  /** The message of an InvalidHouseProvidedException names the house id it was built from. */
  lemma {:induction false} InvalidHouseMessageNamesHouse(a: string, b: string)
    requires Message(InvalidHouseProvidedException(a)) == Message(InvalidHouseProvidedException(b))
    ensures a == b
  {
    var ma := Message(InvalidHouseProvidedException(a));
    assert ma[|InvalidHousePrefix|..] == a;
    assert ma[|InvalidHousePrefix|..] == b;
  }

  /** `new CouldNotCreateCharacterException(character, message, cause)`. */
  function CouldNotCreateCharacterException(character: Character, message: string, cause: Exception): (e: Exception)
    ensures e.CouldNotCreateCharacter? && e.character == character
    ensures Message(e) == message && Cause(e) == Some(cause)
    ensures !IsIllegalArgument(e)
  {
    CouldNotCreateCharacter(character, message, cause)
  }

  /** `new CouldNotUpdateCharacterException(character, message, cause)`. */
  function CouldNotUpdateCharacterException(character: Character, message: string, cause: Exception): (e: Exception)
    ensures e.CouldNotUpdateCharacter? && e.character == character
    ensures Message(e) == message && Cause(e) == Some(cause)
    ensures !IsIllegalArgument(e)
  {
    CouldNotUpdateCharacter(character, message, cause)
  }

  /** `new CouldNotSearchCharactersException(cause)`: a fixed message whatever the cause. */
  function CouldNotSearchCharactersException(cause: Exception): (e: Exception)
    ensures e.CouldNotSearchCharacters?
    ensures Message(e) == "Could not search characters" && Cause(e) == Some(cause)
  {
    CouldNotSearchCharacters(cause)
  }

  /** `new CouldNotDeleteCharacterException(id, cause)`: carries the id, fixed message. */
  function CouldNotDeleteCharacterException(id: string, cause: Exception): (e: Exception)
    ensures e.CouldNotDeleteCharacter? && e.id == id
    ensures Message(e) == "Could not delete characters" && Cause(e) == Some(cause)
  {
    CouldNotDeleteCharacter(id, cause)
  }

  /** `new CouldNotSearchHousesException(cause)` of the sibling port IDisplayHouses. */
  function CouldNotSearchHousesException(cause: Exception): (e: Exception)
    ensures e.CouldNotSearchHouses?
    ensures Message(e) == "Could not search houses" && Cause(e) == Some(cause)
  {
    CouldNotSearchHouses(cause)
  }

  /** What `create` declares it may throw: IllegalArgumentException or CouldNotCreateCharacterException. */
  predicate DeclaredByCreate(e: Exception) {
    IsIllegalArgument(e) || e.CouldNotCreateCharacter?
  }

  /** What `update` declares it may throw: IllegalArgumentException or CouldNotUpdateCharacterException. */
  predicate DeclaredByUpdate(e: Exception) {
    IsIllegalArgument(e) || e.CouldNotUpdateCharacter?
  }
}
