/**
 * Every exception class that crosses the modelled boundaries, as one tagged datatype.
 * A variant carries exactly what the Java constructor records: a message where the
 * constructor takes one, the typed payload (character, id, status code) and the cause.
 */
module Errors {
  import opened Wrappers
  import opened Domain

  datatype Exception =
    // java.lang.IllegalArgumentException
    | IllegalArgument(message: string)
    // any other unchecked exception raised by a collaborator (RuntimeException, WebClient errors, ...)
    | Unchecked(message: string)
    // IManageCharacters.InvalidHouseProvidedException, a subclass of IllegalArgumentException
    | InvalidHouseProvided(message: string)
    // IManageCharacters.CouldNotCreateCharacterException
    | CouldNotCreateCharacter(character: Character, message: string, cause: Exception)
    // IManageCharacters.CouldNotUpdateCharacterException
    | CouldNotUpdateCharacter(character: Character, message: string, cause: Exception)
    // IManageCharacters.CouldNotSearchCharactersException
    | CouldNotSearchCharacters(cause: Exception)
    // IManageCharacters.CouldNotDeleteCharacterException
    | CouldNotDeleteCharacter(id: string, cause: Exception)
    // IDisplayHouses.CouldNotSearchHousesException
    | CouldNotSearchHouses(cause: Exception)
    // IStoreCharacters.ErrorSearchingCharactersException
    | ErrorSearchingCharacters(cause: Exception)
    // IStoreCharacters.ErrorStoringCharacterException
    | ErrorStoringCharacter(message: string, cause: Exception)
    // IStoreCharacters.ErrorDeletingCharacterException
    | ErrorDeletingCharacter(message: string, cause: Exception)
    // IObtainHousesInfo.ErrorObtainingHousesException
    | ErrorObtainingHouses(cause: Exception)
    // PotterApiClient.PotterApiCallException
    | PotterApiCall(message: string, statusCode: int)

  /** `instanceof IllegalArgumentException`. */
  predicate IsIllegalArgument(e: Exception) {
    e.IllegalArgument? || e.InvalidHouseProvided?
  }

  /** The detail message each constructor passes to its superclass. */
  function Message(e: Exception): string {
    match e
    case IllegalArgument(m) => m
    case Unchecked(m) => m
    case InvalidHouseProvided(m) => m
    case CouldNotCreateCharacter(_, m, _) => m
    case CouldNotUpdateCharacter(_, m, _) => m
    case CouldNotSearchCharacters(_) => "Could not search characters"
    case CouldNotDeleteCharacter(_, _) => "Could not delete characters"
    case CouldNotSearchHouses(_) => "Could not search houses"
    case ErrorSearchingCharacters(_) => "Error searching characters"
    case ErrorStoringCharacter(m, _) => m
    case ErrorDeletingCharacter(m, _) => m
    case ErrorObtainingHouses(_) => "Error obtaining houses"
    case PotterApiCall(m, _) => m
  }

  /** `getCause()`; `None` stands for a null cause. */
  function Cause(e: Exception): Option<Exception> {
    match e
    case CouldNotCreateCharacter(_, _, c) => Some(c)
    case CouldNotUpdateCharacter(_, _, c) => Some(c)
    case CouldNotSearchCharacters(c) => Some(c)
    case CouldNotDeleteCharacter(_, c) => Some(c)
    case CouldNotSearchHouses(c) => Some(c)
    case ErrorSearchingCharacters(c) => Some(c)
    case ErrorStoringCharacter(_, c) => Some(c)
    case ErrorDeletingCharacter(_, c) => Some(c)
    case ErrorObtainingHouses(c) => Some(c)
    case _ => None
  }
}
