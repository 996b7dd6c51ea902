# magicreator character service, modelled in Dafny

The system keeps Harry Potter characters in a document store and checks each character's
house against an external house API. This project models its core:

- `CharactersService` (module `Service`). It checks the id of a write and resolves the
  referenced house through the house port. It copies the house's display name onto the
  character, calls the character store, and turns every collaborator failure into the
  exception that the inbound ports `IManageCharacters` and `IDisplayHouses` declare. Both
  ports are interfaces. The model takes each one as an arbitrary total function from
  argument to result-or-exception, so every property holds for every implementation. The
  service records every call it makes on the two ports, in order.
- `IManageCharacters` (module `ManageCharacters`): the exception classes the port declares,
  with their messages, payloads and causes. All exceptions in the model are variants of one
  datatype (module `Errors`).
- `PotterApiClient` (module `HouseClient`): one GET of the house list. It retries only
  `PotterApiCallException`, at most three times after the first request. Once the retries
  run out it fails with status 503. The upstream server is a function from a request's
  number to its reply, and the client returns how many requests it sent.
- `PotterApiHttpAdapter` (module `HouseProvider`): maps upstream records to houses and looks
  a house up by id with a first-match scan, behind the `houses` cache. It also has the
  hourly refresh that writes every fetched house into that cache. The cache annotations are
  written out as explicit map updates.
- `CharacterMongoDBAdapter` (module `CharacterStore`): maps characters to stored records and
  back (the house name is not stored). It searches by example: the name matches as a
  substring, the other fields match exactly, absent parameters are ignored, and all
  constraints must hold together. It pages the collection 100 records at a time. It keeps
  the `characters` cache: read-through on a lookup by id, a put on update, an evict on
  delete. The collection is a sequence of records in natural order, and saving a record
  without an id appends it under a fresh id.

Where the documentation and the code disagree, the model follows the code:

- `create` and `update` can also surface `InvalidHouseProvidedException`. It is a subclass
  of `IllegalArgumentException`, so the service rethrows it unwrapped.
- The document adapter implements `IManageCharactersPersistence`, not `IStoreCharacters`.
  The service therefore sees its store only through the abstract port `Service.CharactersPort`.
- The stored record has six fields. It has no house name, even though the adapter's
  integration test reads one.
- On a miss, `getHouseById` catches every exception, including the
  `ErrorObtainingHousesException` that `getHouses` already raised, and wraps it once more.
- The refresh swallows only `ErrorObtainingHousesException`. Any other exception
  propagates to the scheduler.

## Model

| member | source | states |
|---|---|---|
| `Domain.WithHouseName` | src/main/java/com/rods/magicreator/domain/models/Character.java:15-23 | the copy has the given house name and differs from the original in nothing else |
| `ManageCharacters.InvalidHouseProvidedException` | src/main/java/com/rods/magicreator/domain/ports/in/IManageCharacters.java:30-34 | the exception is an IllegalArgumentException with no cause, and its message is the fixed prefix followed by the house id |
| `ManageCharacters.InvalidHouseMessageNamesHouse` | src/main/java/com/rods/magicreator/domain/ports/in/IManageCharacters.java:30-34 | two such exceptions with equal messages were built from the same house id, so the message identifies the house |
| `ManageCharacters.CouldNotCreateCharacterException` | src/main/java/com/rods/magicreator/domain/ports/in/IManageCharacters.java:20-28 | carries the character, the given message and the cause, and is not an IllegalArgumentException |
| `ManageCharacters.CouldNotUpdateCharacterException` | src/main/java/com/rods/magicreator/domain/ports/in/IManageCharacters.java:36-44 | carries the character, the given message and the cause, and is not an IllegalArgumentException |
| `ManageCharacters.CouldNotSearchCharactersException` | src/main/java/com/rods/magicreator/domain/ports/in/IManageCharacters.java:46-50 | fixed message "Could not search characters" whatever the cause; the cause is kept |
| `ManageCharacters.CouldNotDeleteCharacterException` | src/main/java/com/rods/magicreator/domain/ports/in/IManageCharacters.java:52-60 | carries the id; fixed message "Could not delete characters"; the cause is kept |
| `ManageCharacters.CouldNotSearchHousesException` | src/main/java/com/rods/magicreator/domain/ports/in/IDisplayHouses.java:15-19 | fixed message "Could not search houses"; the cause is kept |
| `Service.CreateFailure` | src/main/java/com/rods/magicreator/domain/CharactersService.java:63-69 | an IllegalArgumentException is rethrown unchanged; anything else becomes CouldNotCreateCharacterException with the caller's character, the failure's message and the failure as cause; the result is always one of the exceptions create declares |
| `Service.UpdateFailure` | src/main/java/com/rods/magicreator/domain/CharactersService.java:95-101 | as CreateFailure, for update and CouldNotUpdateCharacterException |
| `Service.SearchOutcome` | src/main/java/com/rods/magicreator/domain/CharactersService.java:30-48 | a result passes unchanged; ErrorSearchingCharactersException becomes CouldNotSearchCharactersException with it as cause; any other exception passes through; the store's exception never escapes |
| `Service.DeleteOutcome` | src/main/java/com/rods/magicreator/domain/CharactersService.java:104-112 | success passes; ErrorDeletingCharacterException becomes CouldNotDeleteCharacterException for the same id; any other exception passes through |
| `Service.HousesOutcome` | src/main/java/com/rods/magicreator/domain/CharactersService.java:114-122 | the house list passes unchanged; ErrorObtainingHousesException becomes CouldNotSearchHousesException; any other exception passes through |
| `Service.Denormalised` | src/main/java/com/rods/magicreator/domain/CharactersService.java:55-59 | a found house yields the character with that house's name and nothing else changed; an absent house yields InvalidHouseProvidedException naming the house id; a port failure is kept |
| `Service.CharactersService.constructor` | src/main/java/com/rods/magicreator/domain/CharactersService.java:25-28 | holds the two ports; no calls made yet |
| `Service.CharactersService.ResolveHouse` | src/main/java/com/rods/magicreator/domain/CharactersService.java:55-59 | exactly one getHouseById call, for the character's house, resolved as Denormalised says |
| `Service.CharactersService.Create` | src/main/java/com/rods/magicreator/domain/CharactersService.java:50-70 | an id already set is rejected with the fixed message before any port is called; otherwise there is exactly one house lookup, for the referenced house; a failed or empty lookup stops the write with the store untouched; a found house leads to exactly one store create, of the character with the house name set, whose result or wrapped failure is returned; every escaping exception is declared, and a wrapped one carries the caller's character |
| `Service.CharactersService.Update` | src/main/java/com/rods/magicreator/domain/CharactersService.java:82-102 | as Create with the id check reversed: an update without id is rejected before any call; otherwise one lookup and at most one store update |
| `Service.CharactersService.Delete` | src/main/java/com/rods/magicreator/domain/CharactersService.java:104-112 | one store delete for the id; outcome translated as DeleteOutcome says |
| `Service.CharactersService.FindAll` | src/main/java/com/rods/magicreator/domain/CharactersService.java:30-38 | one store findAll for the page; outcome translated as SearchOutcome says |
| `Service.CharactersService.FindById` | src/main/java/com/rods/magicreator/domain/CharactersService.java:40-48 | one store lookup for the id; outcome translated as SearchOutcome says |
| `Service.CharactersService.FindBy` | src/main/java/com/rods/magicreator/domain/CharactersService.java:72-80 | one store search with the five filters unchanged; outcome translated as SearchOutcome says |
| `Service.CharactersService.FindHouses` | src/main/java/com/rods/magicreator/domain/CharactersService.java:114-122 | one getHouses call on the house port; outcome translated as HousesOutcome says |
| `HouseClient.Attempt` | src/main/java/com/rods/magicreator/repositories/house/http/PotterApiClient.java:36-38 | a request succeeds exactly when the reply is a decoded body; a 5xx reply becomes PotterApiCallException with the fixed message and the raw status; a decoded body is returned as it is, and any other failure passes through unchanged |
| `HouseClient.GetHouses` | src/main/java/com/rods/magicreator/repositories/house/http/PotterApiClient.java:31-45 | the loop computes the retry specification; it sends between one and four requests; a PotterApiCallException that escapes is always the exhaustion error (503, fixed message), after exactly four requests |
| `HouseClient.RetriedOnlyAfterRetryable` | src/main/java/com/rods/magicreator/repositories/house/http/PotterApiClient.java:39-40 | every request that is followed by another failed with PotterApiCallException: only that failure is retried |
| `HouseClient.ExhaustedIffFourRetryableFailures` | src/main/java/com/rods/magicreator/repositories/house/http/PotterApiClient.java:39-43 | the call ends in the exhaustion error exactly when all four requests fail with PotterApiCallException |
| `HouseClient.NonRetryableFailureStops` | src/main/java/com/rods/magicreator/repositories/house/http/PotterApiClient.java:39-40 | any other failure of the first request is returned unchanged after that one request |
| `HouseClient.TwoServerErrorsThenSuccess` | src/test/java/com/rods/magicreator/integration/repositories/house/http/PotterApiClientIT.java:53-70 | two 5xx replies and then a body: the body is returned after exactly three requests |
| `HouseClient.FourServerErrorsExhaust` | src/main/java/com/rods/magicreator/repositories/house/http/PotterApiClient.java:39-43 | four 5xx replies: exhaustion error with status 503 after exactly four requests |
| `HouseProvider.ToHouses` | src/main/java/com/rods/magicreator/repositories/house/http/PotterApiHttpAdapter.java:41-43 | one house per upstream record, in order, with the record's id, name and school |
| `HouseProvider.FirstWithId` | src/main/java/com/rods/magicreator/repositories/house/http/PotterApiHttpAdapter.java:32 | empty exactly when no house has the id; otherwise a listed house with that id |
| `HouseProvider.FirstWithIdIsEarliest` | src/main/java/com/rods/magicreator/repositories/house/http/PotterApiHttpAdapter.java:32 | with duplicate ids, the scan returns the earliest house in list order |
| `HouseProvider.HousesFrom` | src/main/java/com/rods/magicreator/repositories/house/http/PotterApiHttpAdapter.java:39-48 | a body becomes its projected houses; PotterApiCallException becomes ErrorObtainingHousesException; nothing else is caught, and a PotterApiCallException never escapes |
| `HouseProvider.LookupFrom` | src/main/java/com/rods/magicreator/repositories/house/http/PotterApiHttpAdapter.java:28-37 | a fetched list yields its first match; every failure is wrapped in ErrorObtainingHousesException with the failure as cause |
| `HouseProvider.LastWithId` | src/main/java/com/rods/magicreator/repositories/house/http/PotterApiHttpAdapter.java:58-65 | empty exactly when no fetched house has the id; otherwise a fetched house with that id (LastWithIdIsLatest proves it is the last one) |
| `HouseProvider.LastWithIdIsLatest` | src/main/java/com/rods/magicreator/repositories/house/http/PotterApiHttpAdapter.java:58-65 | with duplicate ids, the backward scan returns the latest house in list order, so the last write of the refresh wins |
| `HouseProvider.StoreAllAt` | src/main/java/com/rods/magicreator/repositories/house/http/PotterApiHttpAdapter.java:58-70 | after writing every fetched house, an id some fetched house has maps to the last such house; every other id keeps its old entry or stays absent |
| `HouseProvider.StoreAllKeyedById` | src/main/java/com/rods/magicreator/repositories/house/http/PotterApiHttpAdapter.java:67-70 | writing houses under their own ids keeps every cache entry keyed by its house's id |
| `HouseProvider.StoreAllHoldsEveryHouse` | src/main/java/com/rods/magicreator/repositories/house/http/PotterApiHttpAdapter.java:58-70 | every fetched house with a distinct id is in the cache under its id afterwards |
| `HouseProvider.LastWithIdUnique` | src/main/java/com/rods/magicreator/repositories/house/http/PotterApiHttpAdapter.java:58-65 | a house whose id no other fetched house has is the last one with that id |
| `HouseProvider.RefreshReplacesStaleEntry` | src/main/java/com/rods/magicreator/repositories/house/http/PotterApiHttpAdapter.java:58-70 | a cached house that the upstream now reports differently is replaced by the refresh |
| `HouseProvider.RenamedHouseExample` | src/main/java/com/rods/magicreator/repositories/house/http/PotterApiHttpAdapter.java:58-70 | a renamed house: the refresh replaces the cached entry, which otherwise stays stale |
| `HouseProvider.PotterApiHttpAdapter.constructor` | src/main/java/com/rods/magicreator/repositories/house/http/PotterApiHttpAdapter.java:24-26 | no requests sent yet; empty cache |
| `HouseProvider.PotterApiHttpAdapter.GetHouses` | src/main/java/com/rods/magicreator/repositories/house/http/PotterApiHttpAdapter.java:39-48 | one client call; its outcome translated as HousesFrom says; between one and four requests |
| `HouseProvider.PotterApiHttpAdapter.GetHouseById` | src/main/java/com/rods/magicreator/repositories/house/http/PotterApiHttpAdapter.java:28-37 | a cache hit returns the cached house and sends no request; a miss runs one client call, returns the first match (or the wrapped failure), and caches a found house under the id; failures leave the cache unchanged; a found house has the requested id |
| `HouseProvider.PotterApiHttpAdapter.UpdateCache` | src/main/java/com/rods/magicreator/repositories/house/http/PotterApiHttpAdapter.java:67-70 | returns the house and stores it under its id |
| `HouseProvider.PotterApiHttpAdapter.UpdateHousesAsWritten` | src/main/java/com/rods/magicreator/repositories/house/http/PotterApiHttpAdapter.java:58-65 | the refresh as written: it fetches, but the cache is left unchanged |
| `HouseProvider.PotterApiHttpAdapter.UpdateHouses` | src/main/java/com/rods/magicreator/repositories/house/http/PotterApiHttpAdapter.java:58-70 | a fetched list is written into the cache house by house; ErrorObtainingHousesException is swallowed; any other exception propagates; a failure leaves the cache unchanged |
| `CharacterStore.FromCharacter` | src/main/java/com/rods/magicreator/repositories/character/mongodb/CharacterMongoDBAdapter.java:108-117 | the record has an id exactly when the character has one |
| `CharacterStore.ToCharacter` | src/main/java/com/rods/magicreator/repositories/character/mongodb/CharacterMongoDBAdapter.java:97-106 | the id becomes its text, the house name is absent, and mapping back gives the same record |
| `CharacterStore.CharacterRoundTrip` | src/main/java/com/rods/magicreator/repositories/character/mongodb/CharacterMongoDBAdapter.java:97-117 | a character with an id survives a round trip through the store except for its house name |
| `CharacterStore.HouseNameNotStored` | src/main/java/com/rods/magicreator/repositories/character/mongodb/CharacterMongoDBAdapter.java:108-117 | the stored record does not depend on the house name |
| `CharacterStore.IsSubstringIff` | src/main/java/com/rods/magicreator/repositories/character/mongodb/CharacterMongoDBAdapter.java:122 | the containment test holds exactly when the value starts with the parameter at some position |
| `CharacterStore.MatchesIsConjunction` | src/main/java/com/rods/magicreator/repositories/character/mongodb/CharacterMongoDBAdapter.java:61-66 | a record matches the filters exactly when it matches each single-parameter search; no parameters match every record |
| `CharacterStore.NameMatchesBySubstring` | src/main/java/com/rods/magicreator/repositories/character/mongodb/CharacterMongoDBAdapter.java:119-123 | the name parameter matches exactly the names that contain it |
| `CharacterStore.OtherFieldsMatchExactly` | src/main/java/com/rods/magicreator/repositories/character/mongodb/CharacterMongoDBAdapter.java:119-123 | role, school, house and patronus match only by equality |
| `CharacterStore.Select` | src/main/java/com/rods/magicreator/repositories/character/mongodb/CharacterMongoDBAdapter.java:68-70 | the result holds exactly the stored records that match the probe |
| `CharacterStore.SelectCounts` | src/main/java/com/rods/magicreator/repositories/character/mongodb/CharacterMongoDBAdapter.java:68-70 | each matching record is returned as often as it is stored, and a non-matching one never |
| `CharacterStore.SelectKeepsWellStored` | src/main/java/com/rods/magicreator/repositories/character/mongodb/CharacterMongoDBAdapter.java:68-70 | the returned records keep their ids present and distinct |
| `CharacterStore.SearchByRoleExample` | src/test/java/com/rods/magicreator/integration/repositories/character/mongodb/CharacterMongoDBAdapterIT.java:102-122 | role "Student" selects Draco, Hermione and Rony |
| `CharacterStore.SearchByHouseExample` | src/test/java/com/rods/magicreator/integration/repositories/character/mongodb/CharacterMongoDBAdapterIT.java:102-122 | house "4321Gryffindor" selects Hermione, Rony and Minerva |
| `CharacterStore.SearchByRoleAndHouseExample` | src/test/java/com/rods/magicreator/integration/repositories/character/mongodb/CharacterMongoDBAdapterIT.java:102-122 | both together select Hermione and Rony |
| `CharacterStore.SearchByPrefixesExample` | src/test/java/com/rods/magicreator/integration/repositories/character/mongodb/CharacterMongoDBAdapterIT.java:102-122 | the prefixes "Stu" and "4321Gryf" select nothing |
| `CharacterStore.SearchByNameExample` | src/test/java/com/rods/magicreator/integration/repositories/character/mongodb/CharacterMongoDBAdapterIT.java:124-140 | name "Malfoy" selects the three Malfoys and not Minerva |
| `CharacterStore.SearchByNameAndRoleExample` | src/test/java/com/rods/magicreator/integration/repositories/character/mongodb/CharacterMongoDBAdapterIT.java:124-140 | "Malfoy" with role "Death Eater" selects Lucius and Narcissa |
| `CharacterStore.Lookup` | src/main/java/com/rods/magicreator/repositories/character/mongodb/CharacterMongoDBAdapter.java:51 | a record is found exactly when its id is in use, and it is a stored record with that id |
| `CharacterStore.LookupUpsert` | src/main/java/com/rods/magicreator/repositories/character/mongodb/CharacterMongoDBAdapter.java:76-78 | after a save with an id, that id finds the saved record and every other id finds what it found before |
| `CharacterStore.UpsertKeepsWellStored` | src/main/java/com/rods/magicreator/repositories/character/mongodb/CharacterMongoDBAdapter.java:76-78 | a save with an id keeps ids present and unique |
| `CharacterStore.UpsertIds` | src/main/java/com/rods/magicreator/repositories/character/mongodb/CharacterMongoDBAdapter.java:76-78 | a save with an id adds exactly that id to the ids in use |
| `CharacterStore.LookupRemoveId` | src/main/java/com/rods/magicreator/repositories/character/mongodb/CharacterMongoDBAdapter.java:83-84 | after a delete, the id finds nothing and every other id finds what it found before |
| `CharacterStore.RemoveIdKeepsWellStored` | src/main/java/com/rods/magicreator/repositories/character/mongodb/CharacterMongoDBAdapter.java:83-84 | a delete keeps ids present and unique |
| `CharacterStore.LookupAppend` | src/main/java/com/rods/magicreator/repositories/character/mongodb/CharacterMongoDBAdapter.java:56-58 | appending a record does not change the lookup of an id already in use |
| `CharacterStore.FreshObjectId` | src/main/java/com/rods/magicreator/repositories/character/mongodb/CharacterMongoDBAdapter.java:56-58 | the id assigned to a new record is not in use |
| `CharacterStore.CharacterMongoDBAdapter.constructor` | src/main/java/com/rods/magicreator/repositories/character/mongodb/CharacterMongoDBAdapter.java:39-41 | empty collection and empty cache |
| `CharacterStore.CharacterMongoDBAdapter.Save` | src/main/java/com/rods/magicreator/repositories/character/mongodb/CharacterMongoDBAdapter.java:56-58 | a record with an id replaces the record with that id, or is appended; one without an id is appended under a fresh id; ids stay unique |
| `CharacterStore.CharacterMongoDBAdapter.FindAll` | src/main/java/com/rods/magicreator/repositories/character/mongodb/CharacterMongoDBAdapter.java:43-46 | page `page` of size 100: the i-th character is record `page*100+i` of the collection; the page holds exactly 100 characters, or the records that remain after `page*100` when fewer remain, or none past the end |
| `CharacterStore.CharacterMongoDBAdapter.FindBy` | src/main/java/com/rods/magicreator/repositories/character/mongodb/CharacterMongoDBAdapter.java:61-71 | a character is returned exactly when it is the mapping of a stored record that matches the filters, and no two returned characters share an id, so each match appears once |
| `CharacterStore.CharacterMongoDBAdapter.FindById` | src/main/java/com/rods/magicreator/repositories/character/mongodb/CharacterMongoDBAdapter.java:48-52 | a hit comes from the cache without a read; a miss reads the collection and caches a found character; with a coherent cache the answer is the collection's either way, and the cache stays coherent |
| `CharacterStore.CharacterMongoDBAdapter.Create` | src/main/java/com/rods/magicreator/repositories/character/mongodb/CharacterMongoDBAdapter.java:54-59 | a character without id is appended under an id not in use and returned with it, otherwise unchanged except the house name; with an id, the record with it is replaced; creating without an id leaves a coherent cache coherent |
| `CharacterStore.CharacterMongoDBAdapter.Update` | src/main/java/com/rods/magicreator/repositories/character/mongodb/CharacterMongoDBAdapter.java:73-79 | the record with the character's id becomes the mapped character, and the cache entry for that id is the returned character; the cache stays coherent |
| `CharacterStore.CharacterMongoDBAdapter.Delete` | src/main/java/com/rods/magicreator/repositories/character/mongodb/CharacterMongoDBAdapter.java:81-85 | the records with the id are removed, a lookup of the id finds nothing, its cache entry is evicted and the cache stays coherent |

## Left out

- Logging, HTTP controllers, application bootstrap and the JSON mapping of requests and responses.
- WebClient itself: URL, the `apikey` header, and the decoding of a response into `HouseModelRoot`. A failed decoding is a `Failure` reply.
- The backoff delays of the retry (5 seconds, growing) and all timing. The model counts requests, not time.
- Cache expiry (60 minutes time-to-live) and the 100-entry heap bound of both caches. Both caches are unbounded maps without expiry.
- The hourly scheduling of the refresh and every concurrent interleaving. Each operation runs to completion alone.
- ObjectId parsing: an id string that is not a valid ObjectId throws at `new ObjectId(id)`. The model treats every string as an id.
- Nullable strings other than the character id, the house name and the search parameters. Every other field is a present string.
- Spring's `NestedCheckedException` appends the cause to its message. The model keeps the plain message.
- `CharacterStore.CharacterMongoDBAdapter.FindById` does not cache an empty lookup. Whether the cache keeps an empty `Optional` depends on cache configuration that is not part of this model.
- `CharacterStore.CharacterMongoDBAdapter.FindAll` requires a non-negative page index. `PageRequest.of` rejects a negative one with an exception that is not modelled.
- `CharacterStore.CharacterMongoDBAdapter.Update` saves a character without id and returns it, leaving the cache alone. In the source, the `@CachePut` key is computed after the save, and a null key makes Spring throw IllegalArgumentException, so the record is saved and the call then fails. The service never calls it without an id.
- `Service.CharactersService.FindAll` keeps the page returned by the store as it is. `Page` is only a number, a size and the content; total counts and sorting are not modelled.
- `IManageCharactersPersistence` is not part of this model. The service talks to the abstract store port.

## Findings

| source | as written | input that shows it | evidently intended | confidence | as-written member | corrected member |
|---|---|---|---|---|---|---|
| src/main/java/com/rods/magicreator/repositories/house/http/PotterApiHttpAdapter.java:58-70 | the refresh calls `updateCache` through `this`, which bypasses the caching proxy, so the `@CachePut` never runs and the hourly refresh writes nothing | house "1" cached as "Gryffindor"; the upstream now reports it as "Gryffindor House"; after the refresh the cache still answers "Gryffindor" (`HouseProvider.RenamedHouseExample`, `HouseProvider.RefreshReplacesStaleEntry`) | every fetched house is written into the `houses` cache under its id | not executed; follows from proxy-based caching. The refresh may not run at all: no scheduling is enabled in the application class, and the `@Scheduled` method is private on a proxied bean. The cache gets no write either way | `HouseProvider.PotterApiHttpAdapter.UpdateHousesAsWritten` | `HouseProvider.PotterApiHttpAdapter.UpdateHouses` |
