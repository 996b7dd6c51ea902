/** The domain models shared by the service and the adapters (domain/models). */
module Domain {
  import opened Wrappers

  /**
   * A Harry Potter character. `id` is absent until the store assigns one; `houseName` is
   * the display name of `house`, copied in by the service before every write.
   */
  datatype Character = Character(
    id: Option<string>,
    name: string,
    role: string,
    school: string,
    house: string,
    houseName: Option<string>,
    patronus: string)

  /** A house as the rest of the system sees it: identity, name and school. */
  datatype House = House(id: string, name: string, school: string)

  /** The five optional search parameters of the filtered search; `None` stands for Java's null. */
  datatype SearchFilters = SearchFilters(
    name: Option<string>,
    role: Option<string>,
    school: Option<string>,
    house: Option<string>,
    patronus: Option<string>)

  /** One page of characters, as requested by page index and page size. */
  datatype Page = Page(number: int, size: nat, content: seq<Character>)

  /** Lombok's `withHouseName`: a copy of `c` whose only difference is its house name. */
  function WithHouseName(c: Character, houseName: string): (r: Character)
    ensures r.houseName == Some(houseName)
    ensures r.(houseName := c.houseName) == c
  {
    c.(houseName := Some(houseName))
  }
}
