/** The album record and the result types shared by every layer of the catalogue. */
module Domain {

  datatype Option<T> = None | Some(value: T)

  /** Errors of the catalogue, by the layer that raises them. */
  datatype Error =
    | Invalid(message: string)              // bad input, rejected by the business service
    | NotFound(message: string)             // no stored album matched
    | Wrapped(context: string, cause: Error)   // re-reported with added context, cause kept (%w)
    | Flattened(context: string, cause: Error) // re-reported with the cause's text only (%v)

  datatype Result<T> = Ok(value: T) | Err(error: Error)

  /** Outcome of an operation that returns only an error. */
  datatype Status = Done | Failed(error: Error)

  /**
   * An album record. Price is kept as a real (only its sign is ever
   * inspected); timestamps are clock readings in seconds.
   */
  datatype Album = Album(
    id: string,
    title: string,
    artist: string,
    price: real,
    year: int,
    genre: string,
    condition: string,
    inStock: bool,
    createdAt: int,
    updatedAt: int)

  /** No two stored albums share an identifier. */
  predicate UniqueIds(s: seq<Album>)
  {
    forall i, j :: 0 <= i < j < |s| ==> s[i].id != s[j].id
  }

  /** Some stored album carries `id`. */
  predicate HasId(s: seq<Album>, id: string)
  {
    exists i :: 0 <= i < |s| && s[i].id == id
  }
}
