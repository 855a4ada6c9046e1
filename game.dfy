/** The record type shared by the retriever and the controller. */
module Games {

  /** A value that a strategy may leave absent (`null` or `undefined`). */
  datatype Option<+T> = None | Some(value: T)

  /** The upstream endpoint held by the API object. */
  const ApiUrl: string := "https://www.freetogame.com/api/games"

  /** One catalogue entry. Only `genre` and `platform` take part in the logic;
      the other fields are carried through to the rendered cards. */
  datatype Game = Game(
    id: int,
    title: string,
    thumbnail: string,
    shortDescription: string,
    gameUrl: string,
    genre: string,
    platform: string,
    publisher: string,
    developer: string,
    releaseDate: string)
}
