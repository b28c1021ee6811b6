/** The two persisted records of the app (model/Letter.kt, model/LetterProgress.kt),
    and the Option type the lookups return. */
module Model {

  datatype Option<+T> = None | Some(value: T)

  /** A row of the `letters` table. An `id` of 0 means "not assigned yet": the key is
      auto-generated when such a row is inserted. */
  datatype Letter = Letter(id: int, letter: string, name: string, language: string, soundUrl: string)

  /** A row of the `progress` table; `letterId` is its primary key. */
  datatype LetterProgress = LetterProgress(letterId: int, practiceCount: int, stars: int)

  /** The record constructor with its default sound URL. */
  function MakeLetter(id: int, letter: string, name: string, language: string): Letter
  {
    Letter(id, letter, name, language, "")
  }
}
