/** The records and enumerations of `types/learning.ts` that the data
    layer reads. Timestamps are dropped: nothing modelled reads them. */
module LearningTypes {
  import opened Optional

  datatype PlanetType = Earth | Moon | Mars

  datatype DifficultyLevel = Beginner | Intermediate | Advanced

  datatype Category = Mammal | Bird | Fish | Reptile | Amphibian | Insect

  datatype Habitat = Land | Water | Air | Mixed

  datatype Size = Small | Medium | Large

  /** A star rating: there is no zero-star outcome. */
  type StarRating = r: int | 1 <= r <= 3 witness 1

  /** A learning item of the animal theme. `LearningItem`'s common fields
      and the animal-specific ones are kept in one record. */
  datatype Animal = Animal(
    id: string,
    name: string,
    chineseName: string,
    emoji: string,
    planet: PlanetType,
    difficulty: DifficultyLevel,
    audioUrl: string,
    imageUrl: Option<string>,
    pronunciation: Option<string>,
    learningTip: Option<string>,
    order: int,
    enabled: bool,
    category: Category,
    habitat: Habitat,
    size: Size
  )

  /** One planet: its display texts, the stars it takes to unlock, and its
      place in the unlock order. */
  datatype PlanetConfig = PlanetConfig(
    planetType: PlanetType,
    name: string,
    chineseName: string,
    emoji: string,
    theme: string,
    requiredStars: int,
    backgroundColor: string,
    themeColor: string,
    isDefaultUnlocked: bool,
    order: int
  )

  /** One spoken attempt at an item; confidence is on the 0-100 scale. */
  datatype LearningAttempt = LearningAttempt(
    confidence: real,
    rating: StarRating,
    recognizedText: string,
    targetText: string,
    recordingDuration: int,
    usedHint: bool
  )
}
