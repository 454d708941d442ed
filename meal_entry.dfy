/** The records the meal core passes around. */
module Meals {
  import opened Wrappers

  /** One logged meal. Grams are hundredths of a gram; `recordedAt` is epoch milliseconds. */
  datatype MealEntry = MealEntry(
    id: string,
    recordedAt: int,
    description: string,
    fatGrams: int,
    carbGrams: int,
    proteinGrams: int,
    imageBase64: Option<string>)

  /** A meal built by the Kotlin constructor calls that leave the image at its default. */
  function NewMeal(id: string, recordedAt: int, description: string,
                   fatGrams: int, carbGrams: int, proteinGrams: int): MealEntry
  {
    MealEntry(id, recordedAt, description, fatGrams, carbGrams, proteinGrams, None)
  }

  /** What the photo analysis returns: a description and three gram estimates. */
  datatype MealAnalysis = MealAnalysis(
    description: string,
    fatGrams: int,
    carbGrams: int,
    proteinGrams: int)
}
