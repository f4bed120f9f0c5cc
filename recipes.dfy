/**
 * The records the cocktail catalog returns. The page never changes them: it
 * only reads them to build the result display.
 */
module Recipes {

  /** One entry of a recipe's ingredient list. The measure is kept in the
      textual form that string interpolation gives it on the page. */
  datatype Ingredient = Ingredient(ingredient: string, measure: string, unit: string)

  /** A cocktail recipe as the catalog sends it. */
  datatype Recipe = Recipe(
    name: string,
    ingredients: seq<Ingredient>,
    garnish: seq<string>,
    drinkware: seq<string>,
    served: seq<string>,
    instructions: string,
    notes: string)
}
