/**
 * create_recipe_card: turns one recipe record and its position in the
 * result list into a collapsible card. The header shows the name and
 * toggles the body whose id it targets; the body lists the ingredient lines,
 * the garnishes, the drinkware and the serving methods, then the
 * instructions and notes paragraphs when they are not empty.
 */
module Rendering {
  import opened Recipes

  // ---------------------------------------------------------------------
  // Decimal text of a card's position

  function Digit(d: nat): (c: char)
    requires d < 10
    ensures '0' <= c <= '9'
  {
    ('0' as int + d) as char
  }

  predicate IsDigits(s: string)
  {
    forall i :: 0 <= i < |s| ==> '0' <= s[i] <= '9'
  }

  /** The decimal text of n, without leading zeros: what interpolating an
      array index into a string produces. */
  function Decimal(n: nat): (s: string)
    ensures |s| > 0 && IsDigits(s)
    ensures |s| > 1 ==> s[0] != '0'
  {
    if n < 10 then [Digit(n)] else Decimal(n / 10) + [Digit(n % 10)]
  }

  /** The number a string of decimal digits denotes. */
  function DecimalValue(s: string): nat
    requires IsDigits(s)
  {
    if |s| == 0 then 0
    else DecimalValue(s[..|s| - 1]) * 10 + (s[|s| - 1] as int - '0' as int)
  }

  /** Reading the decimal text of n gives n back. */
  lemma {:induction false} DecimalRoundTrip(n: nat)
    ensures DecimalValue(Decimal(n)) == n
  {
    if n >= 10 {
      var s := Decimal(n);
      assert s[..|s| - 1] == Decimal(n / 10);
      DecimalRoundTrip(n / 10);
    }
  }

  lemma DecimalInjective(m: nat, n: nat)
    requires Decimal(m) == Decimal(n)
    ensures m == n
  {
    DecimalRoundTrip(m);
    DecimalRoundTrip(n);
  }

  // ---------------------------------------------------------------------
  // Ingredient lines

  /** The unit that is shown without a measure. */
  const ToTaste: string := "to taste"

  /** One line of the ingredient list: the name, then either " to taste" or
      the measure and unit in parentheses. */
  function IngredientLine(ing: Ingredient): (line: string)
    ensures |ing.ingredient| < |line| && line[..|ing.ingredient|] == ing.ingredient
    ensures ing.unit == ToTaste ==> line[|ing.ingredient|..] == " " + ToTaste
    ensures ing.unit != ToTaste ==> line[|ing.ingredient|..] == " (" + ing.measure + " " + ing.unit + ")"
  {
    if ing.unit == ToTaste then ing.ingredient + " " + ing.unit
    else ing.ingredient + " (" + ing.measure + " " + ing.unit + ")"
  }

  /** The line tells the two forms apart: the character after the name and
      its space is an opening parenthesis exactly when a measure is shown. */
  lemma IngredientLineForm(ing: Ingredient)
    ensures |ing.ingredient| + 1 < |IngredientLine(ing)|
    ensures IngredientLine(ing)[|ing.ingredient| + 1] == '(' <==> ing.unit != ToTaste
  {
    var line := IngredientLine(ing);
    var n := |ing.ingredient|;
    if ing.unit == ToTaste {
      assert line[n..] == " to taste";
      assert line[n + 1] == line[n..][1];
    } else {
      assert line[n..] == " (" + ing.measure + " " + ing.unit + ")";
      assert line[n + 1] == line[n..][1];
    }
  }

  /** Two sample renderings, one of each form. */
  lemma IngredientLineExamples()
    ensures IngredientLine(Ingredient("Lime", "", "to taste")) == "Lime to taste"
    ensures IngredientLine(Ingredient("Lime", "2", "oz")) == "Lime (2 oz)"
  {
    assert IngredientLine(Ingredient("Lime", "", "to taste")) == "Lime" + " " + "to taste";
    assert IngredientLine(Ingredient("Lime", "2", "oz")) == "Lime" + " (" + "2" + " " + "oz" + ")";
  }

  // ---------------------------------------------------------------------
  // Cards

  /** A text paragraph at the foot of a card body. */
  datatype Paragraph = Instructions(text: string) | Notes(text: string)

  /** A recipe card: the header button with the collapse target it toggles
      and the name it shows, and the body with its id, its four lists and
      its paragraphs. */
  datatype Card = Card(
    target: string,
    header: string,
    bodyId: string,
    ingredients: seq<string>,
    garnish: seq<string>,
    drinkware: seq<string>,
    served: seq<string>,
    paragraphs: seq<Paragraph>)

  /** The id of the body of the card at a position of the result list. */
  function CardId(index: nat): (id: string)
    ensures |id| == |"recipe-"| + |Decimal(index)| + |"-card"|
    ensures id[..|"recipe-"|] == "recipe-" && id[|id| - |"-card"|..] == "-card"
    ensures id[|"recipe-"|..|id| - |"-card"|] == Decimal(index)
  {
    "recipe-" + Decimal(index) + "-card"
  }

  /** Cards at different positions have different body ids. */
  lemma CardIdInjective(i: nat, j: nat)
    requires CardId(i) == CardId(j)
    ensures i == j
  {
    DecimalInjective(i, j);
  }

  /** The paragraphs of a recipe: the instructions, then the notes, each only
      when it is not empty. */
  function ParagraphsOf(recipe: Recipe): seq<Paragraph>
  {
    (if recipe.instructions != "" then [Instructions(recipe.instructions)] else [])
    + (if recipe.notes != "" then [Notes(recipe.notes)] else [])
  }

  /** What the card for a recipe at a position consists of. */
  predicate IsCardOf(card: Card, recipe: Recipe, index: nat)
  {
    && card.header == recipe.name
    && card.bodyId == CardId(index)
    && card.target == "#" + card.bodyId
    && |card.ingredients| == |recipe.ingredients|
    && (forall i :: 0 <= i < |recipe.ingredients| ==> card.ingredients[i] == IngredientLine(recipe.ingredients[i]))
    && card.garnish == recipe.garnish
    && card.drinkware == recipe.drinkware
    && card.served == recipe.served
    && card.paragraphs == ParagraphsOf(recipe)
  }

  /** The instructions paragraph is there exactly when the instructions are
      not empty, the notes paragraph exactly when the notes are not empty,
      and when both are there the instructions come first. */
  lemma CardParagraphs(card: Card, recipe: Recipe, index: nat)
    requires IsCardOf(card, recipe, index)
    ensures Instructions(recipe.instructions) in card.paragraphs <==> recipe.instructions != ""
    ensures Notes(recipe.notes) in card.paragraphs <==> recipe.notes != ""
    ensures |card.paragraphs| <= 2
    ensures recipe.instructions != "" && recipe.notes != "" ==>
              card.paragraphs == [Instructions(recipe.instructions), Notes(recipe.notes)]
    ensures forall k :: 0 <= k < |card.paragraphs| ==>
              card.paragraphs[k] == Instructions(recipe.instructions) || card.paragraphs[k] == Notes(recipe.notes)
  {
  }

  /** The list entries of one recipe field, in order. */
  method ListItems(values: seq<string>) returns (items: seq<string>)
    ensures items == values
  {
    items := [];
    for k := 0 to |values|
      invariant items == values[..k]
    {
      items := items + [values[k]];
    }
    assert values[..|values|] == values;
  }

  /** create_recipe_card */
  method CreateRecipeCard(recipe: Recipe, index: nat) returns (card: Card)
    ensures IsCardOf(card, recipe, index)
  {
    var id := CardId(index);

    var lines: seq<string> := [];
    for k := 0 to |recipe.ingredients|
      invariant |lines| == k
      invariant forall i :: 0 <= i < k ==> lines[i] == IngredientLine(recipe.ingredients[i])
    {
      var ing := recipe.ingredients[k];
      var line := ing.ingredient;
      if ing.unit == ToTaste {
        line := line + " " + ing.unit;
      } else {
        line := line + " (" + ing.measure + " " + ing.unit + ")";
      }
      lines := lines + [line];
    }

    var garnish := ListItems(recipe.garnish);
    var drinkware := ListItems(recipe.drinkware);
    var served := ListItems(recipe.served);

    var paragraphs: seq<Paragraph> := [];
    if recipe.instructions != "" {
      paragraphs := paragraphs + [Instructions(recipe.instructions)];
    }
    if recipe.notes != "" {
      paragraphs := paragraphs + [Notes(recipe.notes)];
    }

    card := Card("#" + id, recipe.name, id, lines, garnish, drinkware, served, paragraphs);
  }
}
