# Cocktail lookup page: a Dafny model of its query and display logic

The cocktail lookup page has five query modes: name, ingredients, garnish,
drinkware and serving method. Choosing a mode rebuilds the query area. Name
mode shows a text field. The other modes show a drop-down of known values
and a table of chosen criteria, with "Add" and "Clear table" buttons. A
search button runs the mode's query against the catalog's HTTP API. The
results replace the result display: a "Results" header, a hint line and one
collapsible card per recipe, or a lone "No recipes found" header.

The model keeps the page's own structure:

- `Recipes`: the catalog's records (`Recipe`, `Ingredient`).
- `CatalogApi` (`js/cocktail_api_access.js`):
  - The request helper, which puts the API base in front of every path.
  - The five queries, written as methods with the source's loops.
  - The catalog is a `Catalog` object. It answers each URL with one of two
    fixed total functions, one for record lookups and one for vocabulary
    lists, and logs every URL it is asked for. Call order and call count
    are stated through that log.
  - The specification functions `Join`, `Requests` and `Collected`, and the
    lemmas about them.
- `Collector` (`js/cocktail_scripts.js`, `display_selector_and_table`,
  `add_to_table`, `clear_table`): the drop-down's option list and the
  criteria table. The table is a class holding the rows as a `seq<string>`.
- `Rendering` (`create_recipe_card`): the card as a datatype, built by a
  method with the source's loops. The method is proved against the
  predicate `IsCardOf`.
- `QueryPage` (`display_query_input` and the search button's handler): a
  `Page` class holding the query area, the result display, the active mode
  and the collector state. Its invariant is that the query area always
  shows the active mode's collector.

Other behaviour worth knowing:

- The drop-down's placeholder option has the value `"None"`. A vocabulary
  item spelled exactly `"None"` submits the same value, so it can never be
  added to the table (`Collector.SelectedValue`).
- Cards are numbered by the keys of a `for ... in` loop over the result
  array, which are the decimal strings `"0"`, `"1"`, and so on. The model
  writes the index as a `nat` rendered by `Rendering.Decimal`. A parse round
  trip proves that different positions get different body ids, so every
  card header opens its own body and no other.
- Ingredients mode joins every criterion with `+` into one path and makes
  a single request. The garnish, drinkware and served modes make one
  request per criterion.
- A failed request is not an empty answer: the looping queries throw on
  `for ... of undefined` (see Left out).

## Model

| member | source | states |
|---|---|---|
| `CatalogApi.RequestUrl` | js/cocktail_api_access.js:11-24 | the requested URL is the API base followed by exactly the path |
| `CatalogApi.RequestUrlInjective` | js/cocktail_api_access.js:24 | different paths never give the same URL string |
| `CatalogApi.RouteInjective` | js/cocktail_api_access.js:40 | under one route prefix, different arguments (such as names) give different paths |
| `CatalogApi.Catalog.GetRecipes` | js/cocktail_api_access.js:13-29 | one round trip: exactly one URL, the API base plus the path, is appended to the request log, and the answer is the catalog's records for that URL; every logged URL starts with the API base |
| `CatalogApi.Catalog.GetVocabulary` | js/cocktail_api_access.js:13-29 | the same for the vocabulary lists the selectors are built from |
| `CatalogApi.NameQuery` | js/cocktail_api_access.js:31-41 | exactly one request, for `"/cocktail/" + name`; the result is the catalog's answer to it |
| `CatalogApi.IngredientQuery` | js/cocktail_api_access.js:43-66 | the loop builds exactly `"/ingredients/"` followed by the rows joined with `+`, and exactly one request is made for it |
| `CatalogApi.IngredientsPath` | js/cocktail_api_access.js:52-61 | the path starts with `"/ingredients/"`; an empty table gives exactly `"/ingredients/"` |
| `CatalogApi.JoinShape` | js/cocktail_api_access.js:54-61 | a join of n rows holds the rows' characters and n - 1 separators, starts with the first row and ends with the last, so no separator is added before the first row or after the last (the path can still begin or end with `+` when the first or last row is empty or itself begins or ends with `+`) |
| `CatalogApi.SplitJoin` | js/cocktail_api_access.js:54-61 | splitting at `+` undoes the join when no row contains `+` |
| `CatalogApi.IngredientsPathRecoversRows` | js/cocktail_api_access.js:52-64 | the catalog can recover every criterion, in order, from the ingredients path when no criterion contains `+` |
| `CatalogApi.CollectEach` | js/cocktail_api_access.js:70-80 | the shared nested loop: one request per row, for prefix + row, in row order; the result is every returned record appended in that order |
| `CatalogApi.GarnishQuery` | js/cocktail_api_access.js:68-81 | the requests are `"/garnish/" + row` for each row in order; the result is their answers concatenated; an empty table makes no request and returns `[]` |
| `CatalogApi.DrinkwareQuery` | js/cocktail_api_access.js:83-114 | the same with prefix `"/drinkware/"` |
| `CatalogApi.ServedQuery` | js/cocktail_api_access.js:116-129 | the same with prefix `"/served/"` |
| `CatalogApi.RequestsAt` | js/cocktail_api_access.js:72-74 | one request per row, and the k-th request is for the k-th row |
| `CatalogApi.CollectedAppend` | js/cocktail_api_access.js:72-79 | the looped result and request log for a table split in two are the results and logs of the two parts, concatenated |
| `CatalogApi.CollectedLength` | js/cocktail_api_access.js:76-78 | the result holds exactly as many records as all per-row answers together |
| `CatalogApi.CollectedBlock` | js/cocktail_api_access.js:72-79 | the k-th row's answer appears as one contiguous block, right after the records of the rows before it |
| `CatalogApi.RepeatedCriterion` | js/cocktail_api_access.js:76-78 | no deduplication: a row listed twice contributes its answer twice |
| `CatalogApi.CollectedExample` | js/cocktail_api_access.js:70-80 | rows answered by `[r1]`, `[]` and `[r2, r3]` give `[r1, r2, r3]` |
| `Collector.BuildSelector` | js/cocktail_scripts.js:250-259 | the options are the placeholder (value `"None"`, text `"Select..."`) followed by one option per vocabulary item, in order, so there are one more options than items |
| `Collector.SelectedValue` | js/cocktail_scripts.js:250-259 | option 0 submits `"None"` and option k submits item k - 1, so a value gets added exactly when it is a vocabulary item other than `"None"` |
| `Collector.Added` | js/cocktail_scripts.js:291-301 | for `"None"` the rows are unchanged; otherwise there is exactly one more row, the new value last and the earlier rows untouched |
| `Collector.AddedTwice` | js/cocktail_scripts.js:291-300 | adding one value twice appends two rows, and its count among the rows grows by two |
| `Collector.CriterionTable.constructor` | js/cocktail_scripts.js:223-224 | a new table body has no rows |
| `Collector.CriterionTable.Add` | js/cocktail_scripts.js:284-302 | the rows become `Added(old rows, selected)`; no row is ever `"None"` |
| `Collector.CriterionTable.Clear` | js/cocktail_scripts.js:304-310 | removing the last row until none is left gives zero rows whatever the rows before, so clearing twice is clearing once |
| `Rendering.Decimal` | js/cocktail_scripts.js:323 | the index text is non-empty decimal digits with no leading zero |
| `Rendering.DecimalRoundTrip` | js/cocktail_scripts.js:170-172 | reading an index's decimal text gives the index back |
| `Rendering.DecimalInjective` | js/cocktail_scripts.js:170-172 | different indexes have different decimal texts |
| `Rendering.IngredientLine` | js/cocktail_scripts.js:348-354 | a line starts with the ingredient name; it is followed by `" to taste"` when the unit is `"to taste"` and by `" (" + measure + " " + unit + ")"` otherwise |
| `Rendering.IngredientLineForm` | js/cocktail_scripts.js:350-354 | the character after the name and its space is `(` exactly when a measure is shown |
| `Rendering.IngredientLineExamples` | js/cocktail_scripts.js:350-354 | `"Lime to taste"` and `"Lime (2 oz)"` |
| `Rendering.CardId` | js/cocktail_scripts.js:323-333 | the index's decimal text stands between the fixed `"recipe-"` and `"-card"` parts and can be cut back out of the body id |
| `Rendering.CardIdInjective` | js/cocktail_scripts.js:323-333 | cards at different positions have different body ids |
| `Rendering.ListItems` | js/cocktail_scripts.js:373-378 | one list entry per source element, in order |
| `Rendering.CreateRecipeCard` | js/cocktail_scripts.js:312-447 | the header shows the recipe name; the header's target is `"#"` + the body id; the body id is `recipe-<index>-card`; there is one ingredient line per ingredient, in order; the garnish, drinkware and served lists equal the record's; the paragraphs are the non-empty instructions, then the non-empty notes |
| `Rendering.CardParagraphs` | js/cocktail_scripts.js:427-437 | the instructions paragraph is present iff the instructions are non-empty, and likewise for notes; with both, the instructions come first; nothing else appears |
| `QueryPage.ModeOf` | js/cocktail_scripts.js:17-21 | exactly the numbers 1 to 5 select a mode, each the one whose constant it is |
| `QueryPage.ModeOfCode` | js/cocktail_scripts.js:17-21 | every mode's constant selects that mode |
| `QueryPage.IssuedCount` | js/cocktail_scripts.js:70-110 | a name or ingredients search makes exactly one request; a garnish, drinkware or served search makes one per row, in row order; every request starts with the API base |
| `QueryPage.CreateCards` | js/cocktail_scripts.js:169-174 | card i is the card of record i built with index i, for every record, in order |
| `QueryPage.ResultCardsTargetOwnBodies` | js/cocktail_scripts.js:170-174 | in a result display, card i's header targets card j's body exactly when i = j |
| `QueryPage.Page.ClearQuery` | js/cocktail_scripts.js:34-37 | the query area ends up with no children |
| `QueryPage.Page.ClearDisplay` | js/cocktail_scripts.js:150-155 | the result display ends up with no children |
| `QueryPage.Page.DisplayQueryInput` | js/cocktail_scripts.js:23-193 | modes 1 to 5 give the title, that mode's collector and the search button; any other number leaves the query area empty, with no search and no request; a selector mode makes one vocabulary request, builds its selector from the answer and starts with a new, empty table, so no criteria carry over between modes; the result display is untouched |
| `QueryPage.Page.EnterName` | js/cocktail_scripts.js:58-72 | the name search reads what was typed into the field |
| `QueryPage.Page.AddSelected` | js/cocktail_scripts.js:262-267 | the "Add" button adds the selected option's value to the table |
| `QueryPage.Page.ClearTable` | js/cocktail_scripts.js:230-237 | the "Clear table" button empties the table |
| `QueryPage.Page.Search` | js/cocktail_scripts.js:145-187 | the mode's requests are made, then the display is emptied; with records it shows `"Results"`, the hint line and card i for record i; with none it shows exactly one `"No recipes found"` header and not the hint paragraph; the query area and the criteria are unchanged |

## Left out

- Network transport, JSON parsing and the service behind the host in `API_URL`: the catalog is a total function from URL to answer. A request that fails resolves to `undefined` in the source, and the looping queries then throw on `for ... of undefined`. The model has no failing request, so it makes no claim that a failure contributes nothing.
- `async`/`await`: the awaits run one after the other, so the model uses plain sequential loops. The model has no concurrency. It does not model a second search or mode switch that starts while a request is outstanding.
- Name mode's answer: the handler tests `returned_data.length > 0` on whatever the name lookup returns. The shape the catalog returns there is not visible, so the model treats every answer as a sequence of records. A single JSON object with no `length` would always show "No recipes found". A `null` answer would throw.
- QueryPage.ModeOf: takes an integer, so the loose `==` against the served constant (js/cocktail_scripts.js:102), which would also accept the string `"5"`, is not modelled.
- Reading table rows through `innerText`: the model reads back exactly the value that was added. It ignores any whitespace normalisation the browser applies.
- The URL parsing `fetch` applies before sending: percent-encoding, dropping a `#` fragment, splitting off a `?` query and normalising `.` and `..` segments. Paths and URLs are compared as plain strings, so two different URL strings (for instance names `a#1` and `a#2`) may still be one and the same request.
- Presentation:
  - CSS classes and Bootstrap collapse behaviour.
  - The section headings inside a card and the button texts.
  - The `<b>Instructions:</b>` and `<b>Notes:</b>` markup before paragraph text (a paragraph keeps only the record's text).
  - `console.log` calls.
  - The hint paragraph built in the no-results branch: it is never attached.
- `Recipe` fields are taken as given. Measures are kept as the text that interpolation produces.
