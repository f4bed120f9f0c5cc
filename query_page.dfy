/**
 * display_query_input and its search button: choosing a query mode rebuilds
 * the query area (a title, the mode's collector and a search button), and a
 * search runs the mode's query and replaces the result display with either
 * the cards of the records found or a single "No recipes found" header.
 */
module QueryPage {
  import opened Wrappers
  import opened Recipes
  import opened CatalogApi
  import opened Collector
  import opened Rendering

  /** The five ways to query the catalog. */
  datatype Mode = Name | Ingredients | Garnish | Drinkware | Served

  /** The number a page control passes for each mode. */
  function ModeCode(m: Mode): int
  {
    match m
    case Name => 1
    case Ingredients => 2
    case Garnish => 3
    case Drinkware => 4
    case Served => 5
  }

  /** The mode a number selects; every number outside 1..5 selects none. */
  function ModeOf(which: int): (m: Option<Mode>)
    ensures m.Some? <==> 1 <= which <= 5
    ensures m.Some? ==> ModeCode(m.value) == which
  {
    if which == 1 then Some(Name)
    else if which == 2 then Some(Ingredients)
    else if which == 3 then Some(Garnish)
    else if which == 4 then Some(Drinkware)
    else if which == 5 then Some(Served)
    else None
  }

  /** Every mode is selected by its own number. */
  lemma ModeOfCode(m: Mode)
    ensures ModeOf(ModeCode(m)) == Some(m)
  {
  }

  /** The API path of the vocabulary a selector-and-table mode lists. */
  function VocabularyPath(m: Mode): string
    requires m != Name
  {
    match m
    case Ingredients => "/ingredients"
    case Garnish => "/garnish"
    case Drinkware => "/drinkware"
    case Served => "/served"
  }

  /** The column heading of a selector-and-table mode. */
  function Heading(m: Mode): string
    requires m != Name
  {
    match m
    case Ingredients => "Ingredient"
    case Garnish => "Garnish"
    case Drinkware => "Drinkware"
    case Served => "Serving Method"
  }

  const LookupTitle: string := "Cocktail Lookup"
  const ResultsTitle: string := "Results"
  const InfoText: string := "Click on the card to view"
  const NoRecipesTitle: string := "No recipes found"

  /** The children of the query area. */
  datatype QueryElement =
    | Title(text: string)
    | NameField
    | SelectorTable(what: string, options: seq<SelectOption>)
    | SearchButton

  /** The children of the result display. */
  datatype DisplayElement =
    | Header(text: string)
    | Info(text: string)
    | CardList(cards: seq<Card>)

  /** The query area for the active mode: empty when no mode is active,
      otherwise the title, the mode's collector and the search button. */
  function QueryArea(mode: Option<Mode>, options: seq<SelectOption>): seq<QueryElement>
  {
    match mode
    case None => []
    case Some(Name) => [Title(LookupTitle), NameField, SearchButton]
    case Some(m) => [Title(LookupTitle), SelectorTable(Heading(m), options), SearchButton]
  }

  /** The URLs one search in a mode requests. */
  function Issued(m: Mode, name: string, rows: seq<string>): seq<string>
  {
    match m
    case Name => [RequestUrl(NamePrefix + name)]
    case Ingredients => [RequestUrl(IngredientsPath(rows))]
    case Garnish => Requests(GarnishPrefix, rows)
    case Drinkware => Requests(DrinkwarePrefix, rows)
    case Served => Requests(ServedPrefix, rows)
  }

  /** The records one search in a mode yields. */
  function Answer(m: Mode, name: string, rows: seq<string>, respond: string -> seq<Recipe>): seq<Recipe>
  {
    match m
    case Name => respond(RequestUrl(NamePrefix + name))
    case Ingredients => respond(RequestUrl(IngredientsPath(rows)))
    case Garnish => Collected(respond, GarnishPrefix, rows)
    case Drinkware => Collected(respond, DrinkwarePrefix, rows)
    case Served => Collected(respond, ServedPrefix, rows)
  }

  /** A name or ingredients search makes exactly one request; the other
      searches make one request per criterion, in table order; every request
      goes to the API base. */
  lemma IssuedCount(m: Mode, name: string, rows: seq<string>)
    ensures m == Name || m == Ingredients ==> |Issued(m, name, rows)| == 1
    ensures m == Garnish || m == Drinkware || m == Served ==>
              |Issued(m, name, rows)| == |rows| &&
              forall k :: 0 <= k < |rows| ==> Issued(m, name, rows)[k] == RequestUrl(
                (match m case Garnish => GarnishPrefix case Drinkware => DrinkwarePrefix case _ => ServedPrefix) + rows[k])
    ensures forall k :: 0 <= k < |Issued(m, name, rows)| ==> IsApiRequest(Issued(m, name, rows)[k])
  {
    match m
    case Name =>
    case Ingredients =>
    case Garnish => RequestsAt(GarnishPrefix, rows);
    case Drinkware => RequestsAt(DrinkwarePrefix, rows);
    case Served => RequestsAt(ServedPrefix, rows);
  }

  /** The result display after a search that yielded the given records: a
      "Results" header, the hint line and the card of the i-th record at
      position i; or, for no records, one "No recipes found" header alone. */
  predicate ShowsResults(display: seq<DisplayElement>, data: seq<Recipe>)
  {
    if |data| > 0 then
      && |display| == 3
      && display[0] == Header(ResultsTitle)
      && display[1] == Info(InfoText)
      && display[2].CardList?
      && |display[2].cards| == |data|
      && forall i :: 0 <= i < |data| ==> IsCardOf(display[2].cards[i], data[i], i)
    else
      display == [Header(NoRecipesTitle)]
  }

  /** In a result display every card opens its own body and no other. */
  lemma ResultCardsTargetOwnBodies(display: seq<DisplayElement>, data: seq<Recipe>)
    requires ShowsResults(display, data) && |data| > 0
    ensures forall i, j :: 0 <= i < |data| && 0 <= j < |data| ==>
              (display[2].cards[i].target == "#" + display[2].cards[j].bodyId <==> i == j)
  {
    var cards := display[2].cards;
    forall i, j | 0 <= i < |data| && 0 <= j < |data| && cards[i].target == "#" + cards[j].bodyId
      ensures i == j
    {
      assert IsCardOf(cards[i], data[i], i) && IsCardOf(cards[j], data[j], j);
      RouteInjective("#", cards[i].bodyId, cards[j].bodyId);
      CardIdInjective(i, j);
    }
  }

  /** The cards of the search handler: the card of the i-th record, built
      with position i, for every record in order. */
  method CreateCards(data: seq<Recipe>) returns (cards: seq<Card>)
    ensures |cards| == |data|
    ensures forall i :: 0 <= i < |data| ==> IsCardOf(cards[i], data[i], i)
  {
    cards := [];
    for i := 0 to |data|
      invariant |cards| == i
      invariant forall k :: 0 <= k < i ==> IsCardOf(cards[k], data[k], k)
    {
      var card := CreateRecipeCard(data[i], i);
      cards := cards + [card];
    }
  }

  /** The page: its query area, its result display and the state of the
      active collector. */
  class Page {
    const catalog: Catalog
    /** The children of the query area. */
    var query: seq<QueryElement>
    /** The children of the result display. */
    var display: seq<DisplayElement>
    /** The mode whose search button the query area shows, if any. */
    var mode: Option<Mode>
    /** The text in the name field of the name mode. */
    var nameInput: string
    /** The options of the selector of a selector-and-table mode. */
    var options: seq<SelectOption>
    /** The criteria table of a selector-and-table mode. */
    var table: CriterionTable

    /** The query area always shows the collector of the active mode. */
    ghost predicate Valid()
      reads this, catalog, table
    {
      catalog.Valid() && table.Valid() && query == QueryArea(mode, options)
    }

    constructor (catalog: Catalog)
      requires catalog.Valid()
      ensures Valid() && this.catalog == catalog
      ensures query == [] && display == [] && mode == None
    {
      this.catalog := catalog;
      query, display, mode, nameInput, options := [], [], None, "", [];
      table := new CriterionTable();
    }

    /** Removes the last child of the query area until none is left. */
    method ClearQuery()
      modifies this`query
      ensures query == []
    {
      while |query| > 0
        decreases |query|
      {
        query := query[..|query| - 1];
      }
    }

    /** Removes the last child of the result display until none is left. */
    method ClearDisplay()
      modifies this`display
      ensures display == []
    {
      while |display| > 0
        decreases |display|
      {
        display := display[..|display| - 1];
      }
    }

    /** display_query_input: empties the query area, then for one of the five
        modes fills it with the title, the mode's collector and the search
        button; any other number leaves it empty and offers no search. A
        selector-and-table mode first fetches its vocabulary and starts
        with a new, empty criteria table. The result display is left alone. */
    method DisplayQueryInput(which: int)
      requires Valid()
      modifies this, catalog`requests
      ensures Valid()
      ensures mode == ModeOf(which) && display == old(display)
      ensures mode.None? ==> query == [] && catalog.requests == old(catalog.requests)
      ensures mode == Some(Name) ==> nameInput == "" && catalog.requests == old(catalog.requests)
      ensures mode.Some? && mode.value != Name ==>
                && catalog.requests == old(catalog.requests) + [RequestUrl(VocabularyPath(mode.value))]
                && IsSelectorOf(options, catalog.vocabulary(RequestUrl(VocabularyPath(mode.value))))
                && fresh(table) && table.rows == []
    {
      ClearQuery();
      var m := ModeOf(which);
      if m.None? {
        mode := None;
        return;
      }
      var input: QueryElement;
      if m.value == Name {
        nameInput := "";
        input := NameField;
      } else {
        var items := catalog.GetVocabulary(VocabularyPath(m.value));
        var opts := BuildSelector(items);
        table := new CriterionTable();
        options := opts;
        input := SelectorTable(Heading(m.value), opts);
      }
      query := query + [Title(LookupTitle)];
      query := query + [input];
      query := query + [SearchButton];
      mode := m;
    }

    /** Typing into the name field. */
    method EnterName(text: string)
      requires Valid() && mode == Some(Name)
      modifies this`nameInput
      ensures Valid() && nameInput == text
    {
      nameInput := text;
    }

    /** The "Add" button: adds the value of the selected option to the table. */
    method AddSelected(index: nat)
      requires Valid() && mode.Some? && mode.value != Name && index < |options|
      modifies table
      ensures Valid()
      ensures table.rows == Added(old(table.rows), options[index].value)
    {
      table.Add(options[index].value);
    }

    /** The "Clear table" button. */
    method ClearTable()
      requires Valid() && mode.Some? && mode.value != Name
      modifies table
      ensures Valid() && table.rows == []
    {
      table.Clear();
    }

    /** The search button: runs the active mode's query on the current name
        or table rows, empties the result display, then shows the results. */
    method Search()
      requires Valid() && mode.Some?
      modifies this`display, catalog`requests
      ensures Valid()
      ensures catalog.requests == old(catalog.requests) + Issued(mode.value, nameInput, table.rows)
      ensures ShowsResults(display, Answer(mode.value, nameInput, table.rows, catalog.respond))
    {
      var data: seq<Recipe>;
      match mode.value {
        case Name => data := NameQuery(catalog, nameInput);
        case Ingredients => data := IngredientQuery(catalog, table.rows);
        case Garnish => data := GarnishQuery(catalog, table.rows);
        case Drinkware => data := DrinkwareQuery(catalog, table.rows);
        case Served => data := ServedQuery(catalog, table.rows);
      }
      assert data == Answer(mode.value, nameInput, table.rows, catalog.respond);

      ClearDisplay();
      if |data| > 0 {
        display := display + [Header(ResultsTitle)];
        display := display + [Info(InfoText)];
        var cards := CreateCards(data);
        display := display + [CardList(cards)];
        assert display == [Header(ResultsTitle), Info(InfoText), CardList(cards)];
      } else {
        display := display + [Header(NoRecipesTitle)];
      }
    }
  }
}
