/**
 * The catalog client of the cocktail page: the request helper that prefixes
 * every path with the API base, and the five lookups by name, ingredients,
 * garnish, drinkware and serving method.
 *
 * The HTTP catalog itself is abstract: a Catalog object answers every URL
 * with the value of a fixed total function, and records the URLs it was
 * asked for, in order, so that call order and call count can be stated.
 */
module CatalogApi {
  import opened Recipes
  import opened Wrappers

  /** The base every request URL starts with. */
  const ApiUrl: string := "http://localhost:5000/api/v1"

  const NamePrefix: string := "/cocktail/"
  const IngredientsPrefix: string := "/ingredients/"
  const GarnishPrefix: string := "/garnish/"
  const DrinkwarePrefix: string := "/drinkware/"
  const ServedPrefix: string := "/served/"

  /** The separator between ingredient names in an ingredients path. */
  const IngredientSeparator: char := '+'

  predicate IsApiRequest(url: string) {
    |ApiUrl| <= |url| && url[..|ApiUrl|] == ApiUrl
  }

  /** The URL requested for an API path: the path follows the API base. */
  function RequestUrl(path: string): (url: string)
    ensures IsApiRequest(url)
    ensures |url| == |ApiUrl| + |path| && url[|ApiUrl|..] == path
  {
    ApiUrl + path
  }

  /** Distinct paths are never sent to the same URL. */
  lemma RequestUrlInjective(p: string, q: string)
    requires RequestUrl(p) == RequestUrl(q)
    ensures p == q
  {
    assert p == RequestUrl(p)[|ApiUrl|..];
  }

  /** Distinct arguments under one route prefix give distinct paths. */
  lemma RouteInjective(prefix: string, a: string, b: string)
    requires prefix + a == prefix + b
    ensures a == b
  {
    assert a == (prefix + a)[|prefix|..];
    assert b == (prefix + b)[|prefix|..];
  }

  /** The catalog service, seen from the page. */
  class Catalog {
    /** What the catalog answers for a recipe lookup URL. */
    const respond: string -> seq<Recipe>
    /** What the catalog answers for a vocabulary URL. */
    const vocabulary: string -> seq<string>
    /** Every URL requested so far, oldest first. */
    var requests: seq<string>

    ghost predicate Valid()
      reads this
    {
      forall i :: 0 <= i < |requests| ==> IsApiRequest(requests[i])
    }

    constructor (respond: string -> seq<Recipe>, vocabulary: string -> seq<string>)
      ensures Valid() && requests == []
      ensures this.respond == respond && this.vocabulary == vocabulary
    {
      this.respond := respond;
      this.vocabulary := vocabulary;
      requests := [];
    }

    /** One round trip for recipe records at an API path. */
    method GetRecipes(path: string) returns (recipes: seq<Recipe>)
      requires Valid()
      modifies this`requests
      ensures Valid()
      ensures requests == old(requests) + [RequestUrl(path)]
      ensures recipes == respond(RequestUrl(path))
    {
      var url := RequestUrl(path);
      requests := requests + [url];
      recipes := respond(url);
    }

    /** One round trip for a list of known values at an API path. */
    method GetVocabulary(path: string) returns (items: seq<string>)
      requires Valid()
      modifies this`requests
      ensures Valid()
      ensures requests == old(requests) + [RequestUrl(path)]
      ensures items == vocabulary(RequestUrl(path))
    {
      var url := RequestUrl(path);
      requests := requests + [url];
      items := vocabulary(url);
    }
  }

  // ---------------------------------------------------------------------
  // Joining criteria into one ingredients path, and splitting it again

  /** The parts with the separator between neighbours and nowhere else. */
  function Join(parts: seq<string>, sep: char): string
  {
    if |parts| == 0 then ""
    else if |parts| == 1 then parts[0]
    else Join(parts[..|parts| - 1], sep) + [sep] + parts[|parts| - 1]
  }

  /** The position of the last occurrence of c in s, if any. */
  function LastIndexOf(s: string, c: char): (k: Option<nat>)
    ensures k.Some? ==> k.value < |s| && s[k.value] == c && c !in s[k.value + 1..]
    ensures k.None? ==> c !in s
  {
    if |s| == 0 then None
    else if s[|s| - 1] == c then Some(|s| - 1)
    else
      var k := LastIndexOf(s[..|s| - 1], c);
      assert s == s[..|s| - 1] + [s[|s| - 1]];
      k
  }

  /** How a receiver would cut a joined string back into its parts. */
  function Split(s: string, sep: char): (parts: seq<string>)
    ensures |parts| > 0
    decreases |s|
  {
    match LastIndexOf(s, sep)
    case None => [s]
    case Some(k) => Split(s[..k], sep) + [s[k + 1..]]
  }

  lemma {:induction false} LastIndexOfAppended(a: string, sep: char, b: string)
    requires sep !in b
    ensures LastIndexOf(a + [sep] + b, sep) == Some(|a|)
    decreases |b|
  {
    var s := a + [sep] + b;
    if |b| > 0 {
      assert s[..|s| - 1] == a + [sep] + b[..|b| - 1];
      assert s[|s| - 1] == b[|b| - 1];
      LastIndexOfAppended(a, sep, b[..|b| - 1]);
    }
  }

  /** Splitting undoes joining when no part contains the separator. */
  lemma {:induction false} SplitJoin(parts: seq<string>, sep: char)
    requires |parts| > 0
    requires forall i :: 0 <= i < |parts| ==> sep !in parts[i]
    ensures Split(Join(parts, sep), sep) == parts
  {
    if |parts| > 1 {
      var init, last := parts[..|parts| - 1], parts[|parts| - 1];
      var s := Join(init, sep) + [sep] + last;
      LastIndexOfAppended(Join(init, sep), sep, last);
      assert s[..|Join(init, sep)|] == Join(init, sep);
      assert s[|Join(init, sep)| + 1..] == last;
      SplitJoin(init, sep);
      assert init + [last] == parts;
    }
  }

  /** The sum of the lengths of the parts. */
  function TotalLength(parts: seq<string>): nat
  {
    if |parts| == 0 then 0 else TotalLength(parts[..|parts| - 1]) + |parts[|parts| - 1]|
  }

  /** A joined string of n parts holds the parts' characters and n - 1
      separators; it begins with the first part and ends with the last, so
      no separator is added before the first part or after the last. */
  lemma {:induction false} JoinShape(parts: seq<string>, sep: char)
    requires |parts| > 0
    ensures |Join(parts, sep)| == TotalLength(parts) + |parts| - 1
    ensures |parts[0]| <= |Join(parts, sep)|
    ensures Join(parts, sep)[..|parts[0]|] == parts[0]
    ensures Join(parts, sep)[|Join(parts, sep)| - |parts[|parts| - 1]|..] == parts[|parts| - 1]
  {
    if |parts| > 1 {
      var init := parts[..|parts| - 1];
      JoinShape(init, sep);
      assert init[0] == parts[0];
      var j := Join(init, sep);
      assert (j + [sep] + parts[|parts| - 1])[..|parts[0]|] == j[..|parts[0]|];
    }
  }

  /** The ingredients path: the fixed prefix, then the criteria joined by '+'. */
  function IngredientsPath(rows: seq<string>): (path: string)
    ensures rows == [] ==> path == IngredientsPrefix
    ensures |path| >= |IngredientsPrefix| && path[..|IngredientsPrefix|] == IngredientsPrefix
  {
    IngredientsPrefix + Join(rows, IngredientSeparator)
  }

  /** When no criterion contains '+', the catalog can recover every criterion,
      in order, from the ingredients path. */
  lemma IngredientsPathRecoversRows(rows: seq<string>)
    requires |rows| > 0
    requires forall i :: 0 <= i < |rows| ==> IngredientSeparator !in rows[i]
    ensures Split(IngredientsPath(rows)[|IngredientsPrefix|..], IngredientSeparator) == rows
  {
    assert IngredientsPath(rows)[|IngredientsPrefix|..] == Join(rows, IngredientSeparator);
    SplitJoin(rows, IngredientSeparator);
  }

  // ---------------------------------------------------------------------
  // One lookup per criterion

  /** The URLs of the per-criterion lookups, in criterion order. */
  function Requests(prefix: string, rows: seq<string>): seq<string>
  {
    if |rows| == 0 then []
    else Requests(prefix, rows[..|rows| - 1]) + [RequestUrl(prefix + rows[|rows| - 1])]
  }

  /** The records of the per-criterion lookups, concatenated in criterion order. */
  function Collected(respond: string -> seq<Recipe>, prefix: string, rows: seq<string>): seq<Recipe>
  {
    if |rows| == 0 then []
    else Collected(respond, prefix, rows[..|rows| - 1]) + respond(RequestUrl(prefix + rows[|rows| - 1]))
  }

  /** The number of records all per-criterion lookups return together. */
  function TotalFound(respond: string -> seq<Recipe>, prefix: string, rows: seq<string>): nat
  {
    if |rows| == 0 then 0
    else TotalFound(respond, prefix, rows[..|rows| - 1]) + |respond(RequestUrl(prefix + rows[|rows| - 1]))|
  }

  /** There is one lookup per criterion, the k-th for the k-th criterion. */
  lemma {:induction false} RequestsAt(prefix: string, rows: seq<string>)
    ensures |Requests(prefix, rows)| == |rows|
    ensures forall k :: 0 <= k < |rows| ==> Requests(prefix, rows)[k] == RequestUrl(prefix + rows[k])
  {
    if |rows| > 0 {
      RequestsAt(prefix, rows[..|rows| - 1]);
    }
  }

  /** Lookups for two tables queried one after the other are the lookups of
      the concatenated table. */
  lemma {:induction false} CollectedAppend(respond: string -> seq<Recipe>, prefix: string, a: seq<string>, b: seq<string>)
    ensures Collected(respond, prefix, a + b) == Collected(respond, prefix, a) + Collected(respond, prefix, b)
    ensures Requests(prefix, a + b) == Requests(prefix, a) + Requests(prefix, b)
    decreases |b|
  {
    if |b| > 0 {
      assert (a + b)[..|a + b| - 1] == a + b[..|b| - 1];
      CollectedAppend(respond, prefix, a, b[..|b| - 1]);
    } else {
      assert a + b == a;
    }
  }

  /** The result holds exactly as many records as the lookups returned. */
  lemma {:induction false} CollectedLength(respond: string -> seq<Recipe>, prefix: string, rows: seq<string>)
    ensures |Collected(respond, prefix, rows)| == TotalFound(respond, prefix, rows)
  {
    if |rows| > 0 {
      CollectedLength(respond, prefix, rows[..|rows| - 1]);
    }
  }

  /** The records of the k-th criterion form one contiguous block, placed
      after the records of all earlier criteria. */
  lemma CollectedBlock(respond: string -> seq<Recipe>, prefix: string, rows: seq<string>, k: nat)
    requires k < |rows|
    ensures var start := |Collected(respond, prefix, rows[..k])|;
            var block := respond(RequestUrl(prefix + rows[k]));
            start + |block| <= |Collected(respond, prefix, rows)| &&
            Collected(respond, prefix, rows)[start..start + |block|] == block
  {
    var before, after := rows[..k], rows[k + 1..];
    assert rows == before + [rows[k]] + after;
    CollectedAppend(respond, prefix, before + [rows[k]], after);
    CollectedAppend(respond, prefix, before, [rows[k]]);
    assert Collected(respond, prefix, [rows[k]]) == respond(RequestUrl(prefix + rows[k]));
  }

  /** No deduplication: a criterion listed twice contributes its records twice. */
  lemma RepeatedCriterion(respond: string -> seq<Recipe>, prefix: string, rows: seq<string>, v: string)
    ensures Collected(respond, prefix, rows + [v, v])
         == Collected(respond, prefix, rows) + respond(RequestUrl(prefix + v)) + respond(RequestUrl(prefix + v))
  {
    CollectedAppend(respond, prefix, rows, [v, v]);
    assert [v, v][..1] == [v] && [v][..0] == [];
    assert Collected(respond, prefix, [v]) == respond(RequestUrl(prefix + v));
  }

  /** Three criteria answered by one, no and two records give those three
      records in criterion order: empty answers are skipped, nothing is merged. */
  lemma CollectedExample(respond: string -> seq<Recipe>, prefix: string, a: string, b: string, c: string,
                         r1: Recipe, r2: Recipe, r3: Recipe)
    requires respond(RequestUrl(prefix + a)) == [r1]
    requires respond(RequestUrl(prefix + b)) == []
    requires respond(RequestUrl(prefix + c)) == [r2, r3]
    ensures Collected(respond, prefix, [a, b, c]) == [r1, r2, r3]
  {
    assert [a, b, c][..2] == [a, b] && [a, b][..1] == [a] && [a][..0] == [];
    assert Collected(respond, prefix, [a]) == [r1];
    assert Collected(respond, prefix, [a, b]) == [r1];
  }

  // ---------------------------------------------------------------------
  // The queries

  /** name_query: one lookup at "/cocktail/" followed by the name. */
  method NameQuery(catalog: Catalog, name: string) returns (recipes: seq<Recipe>)
    requires catalog.Valid()
    modifies catalog`requests
    ensures catalog.Valid()
    ensures catalog.requests == old(catalog.requests) + [RequestUrl(NamePrefix + name)]
    ensures recipes == catalog.respond(RequestUrl(NamePrefix + name))
  {
    recipes := catalog.GetRecipes(NamePrefix + name);
  }

  /** ingredient_query: builds one path from all criteria and makes a single
      lookup with it. */
  method IngredientQuery(catalog: Catalog, rows: seq<string>) returns (recipes: seq<Recipe>)
    requires catalog.Valid()
    modifies catalog`requests
    ensures catalog.Valid()
    ensures catalog.requests == old(catalog.requests) + [RequestUrl(IngredientsPath(rows))]
    ensures recipes == catalog.respond(RequestUrl(IngredientsPath(rows)))
  {
    var path := IngredientsPrefix;
    for i := 0 to |rows|
      invariant path == IngredientsPrefix +
        (if i == 0 then "" else Join(rows[..i], IngredientSeparator) + (if i < |rows| then [IngredientSeparator] else ""))
    {
      assert rows[..i + 1][..i] == rows[..i];
      path := path + rows[i];
      if i < |rows| - 1 {
        path := path + [IngredientSeparator];
      }
    }
    assert rows[..|rows|] == rows;
    assert path == IngredientsPath(rows);
    recipes := catalog.GetRecipes(path);
  }

  /** The loop the garnish, drinkware and served queries share: one lookup
      per criterion, in table order, every returned record appended. */
  method CollectEach(catalog: Catalog, prefix: string, rows: seq<string>) returns (recipes: seq<Recipe>)
    requires catalog.Valid()
    modifies catalog`requests
    ensures catalog.Valid()
    ensures catalog.requests == old(catalog.requests) + Requests(prefix, rows)
    ensures recipes == Collected(catalog.respond, prefix, rows)
  {
    recipes := [];
    for i := 0 to |rows|
      invariant catalog.Valid()
      invariant catalog.requests == old(catalog.requests) + Requests(prefix, rows[..i])
      invariant recipes == Collected(catalog.respond, prefix, rows[..i])
    {
      assert rows[..i + 1][..i] == rows[..i];
      var fetched := catalog.GetRecipes(prefix + rows[i]);
      ghost var before := recipes;
      for j := 0 to |fetched|
        invariant recipes == before + fetched[..j]
      {
        recipes := recipes + [fetched[j]];
      }
      assert fetched[..|fetched|] == fetched;
    }
    assert rows[..|rows|] == rows;
  }

  /** garnish_query */
  method GarnishQuery(catalog: Catalog, rows: seq<string>) returns (recipes: seq<Recipe>)
    requires catalog.Valid()
    modifies catalog`requests
    ensures catalog.Valid()
    ensures catalog.requests == old(catalog.requests) + Requests(GarnishPrefix, rows)
    ensures recipes == Collected(catalog.respond, GarnishPrefix, rows)
  {
    recipes := CollectEach(catalog, GarnishPrefix, rows);
  }

  /** drinkware_query */
  method DrinkwareQuery(catalog: Catalog, rows: seq<string>) returns (recipes: seq<Recipe>)
    requires catalog.Valid()
    modifies catalog`requests
    ensures catalog.Valid()
    ensures catalog.requests == old(catalog.requests) + Requests(DrinkwarePrefix, rows)
    ensures recipes == Collected(catalog.respond, DrinkwarePrefix, rows)
  {
    recipes := CollectEach(catalog, DrinkwarePrefix, rows);
  }

  /** served_query */
  method ServedQuery(catalog: Catalog, rows: seq<string>) returns (recipes: seq<Recipe>)
    requires catalog.Valid()
    modifies catalog`requests
    ensures catalog.Valid()
    ensures catalog.requests == old(catalog.requests) + Requests(ServedPrefix, rows)
    ensures recipes == Collected(catalog.respond, ServedPrefix, rows)
  {
    recipes := CollectEach(catalog, ServedPrefix, rows);
  }
}
