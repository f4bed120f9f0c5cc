/**
 * The selector-and-table collector of the ingredients, garnish, drinkware
 * and served modes: a drop-down that lists a placeholder option followed by
 * the vocabulary, and a table whose rows are the chosen criteria.
 */
module Collector {

  /** The value of the placeholder option; choosing it adds nothing. */
  const Sentinel: string := "None"
  /** The text the placeholder option shows. */
  const SentinelLabel: string := "Select..."

  /** One option of the drop-down: the value it submits and the text it shows. */
  datatype SelectOption = SelectOption(value: string, text: string)

  /** The drop-down built for a vocabulary: the placeholder first, then one
      option per item, in order, each showing and submitting the item. */
  predicate IsSelectorOf(options: seq<SelectOption>, items: seq<string>)
  {
    && |options| == |items| + 1
    && options[0] == SelectOption(Sentinel, SentinelLabel)
    && forall i :: 1 <= i < |options| ==> options[i] == SelectOption(items[i - 1], items[i - 1])
  }

  /** The option list of display_selector_and_table. */
  method BuildSelector(items: seq<string>) returns (options: seq<SelectOption>)
    ensures IsSelectorOf(options, items)
  {
    options := [SelectOption(Sentinel, SentinelLabel)];
    for k := 0 to |items|
      invariant |options| == k + 1
      invariant options[0] == SelectOption(Sentinel, SentinelLabel)
      invariant forall i :: 1 <= i < |options| ==> options[i] == SelectOption(items[i - 1], items[i - 1])
    {
      options := options + [SelectOption(items[k], items[k])];
    }
  }

  /** The value of the option at a position is the placeholder for position
      0 and the vocabulary item before it otherwise, so a value is ever added
      exactly when it comes from the vocabulary and is not spelled "None". */
  lemma SelectedValue(options: seq<SelectOption>, items: seq<string>, k: nat)
    requires IsSelectorOf(options, items)
    requires k < |options|
    ensures k == 0 ==> options[k].value == Sentinel
    ensures k > 0 ==> options[k].value == items[k - 1]
    ensures options[k].value != Sentinel <==> k > 0 && items[k - 1] != Sentinel
  {
  }

  /** The rows the table holds after an "Add" with the given selected value. */
  function Added(rows: seq<string>, selected: string): (r: seq<string>)
    ensures selected == Sentinel ==> r == rows
    ensures selected != Sentinel ==> |r| == |rows| + 1 && r[..|rows|] == rows && r[|rows|] == selected
  {
    if selected == Sentinel then rows else rows + [selected]
  }

  /** Duplicates are kept: adding one value twice puts two rows at the end. */
  lemma {:induction false} AddedTwice(rows: seq<string>, v: string)
    requires v != Sentinel
    ensures Added(Added(rows, v), v) == rows + [v, v]
    ensures multiset(Added(Added(rows, v), v))[v] == multiset(rows)[v] + 2
  {
    assert Added(Added(rows, v), v) == rows + [v] + [v];
    assert rows + [v] + [v] == rows + [v, v];
  }

  /** The body of the criteria table: one row per chosen criterion, in the
      order they were added. */
  class CriterionTable {
    var rows: seq<string>

    /** No row is ever the placeholder value. */
    ghost predicate Valid()
      reads this
    {
      Sentinel !in rows
    }

    constructor ()
      ensures Valid() && rows == []
    {
      rows := [];
    }

    /** add_to_table: appends the selected value as a new last row, unless it
        is the placeholder, which leaves the table as it was. */
    method Add(selected: string)
      requires Valid()
      modifies this
      ensures Valid()
      ensures rows == Added(old(rows), selected)
    {
      if selected != Sentinel {
        rows := rows + [selected];
      }
    }

    /** clear_table: removes the last row until none is left. The result does
        not depend on the rows before, so clearing twice is clearing once. */
    method Clear()
      requires Valid()
      modifies this
      ensures Valid()
      ensures rows == []
    {
      while |rows| > 0
        invariant Valid()
        invariant rows == old(rows)[..|rows|]
        decreases |rows|
      {
        rows := rows[..|rows| - 1];
      }
    }
  }
}
