/**
 * The pre-job safety checklist modal: a private copy of the work order's
 * checklist that the operative ticks item by item, and a confirm action that
 * hands the copy back only once every item is ticked.
 */
module Checklist {
  import opened Opt

  /** One checklist line: an identifier, the question shown, and whether it is ticked. */
  datatype Item = Item(id: string, prompt: string, completed: bool)

  /** The same item with its tick reversed. */
  function Flip(item: Item): Item
  {
    item.(completed := !item.completed)
  }

  /** True when no identifier occurs twice in `ids`. */
  predicate Distinct(ids: seq<string>)
  {
    forall i, j :: 0 <= i < j < |ids| ==> ids[i] != ids[j]
  }

  /**
   * The modal's seeding effect: a copy of the given checklist in which every
   * item is unticked, whatever it was before.
   */
  function Seed(checklist: seq<Item>): (r: seq<Item>)
    ensures |r| == |checklist|
    ensures forall i :: 0 <= i < |r| ==>
      && r[i].id == checklist[i].id
      && r[i].prompt == checklist[i].prompt
      && !r[i].completed
  {
    if |checklist| == 0 then []
    else [checklist[0].(completed := false)] + Seed(checklist[1..])
  }

  /**
   * A checkbox change for `id`: every item carrying that identifier has its
   * tick reversed, and every other item is left as it was, in place.
   */
  function Toggle(state: seq<Item>, id: string): (r: seq<Item>)
    ensures |r| == |state|
    ensures forall i :: 0 <= i < |r| ==> r[i].id == state[i].id && r[i].prompt == state[i].prompt
    ensures forall i :: 0 <= i < |r| && state[i].id == id ==> r[i].completed == !state[i].completed
    ensures forall i :: 0 <= i < |r| && state[i].id != id ==> r[i] == state[i]
  {
    if |state| == 0 then []
    else [if state[0].id == id then Flip(state[0]) else state[0]] + Toggle(state[1..], id)
  }

  /** The `every` fold behind the modal's all-complete flag. */
  predicate AllComplete(state: seq<Item>)
    ensures AllComplete(state) <==> forall i :: 0 <= i < |state| ==> state[i].completed
  {
    |state| == 0 || (state[0].completed && AllComplete(state[1..]))
  }

  /**
   * The confirm action: the current checklist is handed to the caller when
   * every item is ticked, and nothing is handed over otherwise.
   */
  function Confirm(state: seq<Item>): (r: Option<seq<Item>>)
    ensures r.Some? <==> forall i :: 0 <= i < |state| ==> state[i].completed
    ensures r.Some? ==> r.value == state
    ensures r.Some? ==> forall i :: 0 <= i < |r.value| ==> r.value[i].completed
  {
    if AllComplete(state) then Some(state) else None
  }

  /** The confirm button is enabled exactly when confirming would hand the checklist over. */
  predicate ConfirmEnabled(state: seq<Item>)
    ensures ConfirmEnabled(state) <==> Confirm(state).Some?
  {
    AllComplete(state)
  }

  /** A series of checkbox changes, applied left to right. */
  function ToggleAll(state: seq<Item>, ids: seq<string>): seq<Item>
    decreases |ids|
  {
    if |ids| == 0 then state else ToggleAll(Toggle(state, ids[0]), ids[1..])
  }

  /** Ticking the same box twice leaves the checklist as it was. */
  lemma ToggleTwice(state: seq<Item>, id: string)
    ensures Toggle(Toggle(state, id), id) == state
  {
  }

  /** Checkbox changes on two identifiers may be made in either order. */
  lemma ToggleCommutes(state: seq<Item>, a: string, b: string)
    ensures Toggle(Toggle(state, a), b) == Toggle(Toggle(state, b), a)
  {
  }

  /**
   * A series of changes over distinct identifiers reverses the tick of exactly
   * the items whose identifier is in the series, and leaves every other item,
   * and the order, unchanged.
   */
  lemma {:induction false} ToggleAllFlipsListed(state: seq<Item>, ids: seq<string>)
    requires Distinct(ids)
    decreases |ids|
    ensures |ToggleAll(state, ids)| == |state|
    ensures forall i :: 0 <= i < |state| ==>
      ToggleAll(state, ids)[i] == (if state[i].id in ids then Flip(state[i]) else state[i])
  {
    if |ids| > 0 {
      var next := Toggle(state, ids[0]);
      var rest := ids[1..];
      assert Distinct(rest) by {
        forall i, j | 0 <= i < j < |rest| ensures rest[i] != rest[j] {
          assert rest[i] == ids[i + 1] && rest[j] == ids[j + 1];
        }
      }
      ToggleAllFlipsListed(next, rest);
      assert ids[0] !in rest by {
        forall j | 0 <= j < |rest| ensures rest[j] != ids[0] {
          assert rest[j] == ids[j + 1];
        }
      }
      forall i | 0 <= i < |state|
        ensures ToggleAll(state, ids)[i] == (if state[i].id in ids then Flip(state[i]) else state[i])
      {
        assert next[i].id == state[i].id;
        assert state[i].id in ids <==> state[i].id == ids[0] || state[i].id in rest;
      }
    }
  }

  /**
   * Seeding a checklist and then ticking each of its identifiers once, in any
   * order, enables confirmation, and confirming hands back every item ticked
   * with its identifier and prompt intact.
   */
  lemma TickingEveryItemEnablesConfirm(checklist: seq<Item>, ids: seq<string>)
    requires Distinct(ids)
    requires forall i :: 0 <= i < |checklist| ==> checklist[i].id in ids
    ensures ConfirmEnabled(ToggleAll(Seed(checklist), ids))
    ensures Confirm(ToggleAll(Seed(checklist), ids)).Some?
    ensures var done := Confirm(ToggleAll(Seed(checklist), ids)).value;
      && |done| == |checklist|
      && forall i :: 0 <= i < |done| ==>
        done[i] == checklist[i].(completed := true)
  {
    ToggleAllFlipsListed(Seed(checklist), ids);
  }

  /** A freshly seeded checklist can be confirmed only when it has no items at all. */
  lemma SeedConfirmsOnlyWhenEmpty(checklist: seq<Item>)
    ensures Confirm(Seed(checklist)).Some? <==> |checklist| == 0
  {
  }

  /** The first checklist of the gas-main work order in the fixture data. */
  const GasMainChecklist := [
    Item("gas-check-1", "Site safety briefing complete?", false),
    Item("gas-check-2", "Gas detectors calibrated and active?", false),
    Item("gas-check-3", "Excavation area marked and clear?", false)
  ]

  /**
   * On the gas-main checklist, ticking two of the three items leaves confirm
   * disabled, and ticking the third enables it.
   */
  lemma GasMainExample()
    ensures Confirm(ToggleAll(Seed(GasMainChecklist), ["gas-check-1", "gas-check-3"])).None?
    ensures Confirm(ToggleAll(Seed(GasMainChecklist), ["gas-check-1", "gas-check-3", "gas-check-2"])).Some?
  {
  }
}
