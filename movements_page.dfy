/** The stock movements page: the movement history filtered by the search box. */
module MovementsPage {
  import opened Wrappers
  import Types
  import Seqs
  import Text

  datatype ProductRef = ProductRef(sku: string, name: string)

  /** A `stock_movements` row with its joined product, which may be missing. */
  datatype MovementRow = MovementRow(
    id: string,
    created_at: string,
    product: Option<ProductRef>,
    movement_type: Types.MovementType,
    qty: int,
    description: Option<string>)

  predicate Shown(m: MovementRow, search: string) {
    m.product.Some? && Text.Matches(m.product.value.name, m.product.value.sku, search)
  }

  function FilteredMovements(movements: seq<MovementRow>, search: string): (r: seq<MovementRow>)
    ensures forall i :: 0 <= i < |r| ==> r[i] in movements && r[i].product.Some?
    ensures forall i :: 0 <= i < |r| ==> Text.Matches(r[i].product.value.name, r[i].product.value.sku, search)
    ensures forall i :: 0 <= i < |movements| && Shown(movements[i], search) ==> movements[i] in r
    ensures Seqs.IsSublist(r, movements)
  {
    Seqs.Filter(movements, (m: MovementRow) => Shown(m, search))
  }

  /** With an empty search, exactly the movements that have a product are listed. */
  lemma EmptySearchKeepsJoinedRows(movements: seq<MovementRow>)
    ensures FilteredMovements(movements, "") == Seqs.Filter(movements, (m: MovementRow) => m.product.Some?)
  {
    forall i | 0 <= i < |movements| ensures Shown(movements[i], "") == movements[i].product.Some? {
      if movements[i].product.Some? {
        Text.EmptyQueryMatches(movements[i].product.value.name, movements[i].product.value.sku);
      }
    }
    Seqs.FilterCongruent(movements, (m: MovementRow) => Shown(m, ""), (m: MovementRow) => m.product.Some?);
  }

  /** A history in which every movement has its product is listed in full by an empty search. */
  lemma EmptySearchListsJoinedHistory(movements: seq<MovementRow>)
    requires forall i :: 0 <= i < |movements| ==> movements[i].product.Some?
    ensures FilteredMovements(movements, "") == movements
  {
    EmptySearchKeepsJoinedRows(movements);
    Seqs.FilterKeepsAll(movements, (m: MovementRow) => m.product.Some?);
  }
}
