/** The `Product` component's editable table: the rows, the row being edited
    and its draft, and the draft of a new row. Ids, prices and the other cells
    are opaque display strings. */
module ProductComponent {
  import opened Wrappers
  import JsString

  datatype ProductRow = ProductRow(id: string, name: string, category: string, price: string,
                                   stock: string, status: string)

  /** `keyof ProductRow`. */
  datatype Field = Id | Name | Category | Price | Stock | Status

  function Get(row: ProductRow, key: Field): string {
    match key
    case Id => row.id
    case Name => row.name
    case Category => row.category
    case Price => row.price
    case Stock => row.stock
    case Status => row.status
  }

  /** `{ ...row, [key]: value }`: the named cell changes and no other. */
  function With(row: ProductRow, key: Field, value: string): (r: ProductRow)
    ensures Get(r, key) == value
    ensures forall k :: k != key ==> Get(r, k) == Get(row, k)
  {
    match key
    case Id => row.(id := value)
    case Name => row.(name := value)
    case Category => row.(category := value)
    case Price => row.(price := value)
    case Stock => row.(stock := value)
    case Status => row.(status := value)
  }

  const EmptyRow := ProductRow("", "", "", "", "", "")

  const InitialRows: seq<ProductRow> := [
    ProductRow("1", "Enterprise API Gateway", "Security", "$599", "∞", "Active"),
    ProductRow("2", "Identity Provider", "Authentication", "$399", "∞", "Active"),
    ProductRow("3", "OIDC Connector", "Integration", "$299", "∞", "Active"),
    ProductRow("4", "OAuth Server", "Security", "$499", "∞", "Active")
  ]

  predicate IdsUnique(rows: seq<ProductRow>) {
    forall i, j :: 0 <= i < j < |rows| ==> rows[i].id != rows[j].id
  }

  predicate HasRowId(rows: seq<ProductRow>, id: string) {
    exists k :: 0 <= k < |rows| && rows[k].id == id
  }

  /** The guard of `handleAddRow`: name, category and price are all filled in. */
  predicate CanAdd(newRow: ProductRow) {
    JsString.Truthy(newRow.name) && JsString.Truthy(newRow.category) && JsString.Truthy(newRow.price)
  }

  /** `s || fallback` on strings. */
  function OrElse(s: string, fallback: string): string {
    if JsString.Truthy(s) then s else fallback
  }

  /** The row `handleAddRow` appends: the draft with a length-based id and
      defaults for stock and status. */
  function AddedRow(rows: seq<ProductRow>, newRow: ProductRow): (r: ProductRow)
    ensures r.id == JsString.NatToString(|rows| + 1)
    ensures r.name == newRow.name && r.category == newRow.category && r.price == newRow.price
    ensures r.stock == (if newRow.stock == "" then "∞" else newRow.stock)
    ensures r.status == (if newRow.status == "" then "Active" else newRow.status)
  {
    newRow.(id := JsString.NatToString(|rows| + 1),
            stock := OrElse(newRow.stock, "∞"),
            status := OrElse(newRow.status, "Active"))
  }

  // ---------------------------------------------------------------------
  // `rows.filter(row => row.id !== id)`

  function RemoveId(rows: seq<ProductRow>, id: string): (r: seq<ProductRow>)
    ensures |r| <= |rows|
    ensures !HasRowId(r, id)
  {
    if rows == [] then []
    else (if rows[0].id != id then [rows[0]] else []) + RemoveId(rows[1..], id)
  }

  /** Filtering distributes over concatenation, so the kept rows keep their order. */
  lemma {:induction false} RemoveIdAppend(a: seq<ProductRow>, b: seq<ProductRow>, id: string)
    ensures RemoveId(a + b, id) == RemoveId(a, id) + RemoveId(b, id)
    decreases |a|
  {
    if a == [] {
      assert a + b == b;
    } else {
      assert (a + b)[0] == a[0] && (a + b)[1..] == a[1..] + b;
      RemoveIdAppend(a[1..], b, id);
      var head := if a[0].id != id then [a[0]] else [];
      assert RemoveId(a + b, id) == head + (RemoveId(a[1..], id) + RemoveId(b, id));
    }
  }

  /** A row survives exactly when it was there and has a different id. */
  lemma {:induction false} RemoveIdMember(rows: seq<ProductRow>, id: string, x: ProductRow)
    ensures x in RemoveId(rows, id) <==> x in rows && x.id != id
    decreases |rows|
  {
    if rows != [] {
      RemoveIdMember(rows[1..], id, x);
      assert rows == [rows[0]] + rows[1..];
    }
  }

  /** Deleting an id no row has changes nothing; deleting one that is
      present shortens the list. */
  lemma {:induction false} RemoveIdAbsent(rows: seq<ProductRow>, id: string)
    ensures !HasRowId(rows, id) ==> RemoveId(rows, id) == rows
    ensures HasRowId(rows, id) ==> |RemoveId(rows, id)| < |rows|
    decreases |rows|
  {
    if rows != [] {
      RemoveIdAbsent(rows[1..], id);
      if !HasRowId(rows, id) {
        assert !HasRowId(rows[1..], id) by {
          forall k | 0 <= k < |rows[1..]| ensures rows[1..][k].id != id {
            assert rows[1..][k] == rows[k + 1];
          }
        }
      } else if rows[0].id != id {
        var k :| 0 <= k < |rows| && rows[k].id == id;
        assert rows[1..][k - 1].id == id;
      }
    }
  }

  // ---------------------------------------------------------------------
  // `rows.map(row => row.id === id ? data : row)`

  function ReplaceId(rows: seq<ProductRow>, id: string, data: ProductRow): (r: seq<ProductRow>)
    ensures |r| == |rows|
    ensures forall k :: 0 <= k < |rows| ==> r[k] == (if rows[k].id == id then data else rows[k])
  {
    if rows == [] then []
    else [if rows[0].id == id then data else rows[0]] + ReplaceId(rows[1..], id, data)
  }

  /** Saving a row's unchanged copy gives back the same rows, as long as no
      other row shares its id. */
  lemma SaveUnchangedIsIdentity(rows: seq<ProductRow>, k: nat)
    requires k < |rows| && IdsUnique(rows)
    ensures ReplaceId(rows, rows[k].id, rows[k]) == rows
  {
    var r := ReplaceId(rows, rows[k].id, rows[k]);
    forall j | 0 <= j < |rows| ensures r[j] == rows[j] {
      if j < k {
        assert rows[j].id != rows[k].id;
      } else if j > k {
        assert rows[k].id != rows[j].id;
      }
    }
  }

  // ---------------------------------------------------------------------
  // Ids are not unique

  lemma InitialRowsIdsUnique()
    ensures IdsUnique(InitialRows)
  {
  }

  /** Ids are `rows.length + 1`, so after deleting row "1" of the initial
      table the next added row gets id "4", which row "OAuth Server" still
      has; saving an edit of either row then overwrites both. */
  lemma DuplicateIdAfterDelete(draft: ProductRow)
    ensures var afterDelete := RemoveId(InitialRows, "1");
      var afterAdd := afterDelete + [AddedRow(afterDelete, draft)];
      && |afterAdd| == 4
      && afterAdd[2].id == "4" && afterAdd[3].id == "4"
      && !IdsUnique(afterAdd)
      && ReplaceId(afterAdd, "4", draft)[2] == draft
      && ReplaceId(afterAdd, "4", draft)[3] == draft
  {
    var afterDelete := RemoveId(InitialRows, "1");
    assert InitialRows == [InitialRows[0]] + InitialRows[1..];
    assert afterDelete == InitialRows[1..] by {
      RemoveIdAbsent(InitialRows[1..], "1");
    }
    assert JsString.NatToString(4) == "4";
  }

  // ---------------------------------------------------------------------
  // The component's state and its handlers

  class ProductTable {
    var rows: seq<ProductRow>
    var editRow: Option<string>
    var editData: Option<ProductRow>
    var newRow: ProductRow

    /** The handlers set and clear `editRow` and `editData` together, so in
        every reachable state the save guard `editData && editRow` comes down
        to the edited id being truthy (see `HandleEditSave`). */
    ghost predicate Valid()
      reads this
    {
      editRow.Some? == editData.Some?
    }

    /** The initial state of the `useState` hooks. */
    constructor ()
      ensures rows == InitialRows && editRow == None && editData == None && newRow == EmptyRow
      ensures Valid()
    {
      rows := InitialRows;
      editRow := None;
      editData := None;
      newRow := EmptyRow;
    }

    /** `handleAddRow`: when the draft has a name, a category and a price,
        append it and clear every cell of the draft; otherwise do nothing. */
    method HandleAddRow()
      modifies this
      ensures CanAdd(old(newRow)) ==>
        rows == old(rows) + [AddedRow(old(rows), old(newRow))] && newRow == EmptyRow
      ensures !CanAdd(old(newRow)) ==> rows == old(rows) && newRow == old(newRow)
      ensures editRow == old(editRow) && editData == old(editData)
      ensures old(Valid()) ==> Valid()
    {
      if JsString.Truthy(newRow.name) && JsString.Truthy(newRow.category) && JsString.Truthy(newRow.price) {
        var newId := JsString.NatToString(|rows| + 1);
        rows := rows + [newRow.(id := newId, stock := OrElse(newRow.stock, "∞"),
                                status := OrElse(newRow.status, "Active"))];
        newRow := EmptyRow;
      }
    }

    /** `handleDeleteRow(id)`: drop every row with that id. */
    method HandleDeleteRow(id: string)
      modifies this
      ensures rows == RemoveId(old(rows), id)
      ensures editRow == old(editRow) && editData == old(editData) && newRow == old(newRow)
      ensures old(Valid()) ==> Valid()
    {
      rows := RemoveId(rows, id);
    }

    /** `handleEditStart(row)`: start editing a copy of `row`. */
    method HandleEditStart(row: ProductRow)
      modifies this
      ensures editRow == Some(row.id) && editData == Some(row)
      ensures rows == old(rows) && newRow == old(newRow)
      ensures Valid()
    {
      editRow := Some(row.id);
      editData := Some(row);
    }

    /** `handleEditCancel`: leave edit mode and discard the draft. */
    method HandleEditCancel()
      modifies this
      ensures editRow == None && editData == None
      ensures rows == old(rows) && newRow == old(newRow)
      ensures Valid()
    {
      editRow := None;
      editData := None;
    }

    /** `handleEditSave`: when there is a draft and a truthy edited id, put the
        draft in place of every row with that id and leave edit mode;
        otherwise do nothing. */
    method HandleEditSave()
      modifies this
      ensures old(editData).Some? && JsString.TruthyOption(old(editRow)) ==>
        rows == ReplaceId(old(rows), old(editRow).value, old(editData).value)
        && editRow == None && editData == None
      ensures !(old(editData).Some? && JsString.TruthyOption(old(editRow))) ==>
        rows == old(rows) && editRow == old(editRow) && editData == old(editData)
      ensures newRow == old(newRow)
      ensures old(Valid()) ==> Valid()
      ensures old(Valid()) ==>
        (JsString.TruthyOption(old(editRow)) <==> old(editData).Some? && JsString.TruthyOption(old(editRow)))
      ensures old(Valid()) && JsString.TruthyOption(old(editRow)) ==>
        rows == ReplaceId(old(rows), old(editRow).value, old(editData).value)
        && editRow == None && editData == None
    {
      if editData.Some? && JsString.TruthyOption(editRow) {
        rows := ReplaceId(rows, editRow.value, editData.value);
        editRow := None;
        editData := None;
      }
    }

    /** `handleEditChange(key, value)`: change one cell of the draft, if there is one. */
    method HandleEditChange(key: Field, value: string)
      modifies this
      ensures old(editData).Some? ==> editData == Some(With(old(editData).value, key, value))
      ensures old(editData).None? ==> editData == None
      ensures rows == old(rows) && editRow == old(editRow) && newRow == old(newRow)
      ensures old(Valid()) ==> Valid()
    {
      if editData.Some? {
        editData := Some(With(editData.value, key, value));
      }
    }

    /** `handleNewRowChange(key, value)`: change one cell of the new-row draft. */
    method HandleNewRowChange(key: Field, value: string)
      modifies this
      ensures newRow == With(old(newRow), key, value)
      ensures rows == old(rows) && editRow == old(editRow) && editData == old(editData)
      ensures old(Valid()) ==> Valid()
    {
      newRow := With(newRow, key, value);
    }
  }

  /** An add appends exactly one row and keeps every earlier row where it was. */
  method AddKeepsExistingRows(table: ProductTable)
    requires CanAdd(table.newRow)
    modifies table
    ensures |table.rows| == |old(table.rows)| + 1
    ensures table.rows[..|old(table.rows)|] == old(table.rows)
    ensures table.rows[|old(table.rows)|].id == JsString.NatToString(|old(table.rows)| + 1)
  {
    table.HandleAddRow();
    assert table.rows[..|old(table.rows)|] == old(table.rows);
  }

  /** Starting an edit of a row and saving it untouched leaves the table as it
      was, provided ids are unique and the id is not empty. */
  method EditThenSaveUnchanged(table: ProductTable, k: nat)
    requires k < |table.rows| && IdsUnique(table.rows) && table.rows[k].id != ""
    modifies table
    ensures table.rows == old(table.rows)
    ensures table.editRow == None && table.editData == None
  {
    var row := table.rows[k];
    table.HandleEditStart(row);
    table.HandleEditSave();
    SaveUnchangedIsIdentity(old(table.rows), k);
  }
}
