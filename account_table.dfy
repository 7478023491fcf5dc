/**
 * The account table of the campaign-creation page: one row per ad account of
 * the selected organization, each carrying a status colour class and a status
 * message that the creation pipeline overwrites, row by row, matched on the
 * account id.
 */
module AccountTable {
  import opened Wrappers

  /** The colour class of a row's status cell. */
  datatype StatusClass = Neutral | Pending | Error | Success

  /** The CSS class the table renders for a status class. */
  function ClassName(c: StatusClass): string
  {
    match c
    case Neutral => "text-neutral-500"
    case Pending => "text-neutral-800"
    case Error => "text-red-500"
    case Success => "text-emerald-500"
  }

  /** An ad account as the organization's account list delivers it. */
  datatype AdAccount = AdAccount(id: string, name: string, status: string, currency: string)

  /** A table row: the account as loaded, plus its `_status` and `_statusMessage`. */
  datatype AccountRow = AccountRow(account: AdAccount, style: StatusClass, message: string)

  const NoAction := "No action"

  /** One status update: the row whose account id is `id` gets `style` and `message`. */
  datatype StatusWrite = StatusWrite(id: string, style: StatusClass, message: string)

  /** Freshly loaded accounts become rows with the neutral class and 'No action'. */
  function LoadRows(loaded: seq<AdAccount>): (rows: seq<AccountRow>)
    ensures |rows| == |loaded|
    ensures forall k :: 0 <= k < |loaded| ==>
              rows[k].account == loaded[k] && rows[k].style == Neutral && rows[k].message == NoAction
    ensures forall k :: 0 <= k < |rows| ==> ClassName(rows[k].style) == "text-neutral-500"
  {
    if loaded == [] then []
    else [AccountRow(loaded[0], Neutral, NoAction)] + LoadRows(loaded[1..])
  }

  /** The ids of a selection of rows, in selection order. */
  function Ids(selected: seq<AccountRow>): (ids: seq<string>)
    ensures |ids| == |selected|
    ensures forall k :: 0 <= k < |selected| ==> ids[k] == selected[k].account.id
  {
    if selected == [] then []
    else [selected[0].account.id] + Ids(selected[1..])
  }

  /** One row after a status update aimed at `id`. */
  function Restyle(row: AccountRow, id: string, style: StatusClass, message: string): AccountRow
  {
    if row.account.id != id then row else row.(style := style, message := message)
  }

  /**
   * The row update every pipeline stage performs: map over the rows and
   * replace the status fields of every row whose account id matches.
   */
  function WithStatus(rows: seq<AccountRow>, id: string, style: StatusClass, message: string): (r: seq<AccountRow>)
    ensures |r| == |rows|
    ensures forall k :: 0 <= k < |rows| ==> r[k].account == rows[k].account
    ensures forall k :: 0 <= k < |rows| && rows[k].account.id != id ==> r[k] == rows[k]
    ensures forall k :: 0 <= k < |rows| && rows[k].account.id == id ==>
              r[k].style == style && r[k].message == message
  {
    if rows == [] then []
    else [Restyle(rows[0], id, style, message)] + WithStatus(rows[1..], id, style, message)
  }

  /** The rows after a sequence of status updates, applied in order. */
  function ApplyWrites(rows: seq<AccountRow>, writes: seq<StatusWrite>): (r: seq<AccountRow>)
    ensures |r| == |rows|
    ensures forall k :: 0 <= k < |rows| ==> r[k].account == rows[k].account
  {
    if writes == [] then rows
    else
      var w := writes[|writes| - 1];
      WithStatus(ApplyWrites(rows, writes[..|writes| - 1]), w.id, w.style, w.message)
  }

  /** The last update in `writes` that is aimed at `id`, if there is one. */
  function LastWrite(writes: seq<StatusWrite>, id: string): (w: Option<StatusWrite>)
    ensures w.Some? ==> w.value in writes && w.value.id == id
    ensures w.Some? ==>
              exists k :: 0 <= k < |writes| && writes[k] == w.value &&
                          forall j :: k < j < |writes| ==> writes[j].id != id
    ensures w.None? ==> forall k :: 0 <= k < |writes| ==> writes[k].id != id
  {
    if writes == [] then None
    else if writes[|writes| - 1].id == id then Some(writes[|writes| - 1])
    else LastWrite(writes[..|writes| - 1], id)
  }

  /** A row as the last update aimed at it leaves it. */
  function Overlay(row: AccountRow, last: Option<StatusWrite>): AccountRow
  {
    match last
    case None => row
    case Some(w) => row.(style := w.style, message := w.message)
  }

  /**
   * Applying updates to the rows is row-wise: each row ends with the status of
   * the last update aimed at its id, and a row no update is aimed at stays as
   * it was.
   */
  lemma {:induction false} ApplyWritesAt(rows: seq<AccountRow>, writes: seq<StatusWrite>, k: int)
    requires 0 <= k < |rows|
    ensures ApplyWrites(rows, writes)[k] == Overlay(rows[k], LastWrite(writes, rows[k].account.id))
  {
    if writes != [] {
      var init := writes[..|writes| - 1];
      ApplyWritesAt(rows, init, k);
    }
  }

  /** Updates applied in two batches equal the updates applied at once. */
  lemma {:induction false} ApplyWritesAppend(rows: seq<AccountRow>, a: seq<StatusWrite>, b: seq<StatusWrite>)
    ensures ApplyWrites(rows, a + b) == ApplyWrites(ApplyWrites(rows, a), b)
  {
    if b == [] {
      assert a + b == a;
    } else {
      var init := b[..|b| - 1];
      assert (a + b)[..|a + b| - 1] == a + init;
      assert (a + b)[|a + b| - 1] == b[|b| - 1];
      ApplyWritesAppend(rows, a, init);
    }
  }

  /** The last update aimed at `id` in `a + b` is the last one in `b`, if `b` has one. */
  lemma {:induction false} LastWriteAppend(a: seq<StatusWrite>, b: seq<StatusWrite>, id: string)
    ensures LastWrite(a + b, id) == if LastWrite(b, id).Some? then LastWrite(b, id) else LastWrite(a, id)
  {
    if b == [] {
      assert a + b == a;
    } else {
      var init := b[..|b| - 1];
      assert (a + b)[..|a + b| - 1] == a + init;
      assert (a + b)[|a + b| - 1] == b[|b| - 1];
      LastWriteAppend(a, init, id);
    }
  }

  /** A later update aimed at the same row overrides an earlier one. */
  lemma OverwriteStatus(rows: seq<AccountRow>, id: string, s1: StatusClass, m1: string, s2: StatusClass, m2: string)
    ensures WithStatus(WithStatus(rows, id, s1, m1), id, s2, m2) == WithStatus(rows, id, s2, m2)
  {
    var a := WithStatus(WithStatus(rows, id, s1, m1), id, s2, m2);
    var b := WithStatus(rows, id, s2, m2);
    assert forall k :: 0 <= k < |rows| ==> a[k] == b[k];
  }

  /** Updates aimed at two different rows can be applied in either order. */
  lemma CommuteStatus(rows: seq<AccountRow>, id1: string, s1: StatusClass, m1: string,
                      id2: string, s2: StatusClass, m2: string)
    requires id1 != id2
    ensures WithStatus(WithStatus(rows, id1, s1, m1), id2, s2, m2)
         == WithStatus(WithStatus(rows, id2, s2, m2), id1, s1, m1)
  {
    var a := WithStatus(WithStatus(rows, id1, s1, m1), id2, s2, m2);
    var b := WithStatus(WithStatus(rows, id2, s2, m2), id1, s1, m1);
    assert forall k :: 0 <= k < |rows| ==> a[k] == b[k];
  }
}
