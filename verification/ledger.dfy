/** The expense ledger's transitions (App.tsx): add, settle, unsettle and the
    ledger-wide category rename. The ledger is kept most-recent-first: a new
    record goes to the front. */
module Ledger {
  import opened Types
  import opened Seqs

  /** The add form as the user left it. `amountText` is the raw text of the
      amount input; `date` is the date input read as a calendar day, `None`
      when the input was cleared (it is not a required field); `sharedNote`
      is the note field's text, kept only when the expense is shared. */
  datatype Draft = Draft(
    amountText: string,
    description: string,
    category: string,
    date: Option<Date>,
    isShared: bool,
    sharedNote: string)

  /** The only validation the add handler does: both texts are non-empty.
      Negative or unparsable amounts are not rejected. */
  predicate Accepted(d: Draft) {
    d.amountText != "" && d.description != ""
  }

  /** Add an expense. `freshId` stands for the generated UUID, `now` for the
      creation clock and `parseAmount` for the number parser. A draft that
      passes validation but whose date input is empty makes the ISO
      conversion throw; the handler then stops before the ledger update, so
      nothing is added (and the form stays open). */
  function AddExpense(l: seq<Expense>, d: Draft, freshId: string, now: int, parseAmount: string -> real): (r: seq<Expense>)
    ensures !Accepted(d) ==> r == l
    ensures d.date.None? ==> r == l
    ensures Accepted(d) && d.date.Some? ==> |r| == |l| + 1 && r[1..] == l
    ensures Accepted(d) && d.date.Some? ==>
      && r[0].id == freshId
      && r[0].amount == parseAmount(d.amountText)
      && r[0].description == d.description
      && r[0].category == d.category
      && r[0].date == d.date.value
      && r[0].isShared == d.isShared
      && !r[0].isSettled
      && r[0].createdAt == now
    ensures Accepted(d) && d.date.Some? ==> (r[0].sharedNote.Some? <==> d.isShared)
    ensures Accepted(d) && d.date.Some? && d.isShared ==> r[0].sharedNote == Some(d.sharedNote)
  {
    if !Accepted(d) then l
    else
      match d.date
      case None => l
      case Some(day) =>
        var e := Expense(
          freshId, parseAmount(d.amountText), d.category, d.description, day,
          d.isShared, if d.isShared then Some(d.sharedNote) else None, false, now);
        [e] + l
  }

  /** When the generated id is not yet in use, adding keeps ids unique. */
  lemma AddKeepsIdsUnique(l: seq<Expense>, d: Draft, freshId: string, now: int, parseAmount: string -> real)
    requires UniqueIds(l)
    requires IdFresh(l, freshId)
    ensures UniqueIds(AddExpense(l, d, freshId, now, parseAmount))
  {
    var r := AddExpense(l, d, freshId, now, parseAmount);
    if Accepted(d) && d.date.Some? {
      forall i, j | 0 <= i < j < |r|
        ensures r[i].id != r[j].id
      {
        assert r[j] == l[j - 1];
        if i > 0 {
          assert r[i] == l[i - 1];
        }
      }
    }
  }

  /** Set `isSettled` to `v` on every record whose id is `id`; `isShared` is not consulted. */
  function SetSettled(l: seq<Expense>, id: string, v: bool): (r: seq<Expense>)
    ensures |r| == |l|
    ensures forall i :: 0 <= i < |l| ==> r[i].(isSettled := l[i].isSettled) == l[i]
    ensures forall i :: 0 <= i < |l| ==> r[i].isSettled == if l[i].id == id then v else l[i].isSettled
  {
    Map(l, (e: Expense) => if e.id == id then e.(isSettled := v) else e)
  }

  /** `handleSettle`: only `isSettled` can change, and it becomes true exactly
      on the records with the id (and stays true where it was). Shared and
      non-shared records are treated alike. */
  function Settle(l: seq<Expense>, id: string): (r: seq<Expense>)
    ensures |r| == |l|
    ensures forall i :: 0 <= i < |l| ==> r[i].(isSettled := l[i].isSettled) == l[i]
    ensures forall i :: 0 <= i < |l| ==> (r[i].isSettled <==> l[i].id == id || l[i].isSettled)
  {
    SetSettled(l, id, true)
  }

  /** `handleUnsettle`: only `isSettled` can change, and it stays true exactly
      on the records that were settled and do not carry the id. */
  function Unsettle(l: seq<Expense>, id: string): (r: seq<Expense>)
    ensures |r| == |l|
    ensures forall i :: 0 <= i < |l| ==> r[i].(isSettled := l[i].isSettled) == l[i]
    ensures forall i :: 0 <= i < |l| ==> (r[i].isSettled <==> l[i].id != id && l[i].isSettled)
  {
    SetSettled(l, id, false)
  }

  /** Two ledgers that agree everywhere except possibly on `isSettled`, which
      agrees too, are equal: the frame lemma the round trips rest on. */
  lemma SameRecords(a: seq<Expense>, b: seq<Expense>)
    requires |a| == |b|
    requires forall i :: 0 <= i < |a| ==> a[i].(isSettled := b[i].isSettled) == b[i]
    requires forall i :: 0 <= i < |a| ==> a[i].isSettled == b[i].isSettled
    ensures a == b
  {
    forall i | 0 <= i < |a|
      ensures a[i] == b[i]
    {
      assert a[i] == a[i].(isSettled := b[i].isSettled);
    }
  }

  lemma SettleIdempotent(l: seq<Expense>, id: string)
    ensures Settle(Settle(l, id), id) == Settle(l, id)
  {
    SameRecords(Settle(Settle(l, id), id), Settle(l, id));
  }

  lemma UnsettleIdempotent(l: seq<Expense>, id: string)
    ensures Unsettle(Unsettle(l, id), id) == Unsettle(l, id)
  {
    SameRecords(Unsettle(Unsettle(l, id), id), Unsettle(l, id));
  }

  /** Unsettling after settling forgets the settle; when no record with the
      id was settled before, it restores the ledger exactly. */
  lemma UnsettleAfterSettle(l: seq<Expense>, id: string)
    ensures Unsettle(Settle(l, id), id) == Unsettle(l, id)
    ensures (forall i :: 0 <= i < |l| && l[i].id == id ==> !l[i].isSettled) ==>
      Unsettle(Settle(l, id), id) == l
  {
    SameRecords(Unsettle(Settle(l, id), id), Unsettle(l, id));
    if forall i :: 0 <= i < |l| && l[i].id == id ==> !l[i].isSettled {
      SameRecords(Unsettle(l, id), l);
    }
  }

  /** Settle and unsettle keep the id sequence, so id-uniqueness too. */
  lemma SetSettledKeepsIds(l: seq<Expense>, id: string, v: bool)
    ensures forall i :: 0 <= i < |l| ==> SetSettled(l, id, v)[i].id == l[i].id
    ensures UniqueIds(l) ==> UniqueIds(SetSettled(l, id, v))
  {
    var r := SetSettled(l, id, v);
    forall i | 0 <= i < |l|
      ensures r[i].id == l[i].id
    {
      assert r[i].(isSettled := l[i].isSettled).id == r[i].id;
    }
  }

  /** `handleUpdateCategory`: every record labelled `oldLabel` is relabelled
      `newLabel`; nothing else changes. */
  function RenameCategory(l: seq<Expense>, oldLabel: string, newLabel: string): (r: seq<Expense>)
    ensures |r| == |l|
    ensures forall i :: 0 <= i < |l| ==> r[i].(category := l[i].category) == l[i]
    ensures forall i :: 0 <= i < |l| ==> r[i].category == if l[i].category == oldLabel then newLabel else l[i].category
  {
    Map(l, (e: Expense) => if e.category == oldLabel then e.(category := newLabel) else e)
  }

  /** After a rename to a different label no record carries the old label,
      a second identical rename changes nothing, and renaming a label to
      itself is the identity. */
  lemma RenameCategoryLaws(l: seq<Expense>, oldLabel: string, newLabel: string)
    ensures oldLabel != newLabel ==>
      forall i :: 0 <= i < |l| ==> RenameCategory(l, oldLabel, newLabel)[i].category != oldLabel
    ensures RenameCategory(RenameCategory(l, oldLabel, newLabel), oldLabel, newLabel) == RenameCategory(l, oldLabel, newLabel)
    ensures RenameCategory(l, oldLabel, oldLabel) == l
  {
    var r := RenameCategory(l, oldLabel, newLabel);
    var rr := RenameCategory(r, oldLabel, newLabel);
    forall i | 0 <= i < |l|
      ensures rr[i] == r[i]
    {
      assert rr[i] == rr[i].(category := r[i].category);
    }
    var id := RenameCategory(l, oldLabel, oldLabel);
    forall i | 0 <= i < |l|
      ensures id[i] == l[i]
    {
      assert id[i] == id[i].(category := l[i].category);
    }
  }

  /** Some shared expense is still unsettled. */
  predicate HasPendingShared(l: seq<Expense>) {
    exists i :: 0 <= i < |l| && l[i].isShared && !l[i].isSettled
  }
}
