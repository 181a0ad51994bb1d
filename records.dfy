/**
 * The list of saved debt records: saving appends a record built from the save
 * form and the current rate result, editing overwrites the form fields of the
 * records with the edited id, and deleting (once confirmed) drops every
 * record with that id. Ids and timestamps come from the clock and are
 * parameters here; ids need not be unique.
 */
module Records {

  import opened Wrappers
  import opened Loan
  import opened Legal
  import opened Calculator

  /** The ten text fields of the save and edit forms. */
  datatype SaveForm = SaveForm(
    debtorName: string,
    creditorName: string,
    totalDebtAmount: string,
    borrowReason: string,
    debtDate: string,
    interestRate: string,
    paymentFrequency: string,
    paymentAmount: string,
    currentStatus: string,
    remainingAmount: string)

  /** A saved record: the form's fields plus the rate result it was saved with. */
  datatype DebtRecord = DebtRecord(
    id: int,
    form: SaveForm,
    calculatedApr: real,
    calculatedAt: string,
    warningLevel: WarningLevel,
    violatedLaws: seq<Law>,
    updatedAt: Option<string>)

  /** The record `saveDebtRecord` builds; `id` and `now` stand for `Date.now()` and the local time string. */
  function NewRecord(id: int, form: SaveForm, result: RateResult, now: string): (d: DebtRecord)
    ensures d.id == id && d.form == form && d.calculatedAt == now && d.updatedAt == None
    ensures d.calculatedApr == result.apr && d.warningLevel == result.warningLevel
            && d.violatedLaws == result.violatedLaws
  {
    DebtRecord(id, form, result.apr, now, result.warningLevel, result.violatedLaws, None)
  }

  /** Saving appends the record at the end. */
  function Save(debts: seq<DebtRecord>, record: DebtRecord): (r: seq<DebtRecord>)
    ensures |r| == |debts| + 1 && r[..|debts|] == debts && r[|debts|] == record
  {
    debts + [record]
  }

  /** A record after the edit form is saved over it: new form fields and an update time, the rest kept. */
  function Updated(d: DebtRecord, form: SaveForm, now: string): DebtRecord
  {
    d.(form := form, updatedAt := Some(now))
  }

  /** `updateDebtRecord`: every record with the edited id is overwritten, every other one kept. */
  function UpdateById(debts: seq<DebtRecord>, id: int, form: SaveForm, now: string): (r: seq<DebtRecord>)
    ensures |r| == |debts|
    ensures forall i :: 0 <= i < |debts| ==> r[i].id == debts[i].id
    ensures forall i :: 0 <= i < |debts| && debts[i].id != id ==> r[i] == debts[i]
    ensures forall i :: 0 <= i < |debts| && debts[i].id == id ==>
              r[i].form == form && r[i].updatedAt == Some(now)
              && r[i].calculatedApr == debts[i].calculatedApr && r[i].calculatedAt == debts[i].calculatedAt
              && r[i].warningLevel == debts[i].warningLevel && r[i].violatedLaws == debts[i].violatedLaws
  {
    if debts == [] then []
    else [if debts[0].id == id then Updated(debts[0], form, now) else debts[0]] + UpdateById(debts[1..], id, form, now)
  }

  /** The records whose id differs from `id`, in their order. */
  function WithoutId(debts: seq<DebtRecord>, id: int): (r: seq<DebtRecord>)
    ensures forall d :: d in r <==> d in debts && d.id != id
    ensures forall d :: multiset(r)[d] == if d.id != id then multiset(debts)[d] else 0
    ensures |r| <= |debts|
  {
    if debts == [] then []
    else
      assert debts == [debts[0]] + debts[1..];
      (if debts[0].id != id then [debts[0]] else []) + WithoutId(debts[1..], id)
  }

  /** `deleteDebtRecord`: nothing happens unless the user confirms. */
  function Delete(debts: seq<DebtRecord>, id: int, confirmed: bool): (r: seq<DebtRecord>)
    ensures !confirmed ==> r == debts
    ensures confirmed ==> forall d :: d in r <==> d in debts && d.id != id
    ensures confirmed ==> forall d :: multiset(r)[d] == if d.id != id then multiset(debts)[d] else 0
  {
    if confirmed then WithoutId(debts, id) else debts
  }

  /** The edit form opened on a record: its fields, with an empty status read as amortised. */
  function EditFormOf(d: DebtRecord): (f: SaveForm)
    ensures f == d.form.(currentStatus := f.currentStatus)
    ensures d.form.currentStatus != "" ==> f == d.form
    ensures d.form.currentStatus == "" ==> f.currentStatus == "principal_interest"
  {
    if d.form.currentStatus == "" then d.form.(currentStatus := "principal_interest") else d.form
  }

  /**
   * Saving a calculation appends one record carrying that calculation's APR,
   * warning level and breached statutes, and keeps every earlier record.
   */
  lemma SaveCalculation(debts: seq<DebtRecord>, id: int, form: SaveForm, x: LoanInput, pow: (real, real) -> real, now: string)
    requires Computable(x)
    ensures var r := Save(debts, NewRecord(id, form, Expected(x, pow).value, now));
      r[..|debts|] == debts && |r| == |debts| + 1
      && r[|debts|].calculatedApr == Apr(x)
      && r[|debts|].warningLevel == Reference(Apr(x)).level
      && r[|debts|].violatedLaws == ViolatedLaws(Apr(x))
  {
  }

  /** Deleting from a concatenation deletes from each part. */
  lemma {:induction false} WithoutIdConcat(a: seq<DebtRecord>, b: seq<DebtRecord>, id: int)
    ensures WithoutId(a + b, id) == WithoutId(a, id) + WithoutId(b, id)
    decreases |a|
  {
    if a == [] {
      assert a + b == b;
    } else {
      assert (a + b)[1..] == a[1..] + b;
      WithoutIdConcat(a[1..], b, id);
    }
  }

  /** Deleting an id no record carries changes nothing. */
  lemma {:induction false} WithoutAbsentId(debts: seq<DebtRecord>, id: int)
    requires forall i :: 0 <= i < |debts| ==> debts[i].id != id
    ensures WithoutId(debts, id) == debts
    decreases |debts|
  {
    if debts != [] {
      WithoutAbsentId(debts[1..], id);
    }
  }

  /** Deleting twice is deleting once. */
  lemma DeleteIdempotent(debts: seq<DebtRecord>, id: int, confirmed: bool)
    ensures Delete(Delete(debts, id, confirmed), id, confirmed) == Delete(debts, id, confirmed)
  {
    var once := Delete(debts, id, confirmed);
    if confirmed {
      assert forall i :: 0 <= i < |once| ==> once[i] in once;
      WithoutAbsentId(once, id);
    }
  }

  /** Deleting the record just saved under a fresh id restores the list. */
  lemma DeleteAfterSave(debts: seq<DebtRecord>, record: DebtRecord)
    requires forall i :: 0 <= i < |debts| ==> debts[i].id != record.id
    ensures Delete(Save(debts, record), record.id, true) == debts
  {
    WithoutIdConcat(debts, [record], record.id);
    WithoutAbsentId(debts, record.id);
    assert WithoutId([record], record.id) == [];
  }

  /** Editing and deleting commute: an edit neither creates nor removes ids. */
  lemma {:induction false} DeleteUpdateCommute(debts: seq<DebtRecord>, edited: int, deleted: int, form: SaveForm, now: string)
    ensures WithoutId(UpdateById(debts, edited, form, now), deleted)
            == UpdateById(WithoutId(debts, deleted), edited, form, now)
    decreases |debts|
  {
    if debts != [] {
      var u := UpdateById(debts, edited, form, now);
      assert u[1..] == UpdateById(debts[1..], edited, form, now);
      DeleteUpdateCommute(debts[1..], edited, deleted, form, now);
      if debts[0].id != deleted {
        assert WithoutId(debts, deleted) == [debts[0]] + WithoutId(debts[1..], deleted);
        assert ([debts[0]] + WithoutId(debts[1..], deleted))[1..] == WithoutId(debts[1..], deleted);
      }
    }
  }

  /**
   * Opening the edit form on a record and saving it unchanged only stamps
   * the update time, provided the record has a status and every record
   * sharing its id holds the same form.
   */
  lemma EditRoundTrip(debts: seq<DebtRecord>, d: DebtRecord, now: string)
    requires d.form.currentStatus != ""
    requires forall i :: 0 <= i < |debts| && debts[i].id == d.id ==> debts[i].form == d.form
    ensures var r := UpdateById(debts, d.id, EditFormOf(d), now);
      forall i :: 0 <= i < |debts| ==>
        r[i] == debts[i].(updatedAt := if debts[i].id == d.id then Some(now) else debts[i].updatedAt)
  {
  }
}
