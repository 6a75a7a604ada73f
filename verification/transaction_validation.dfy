/**
 * The checks a transaction's fields must pass before a create or an update
 * reaches the store (server/src/middlewares/Transactions/validations.ts).
 * Each validator is written as the source's chain of early `return false`s;
 * its contract states the same decision as one conjunction of field rules.
 */
module TransactionValidation {
  import opened Js

  /** The partial transaction a handler assembles from a request body. */
  datatype TxData = TxData(amount: Value, txType: Value, userId: Value, categoryId: Value, note: Value, date: Value)

  const MaxNoteLength := 500

  /** The members of the `TransactionType` enumeration. */
  predicate IsTxType(v: Value)
  {
    v == Str("credit") || v == Str("debit")
  }

  predicate PositiveNumber(v: Value)
  {
    v.Num? && v.n > 0.0
  }

  /** A string that is not empty after trimming. */
  predicate NonBlankString(v: Value)
  {
    v.Str? && |Trim(v.s)| > 0
  }

  /** An absent or falsy note, or a string of at most 500 code units. */
  predicate NoteOk(v: Value)
  {
    !Truthy(v) || (v.Str? && Utf16Length(v.s) <= MaxNoteLength)
  }

  /** An absent or falsy date, or a Date object (valid or not). */
  predicate DateOk(v: Value)
  {
    !Truthy(v) || v.Date?
  }

  /** `validateCreateTransactionData`. */
  function ValidCreate(d: TxData): (ok: bool)
    ensures ok <==>
      && PositiveNumber(d.amount)
      && IsTxType(d.txType)
      && NonBlankString(d.userId)
      && NonBlankString(d.categoryId)
      && NoteOk(d.note)
      && DateOk(d.date)
  {
    if !Truthy(d.amount) || !Truthy(d.txType) || !Truthy(d.userId) || !Truthy(d.categoryId) then false
    else if !d.amount.Num? || d.amount.n <= 0.0 then false
    else if !IsTxType(d.txType) then false
    else if !d.userId.Str? || Utf16Length(Trim(d.userId.s)) == 0 then false
    else if !d.categoryId.Str? || Utf16Length(Trim(d.categoryId.s)) == 0 then false
    else if Truthy(d.note) && !d.note.Str? then false
    else if Truthy(d.note) && Utf16Length(d.note.s) > MaxNoteLength then false
    else if Truthy(d.date) && !d.date.Date? then false
    else true
  }

  /** `validateUpdateTransactionData`: only the fields that are present and truthy are checked. */
  function ValidUpdate(d: TxData): (ok: bool)
    ensures ok <==>
      && (Truthy(d.amount) ==> PositiveNumber(d.amount))
      && (Truthy(d.txType) ==> IsTxType(d.txType))
      && NoteOk(d.note)
      && DateOk(d.date)
  {
    if Truthy(d.amount) && (!d.amount.Num? || d.amount.n <= 0.0) then false
    else if Truthy(d.txType) && !IsTxType(d.txType) then false
    else if Truthy(d.note) && !d.note.Str? then false
    else if Truthy(d.note) && Utf16Length(d.note.s) > MaxNoteLength then false
    else if Truthy(d.date) && !d.date.Date? then false
    else true
  }

  /** A create with amount 0 is refused even though 0 is a number: 0 is falsy. */
  lemma ZeroAmountRejected(d: TxData)
    requires d.amount == Num(0.0)
    ensures !ValidCreate(d)
    ensures ValidUpdate(d) == ValidUpdate(d.(amount := Undefined))
  {
  }

  /** The update validator ignores whether the owner and category are given at all. */
  lemma UpdateIgnoresOwnership(d: TxData, userId: Value, categoryId: Value)
    ensures ValidUpdate(d) == ValidUpdate(d.(userId := userId, categoryId := categoryId))
  {
  }

  /** An empty patch is a valid update, and so is any patch whose fields are all falsy. */
  lemma FalsyPatchValid(d: TxData)
    requires !Truthy(d.amount) && !Truthy(d.txType) && !Truthy(d.note) && !Truthy(d.date)
    ensures ValidUpdate(d)
  {
  }

  /** Every check of the update validator is also made on create. */
  lemma CreateValidImpliesUpdateValid(d: TxData)
    requires ValidCreate(d)
    ensures ValidUpdate(d)
  {
  }
}
