/** The values the expense tracker stores: expenses, friend and group names,
    and activity records, plus the raw input of the add-expense form. */
module Entities {

  datatype Option<+T> = None | Some(value: T)

  /** A friend or group name; names are bare strings with no identifier. */
  type Name = string

  /** The moment an activity was recorded (the `new Date()` of the handler),
      taken as an opaque instant. */
  type Timestamp = int

  /** The result of `parseFloat` on the amount field: either NaN, or a number.
      A number is carried as the text JavaScript prints for it when it is
      interpolated into a template string; its numeric value is not modelled,
      because nothing in the core computes with it. */
  datatype Amount = NaN | Number(shown: string)

  /** One expense as pushed by the add-expense handler. `split` keeps the order
      of the checked boxes; it is an array, not a set. */
  datatype Expense = Expense(description: string, amount: Amount, paidBy: Name, split: seq<Name>)

  /** The `type` strings the three handlers write into activity records. A
      loaded log may hold any string there. */
  const NewExpense := "New Expense"
  const NewFriend := "New Friend"
  const NewGroup := "New Group"

  /** An entry of the activity log; `kind` is the record's `type` field. */
  datatype Activity = Activity(kind: string, description: string, date: Timestamp)

  /** What the add-expense handler reads from the form: the description text,
      the parsed amount, the selected payer and the values of the checked
      split boxes, in document order. */
  datatype ExpenseForm = ExpenseForm(description: string, amount: Amount, paidBy: Name, split: seq<Name>)
}
