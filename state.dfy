/** The application state as a value, and what each add handler does to it.
    The class in app.dfy keeps the same four collections in fields; its
    methods are proved to move that value exactly as the functions here do. */
module AppState {
  import opened Entities

  /** The four in-memory collections of the `app` object. `activities` is
      newest first. */
  datatype State = State(
    expenses: seq<Expense>,
    friends: seq<Name>,
    groups: seq<Name>,
    activities: seq<Activity>)

  /** The state before anything is loaded: four empty arrays. */
  const Empty := State([], [], [], [])

  /** How many activity records the dashboard lists. */
  const RecentLimit := 5

  function Min(a: int, b: int): int { if a < b then a else b }

  /** JavaScript truthiness of a string that may be null (a cancelled prompt). */
  predicate Truthy(answer: Option<string>) {
    answer.Some? && answer.value != ""
  }

  // ---------------------------------------------------------------------------
  // Add expense

  /** The validation gate of the add-expense handler: a non-empty description,
      an amount that is not NaN, a non-empty payer and at least one split
      entry. Nothing else is checked: not the sign of the amount, and not that
      the payer or the split names are friends. */
  predicate ExpenseAccepted(f: ExpenseForm) {
    f.description != "" && !f.amount.NaN? && f.paidBy != "" && |f.split| > 0
  }

  /** The activity description "<payer> added <description> ($<amount>)". */
  function ExpenseText(paidBy: Name, description: string, shown: string): string {
    paidBy + " added " + description + " ($" + shown + ")"
  }

  /** The payer, the description and the amount text appear verbatim, at fixed
      places, in the activity description of an expense. */
  lemma ExpenseTextEmbeds(paidBy: Name, description: string, shown: string)
    ensures var t := ExpenseText(paidBy, description, shown);
      && |t| == |paidBy| + |description| + |shown| + 11
      && t[..|paidBy|] == paidBy
      && t[|paidBy| + 7..|paidBy| + 7 + |description|] == description
      && t[|t| - 1 - |shown|..|t| - 1] == shown
  {
  }

  /** The add-expense handler: on an accepted form it appends the expense at
      the end of `expenses` and puts one "New Expense" record at the front of
      `activities`; a rejected form changes nothing. Friends and groups are
      never touched. */
  function AddExpense(s: State, f: ExpenseForm, now: Timestamp): (r: State)
    ensures r != s <==> ExpenseAccepted(f)
    ensures r.friends == s.friends && r.groups == s.groups
    ensures ExpenseAccepted(f) ==>
      && |r.expenses| == |s.expenses| + 1
      && r.expenses[..|s.expenses|] == s.expenses
      && r.expenses[|s.expenses|] == Expense(f.description, f.amount, f.paidBy, f.split)
      && |r.activities| == |s.activities| + 1
      && r.activities[1..] == s.activities
      && r.activities[0] == Activity(NewExpense, ExpenseText(f.paidBy, f.description, f.amount.shown), now)
  {
    if ExpenseAccepted(f) then
      var newExpense := Expense(f.description, f.amount, f.paidBy, f.split);
      var record := Activity(NewExpense, ExpenseText(f.paidBy, f.description, f.amount.shown), now);
      s.(expenses := s.expenses + [newExpense], activities := [record] + s.activities)
    else
      s
  }

  // ---------------------------------------------------------------------------
  // Add friend, add group

  /** The activity description "<name> was added to your friends list". */
  function FriendText(name: Name): string {
    name + " was added to your friends list"
  }

  /** The activity description `Group "<name>" was created`. */
  function GroupText(name: Name): string {
    "Group \"" + name + "\" was created"
  }

  /** The add-friend handler, given the prompt's answer (None when cancelled):
      a non-empty name is appended to `friends`, duplicates included, and one
      "New Friend" record goes to the front of `activities`; an empty or
      cancelled answer changes nothing. */
  function AddFriend(s: State, answer: Option<string>, now: Timestamp): (r: State)
    ensures r != s <==> Truthy(answer)
    ensures r.expenses == s.expenses && r.groups == s.groups
    ensures Truthy(answer) ==>
      && r.friends == s.friends + [answer.value]
      && |r.activities| == |s.activities| + 1
      && r.activities[1..] == s.activities
      && r.activities[0] == Activity(NewFriend, FriendText(answer.value), now)
  {
    if Truthy(answer) then
      s.(friends := s.friends + [answer.value],
         activities := [Activity(NewFriend, FriendText(answer.value), now)] + s.activities)
    else
      s
  }

  /** The add-group handler, the same shape as AddFriend over `groups` with a
      "New Group" record. */
  function AddGroup(s: State, answer: Option<string>, now: Timestamp): (r: State)
    ensures r != s <==> Truthy(answer)
    ensures r.expenses == s.expenses && r.friends == s.friends
    ensures Truthy(answer) ==>
      && r.groups == s.groups + [answer.value]
      && |r.activities| == |s.activities| + 1
      && r.activities[1..] == s.activities
      && r.activities[0] == Activity(NewGroup, GroupText(answer.value), now)
  {
    if Truthy(answer) then
      s.(groups := s.groups + [answer.value],
         activities := [Activity(NewGroup, GroupText(answer.value), now)] + s.activities)
    else
      s
  }

  /** Adding a name that is already present still appends it: names are not
      deduplicated. */
  lemma AddFriendKeepsDuplicates(s: State, name: Name, now: Timestamp)
    requires name != "" && name in s.friends
    ensures var r := AddFriend(s, Some(name), now);
      |r.friends| == |s.friends| + 1 && multiset(r.friends)[name] == multiset(s.friends)[name] + 1
  {
  }

  /** The gate accepts any amount that is not NaN, whatever its sign (zero
      and negative numbers included), and a payer who is not a friend: the
      form's expense is stored as given, and the friend list is not touched,
      so the payer is still not a friend afterwards. */
  lemma ExpenseGateIgnoresFriendsAndSign(s: State, f: ExpenseForm, now: Timestamp)
    requires f.description != "" && f.paidBy != "" && |f.split| > 0
    requires f.amount.Number?
    requires f.paidBy !in s.friends
    ensures var r := AddExpense(s, f, now);
      && r.expenses == s.expenses + [Expense(f.description, f.amount, f.paidBy, f.split)]
      && f.paidBy !in r.friends
  {
  }

  // ---------------------------------------------------------------------------
  // Recent activity

  /** The records the dashboard lists: the first five of the log, in stored
      (newest first) order, or all of them when there are fewer. */
  function RecentActivity(acts: seq<Activity>): (shown: seq<Activity>)
    ensures |shown| == Min(|acts|, RecentLimit)
    ensures shown <= acts
  {
    if |acts| <= RecentLimit then acts else acts[..RecentLimit]
  }

  /** After a record is put at the front of the log, the dashboard shows it
      first, followed by what it showed before minus its oldest entry once
      five are shown. */
  lemma RecentAfterPrepend(a: Activity, acts: seq<Activity>)
    ensures RecentActivity([a] + acts) == [a] + RecentActivity(acts)[..Min(|acts|, RecentLimit - 1)]
  {
  }
}
