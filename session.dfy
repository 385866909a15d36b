/** A run of the page: the single UI thread handles one user action at a time,
    each by one of the three add handlers. The lemmas here say what any run
    keeps: nothing already stored is ever changed or reordered, and the log
    gains exactly one record per accepted action. */
module Session {
  import opened Entities
  import opened AppState
  import opened Storage

  /** One user action with the handler input and the time it was handled. */
  datatype Action =
    | SubmitExpense(form: ExpenseForm, at: Timestamp)
    | PromptFriend(friend: Option<string>, at: Timestamp)
    | PromptGroup(group: Option<string>, at: Timestamp)

  function Step(s: State, a: Action): State {
    match a
    case SubmitExpense(f, t) => AddExpense(s, f, t)
    case PromptFriend(n, t) => AddFriend(s, n, t)
    case PromptGroup(n, t) => AddGroup(s, n, t)
  }

  /** Whether the handler passes its input gate (and so changes the state). */
  predicate Accepted(a: Action) {
    match a
    case SubmitExpense(f, _) => ExpenseAccepted(f)
    case PromptFriend(n, _) => Truthy(n)
    case PromptGroup(n, _) => Truthy(n)
  }

  /** The number of actions that pass their gate. */
  function AcceptedCount(actions: seq<Action>): nat {
    if actions == [] then 0
    else (if Accepted(actions[0]) then 1 else 0) + AcceptedCount(actions[1..])
  }

  /** The state after handling `actions` in order, starting from `s`. */
  function Run(s: State, actions: seq<Action>): State
    decreases |actions|
  {
    if actions == [] then s else Run(Step(s, actions[0]), actions[1..])
  }

  /** The number of stored entities: expenses, friends and groups. */
  function EntityCount(s: State): nat {
    |s.expenses| + |s.friends| + |s.groups|
  }

  /** One handler call: an accepted action adds one entity and one record at
      the front of the log; a rejected one leaves the state as it was; in
      both cases the old collections survive unchanged. */
  lemma StepIsAppendOnly(s: State, a: Action)
    ensures var r := Step(s, a);
      && s.expenses <= r.expenses && s.friends <= r.friends && s.groups <= r.groups
      && |r.activities| == |s.activities| + (if Accepted(a) then 1 else 0)
      && r.activities[|r.activities| - |s.activities|..] == s.activities
      && EntityCount(r) == EntityCount(s) + (if Accepted(a) then 1 else 0)
      && (!Accepted(a) ==> r == s)
  {
  }

  /** Any run only appends to the expense, friend and group lists and only
      prepends to the log: the earlier contents are a prefix of each list and
      a suffix of the log. The log grows by one record per accepted action,
      and so does the number of stored entities. */
  lemma {:induction false} RunIsAppendOnly(s: State, actions: seq<Action>)
    ensures var r := Run(s, actions);
      && s.expenses <= r.expenses && s.friends <= r.friends && s.groups <= r.groups
      && |r.activities| == |s.activities| + AcceptedCount(actions)
      && r.activities[|r.activities| - |s.activities|..] == s.activities
      && EntityCount(r) == EntityCount(s) + AcceptedCount(actions)
    decreases |actions|
  {
    if actions != [] {
      var m := Step(s, actions[0]);
      StepIsAppendOnly(s, actions[0]);
      RunIsAppendOnly(m, actions[1..]);
      var r := Run(m, actions[1..]);
      assert r == Run(s, actions);
      var k := |r.activities| - |m.activities|;
      assert r.activities[k..] == m.activities;
      assert m.activities[|m.activities| - |s.activities|..] == s.activities;
      assert r.activities[|r.activities| - |s.activities|..]
          == r.activities[k..][|m.activities| - |s.activities|..];
    }
  }

  /** The number of log records whose `type` is `kind`. */
  function CountKind(acts: seq<Activity>, kind: string): nat {
    if acts == [] then 0
    else (if acts[0].kind == kind then 1 else 0) + CountKind(acts[1..], kind)
  }

  /** The log holds one "New Expense" record per expense, one "New Friend"
      record per friend and one "New Group" record per group. */
  predicate LogMatchesEntities(s: State) {
    && CountKind(s.activities, NewExpense) == |s.expenses|
    && CountKind(s.activities, NewFriend) == |s.friends|
    && CountKind(s.activities, NewGroup) == |s.groups|
  }

  /** One handler call adds one record of its own kind exactly when it adds
      one entity of the matching list. */
  lemma StepCountsByKind(s: State, a: Action)
    ensures var r := Step(s, a);
      && CountKind(r.activities, NewExpense) - CountKind(s.activities, NewExpense) == |r.expenses| - |s.expenses|
      && CountKind(r.activities, NewFriend) - CountKind(s.activities, NewFriend) == |r.friends| - |s.friends|
      && CountKind(r.activities, NewGroup) - CountKind(s.activities, NewGroup) == |r.groups| - |s.groups|
  {
  }

  /** Over any run, the records of each kind grow exactly as the matching
      list does. */
  lemma {:induction false} RunCountsByKind(s: State, actions: seq<Action>)
    ensures var r := Run(s, actions);
      && CountKind(r.activities, NewExpense) - CountKind(s.activities, NewExpense) == |r.expenses| - |s.expenses|
      && CountKind(r.activities, NewFriend) - CountKind(s.activities, NewFriend) == |r.friends| - |s.friends|
      && CountKind(r.activities, NewGroup) - CountKind(s.activities, NewGroup) == |r.groups| - |s.groups|
    decreases |actions|
  {
    if actions != [] {
      StepCountsByKind(s, actions[0]);
      RunCountsByKind(Step(s, actions[0]), actions[1..]);
    }
  }

  /** Starting from no data, the log always holds exactly one "New Expense"
      record per stored expense, one "New Friend" record per friend and one
      "New Group" record per group, and no other records. */
  lemma RunFromEmptyLogsEveryEntity(actions: seq<Action>)
    ensures LogMatchesEntities(Run(Empty, actions))
    ensures |Run(Empty, actions).activities| == EntityCount(Run(Empty, actions))
  {
    RunCountsByKind(Empty, actions);
    RunIsAppendOnly(Empty, actions);
  }

  /** When the save after an accepted action throws, the slot still holds the
      data saved before it, and loading that slot (at the next start) gives
      back the state without the action: the addition is lost on reload. */
  lemma FailedSaveLosesAddOnReload(s: State, a: Action, between: State)
    requires Accepted(a)
    ensures Load(between, Save(s)) == Loaded(s)
    ensures Load(between, Save(s)) != Loaded(Step(s, a))
  {
  }

  /** A repeated submission of the same form is not absorbed: an accepted
      form that is handled twice is stored twice. */
  lemma {:induction false} DoubleSubmitAppendsTwice(s: State, f: ExpenseForm, t1: Timestamp, t2: Timestamp)
    requires ExpenseAccepted(f)
    ensures var r := Run(s, [SubmitExpense(f, t1), SubmitExpense(f, t2)]);
      var e := Expense(f.description, f.amount, f.paidBy, f.split);
      r.expenses == s.expenses + [e, e]
  {
    var e := Expense(f.description, f.amount, f.paidBy, f.split);
    var m := AddExpense(s, f, t1);
    assert m.expenses == s.expenses + [e];
    var actions := [SubmitExpense(f, t1), SubmitExpense(f, t2)];
    assert actions[1..] == [SubmitExpense(f, t2)];
    assert Run(s, actions) == Run(m, [SubmitExpense(f, t2)]);
    assert Run(m, [SubmitExpense(f, t2)]) == Run(AddExpense(m, f, t2), []);
    assert AddExpense(m, f, t2).expenses == s.expenses + [e] + [e];
  }

  /** From no data: add friends "Alice" and "Bob", then an expense "Lunch"
      of 20 paid by Alice and split between both. */
  lemma {:induction false} LunchScenario(t1: Timestamp, t2: Timestamp, t3: Timestamp)
    ensures var lunch := ExpenseForm("Lunch", Number("20"), "Alice", ["Alice", "Bob"]);
      var r := Run(Empty, [PromptFriend(Some("Alice"), t1), PromptFriend(Some("Bob"), t2), SubmitExpense(lunch, t3)]);
      && |r.expenses| == 1
      && r.friends == ["Alice", "Bob"]
      && |r.activities| == 3
      && r.activities[0].description == "Alice added Lunch ($20)"
  {
    var lunch := ExpenseForm("Lunch", Number("20"), "Alice", ["Alice", "Bob"]);
    var actions := [PromptFriend(Some("Alice"), t1), PromptFriend(Some("Bob"), t2), SubmitExpense(lunch, t3)];
    var s1 := AddFriend(Empty, Some("Alice"), t1);
    var s2 := AddFriend(s1, Some("Bob"), t2);
    var s3 := AddExpense(s2, lunch, t3);
    assert Run(Empty, actions) == Run(s1, actions[1..]);
    assert Run(s1, actions[1..]) == Run(s2, actions[1..][1..]);
    assert actions[1..][1..] == [SubmitExpense(lunch, t3)];
    assert Run(s2, [SubmitExpense(lunch, t3)]) == Run(s3, []);
    assert ExpenseText("Alice", "Lunch", "20") == "Alice added Lunch ($20)";
  }
}
