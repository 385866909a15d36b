/** The `app` object: four collections updated in place by the add handlers,
    loaded from and saved to one storage slot. Each method is proved to move
    the object's state exactly as the matching function of AppState or Storage
    does, and to write the slot exactly when the source saves and the browser
    accepts the write. */
module App {
  import opened Entities
  import opened AppState
  import opened Storage
  import opened Router

  /** The text of the alert shown when the expense form is incomplete. */
  const MissingFieldsAlert := "Please fill in all fields and select at least one person to split with."

  /** What a handler does to the page after it has updated the state: nothing,
      a blocking alert, a `loadPage` (None when the id has no renderer), or
      an exception from `saveData` that ends the handler before it closes the
      expense form or renders a page. */
  datatype UiEffect = Quiet | Alert(message: string) | Rendered(page: Option<Page>) | SaveFailed

  /** The browser's local storage, reduced to the one slot the app uses. */
  class BrowserStorage {
    var item: StoredItem

    constructor(item: StoredItem)
      ensures this.item == item
    {
      this.item := item;
    }
  }

  class App {
    var expenses: seq<Expense>
    var friends: seq<Name>
    var groups: seq<Name>
    var activities: seq<Activity>
    const storage: BrowserStorage

    /** The four collections as one value. */
    function Snapshot(): State
      reads this
    {
      State(expenses, friends, groups, activities)
    }

    /** The object literal: every collection starts empty. */
    constructor(storage: BrowserStorage)
      ensures Snapshot() == Empty && this.storage == storage
    {
      expenses, friends, groups, activities := [], [], [], [];
      this.storage := storage;
    }

    /** Startup: load the stored data, then show the dashboard. A slot that
        does not parse makes `loadData` throw, which ends startup before any
        page is shown and with the state untouched. */
    method Init() returns (page: Option<Page>)
      modifies this
      ensures page.None? <==> storage.item.Unparsable?
      ensures page.Some? ==> page.value == Dashboard && Load(old(Snapshot()), storage.item) == Loaded(Snapshot())
      ensures page.None? ==> Snapshot() == old(Snapshot())
    {
      var threw := LoadData();
      if threw {
        page := None;
      } else {
        page := Route("dashboard");
      }
    }

    /** `loadData`: `threw` is set when `JSON.parse` throws, and then nothing
        was assigned; otherwise the state is the one Load describes. */
    method LoadData() returns (threw: bool)
      modifies this
      ensures threw <==> storage.item.Unparsable?
      ensures threw ==> Snapshot() == old(Snapshot())
      ensures !threw ==> Load(old(Snapshot()), storage.item) == Loaded(Snapshot())
    {
      threw := false;
      match storage.item
      case Absent =>
      case Unparsable =>
        threw := true;
      case Json(data) =>
        if data.Some? {
          expenses := OrEmpty(data.value.expenses);
          friends := OrEmpty(data.value.friends);
          groups := OrEmpty(data.value.groups);
          activities := OrEmpty(data.value.activities);
        }
    }

    /** `saveData`: overwrite the slot with all four collections.
        `writeAccepted` says whether the browser takes the `setItem` call; it
        throws instead when the blob would exceed the storage quota, which
        leaves the slot as it was. Quota and blob size are not modelled, so
        the outcome is an input. */
    method SaveData(writeAccepted: bool) returns (threw: bool)
      modifies storage
      ensures threw <==> !writeAccepted
      ensures storage.item == if writeAccepted then Save(Snapshot()) else old(storage.item)
    {
      threw := !writeAccepted;
      if writeAccepted {
        storage.item := Json(Some(Blob(Some(expenses), Some(friends), Some(groups), Some(activities))));
      }
    }

    /** `addExpense`: on a complete form, append the expense, log it at the
        front, save and show the expense page; otherwise alert and change
        neither the state nor the slot. When the save throws, the arrays are
        already updated but the slot keeps the previous data. */
    method AddExpense(form: ExpenseForm, now: Timestamp, writeAccepted: bool) returns (effect: UiEffect)
      modifies this, storage
      ensures Snapshot() == AppState.AddExpense(old(Snapshot()), form, now)
      ensures storage.item == if ExpenseAccepted(form) && writeAccepted then Save(Snapshot()) else old(storage.item)
      ensures effect == if !ExpenseAccepted(form) then Alert(MissingFieldsAlert) else if writeAccepted then Rendered(Some(Expenses)) else SaveFailed
    {
      if form.description != "" && !form.amount.NaN? && form.paidBy != "" && |form.split| > 0 {
        var newExpense := Expense(form.description, form.amount, form.paidBy, form.split);
        expenses := expenses + [newExpense];
        activities := [Activity(NewExpense, ExpenseText(form.paidBy, form.description, form.amount.shown), now)] + activities;
        var threw := SaveData(writeAccepted);
        if threw {
          effect := SaveFailed;
        } else {
          effect := Rendered(Route("expenses"));
        }
      } else {
        effect := Alert(MissingFieldsAlert);
      }
    }

    /** `addFriend`, given the prompt's answer: a non-empty name is appended
        and logged, the slot saved and the friends page shown; an empty or
        cancelled answer does nothing at all. When the save throws, the
        arrays are already updated but the slot keeps the previous data. */
    method AddFriend(answer: Option<string>, now: Timestamp, writeAccepted: bool) returns (effect: UiEffect)
      modifies this, storage
      ensures Snapshot() == AppState.AddFriend(old(Snapshot()), answer, now)
      ensures storage.item == if Truthy(answer) && writeAccepted then Save(Snapshot()) else old(storage.item)
      ensures effect == if !Truthy(answer) then Quiet else if writeAccepted then Rendered(Some(Friends)) else SaveFailed
    {
      effect := Quiet;
      if answer.Some? && answer.value != "" {
        var friend := answer.value;
        friends := friends + [friend];
        activities := [Activity(NewFriend, FriendText(friend), now)] + activities;
        var threw := SaveData(writeAccepted);
        if threw {
          effect := SaveFailed;
        } else {
          effect := Rendered(Route("friends"));
        }
      }
    }

    /** `addGroup`, the same as AddFriend over the group list. */
    method AddGroup(answer: Option<string>, now: Timestamp, writeAccepted: bool) returns (effect: UiEffect)
      modifies this, storage
      ensures Snapshot() == AppState.AddGroup(old(Snapshot()), answer, now)
      ensures storage.item == if Truthy(answer) && writeAccepted then Save(Snapshot()) else old(storage.item)
      ensures effect == if !Truthy(answer) then Quiet else if writeAccepted then Rendered(Some(Groups)) else SaveFailed
    {
      effect := Quiet;
      if answer.Some? && answer.value != "" {
        var group := answer.value;
        groups := groups + [group];
        activities := [Activity(NewGroup, GroupText(group), now)] + activities;
        var threw := SaveData(writeAccepted);
        if threw {
          effect := SaveFailed;
        } else {
          effect := Rendered(Route("groups"));
        }
      }
    }

    /** `renderRecentActivity`: emit the records of `slice(0, 5)` one by one,
        in stored order; `shown` is the list of emitted items. */
    method RenderRecentActivity() returns (shown: seq<Activity>)
      ensures shown == RecentActivity(activities)
    {
      var n := if |activities| < RecentLimit then |activities| else RecentLimit;
      shown := [];
      for i := 0 to n
        invariant shown == activities[..i]
      {
        shown := shown + [activities[i]];
      }
    }
  }
}
