# SplitRight state layer in Dafny

SplitRight is a client-side expense-splitting tracker. All of its data lives in
one global `app` object with four arrays: expenses, friend names, group names
and an activity log kept newest first. Three handlers add to them: add expense,
add friend and add group. Each handler validates its input, appends the new
entity, puts one activity record at the front of the log, saves everything into
one local-storage slot and re-renders a page. At startup the slot is loaded
back, with an empty array for each missing field. The dashboard lists the five
newest activity records. A page id selects one of four renderers.

This project models that state layer:

- `entities.dfy` (module `Entities`) holds the stored values: expenses, activity records, the raw expense form and the parsed amount.
- `state.dfy` (module `AppState`) describes each handler as a function on the four collections, and the recent-activity view.
- `storage.dfy` (module `Storage`) treats the storage slot as an abstract record and defines save and load.
- `router.dfy` (module `Router`) holds the page dispatch.
- `session.dfy` (module `Session`) runs a sequence of user actions and proves what every run preserves.
- `app.dfy` (module `App`) is the `app` object as a class whose fields the handler methods update in place. Each method is proved to move the state exactly as the matching function does, and to write the storage slot exactly when the source saves and the browser accepts the write.

Where the documented intent and the code differ, the model follows the code:

- The amount is not required to be positive. The gate at `app.js:325` refuses only NaN, so zero, negative and infinite amounts are stored.
- An unparsable storage slot is not treated as empty. `JSON.parse` throws inside `loadData`, and the exception ends startup with the state untouched (`App.App.Init`, `App.App.LoadData`).
- An expense's split is an ordered array. It keeps the order of the checked boxes and any duplicate names, so it is not a set.

## Model

| member | source | states |
|---|---|---|
| AppState.AddExpense | app.js:319-339 | The state changes exactly when description, payer and split are non-empty and the amount is not NaN. An accepted form appends exactly one expense `{description, amount, paidBy, split}` at the end of the list and puts one "New Expense" record at the front of the log. That record says "`<payer>` added `<description>` ($`<amount>`)" and carries the handler's time. The older records follow unchanged. Friends and groups never change. |
| AppState.ExpenseTextEmbeds | app.js:330 | The expense activity text holds the payer, the description and the amount text verbatim, at fixed offsets. |
| AppState.ExpenseGateIgnoresFriendsAndSign | app.js:325-327 | Any amount that is not NaN passes the gate, whatever its sign, and so does a payer who is not a friend. The stored list becomes the old list followed by exactly the form's expense, and the payer is still not a friend afterwards. |
| AppState.AddFriend | app.js:341-353 | The state changes exactly when the prompt answer is non-null and non-empty. The name is then appended at the end of the friend list, and one "New Friend" record "`<name>` was added to your friends list" goes to the front of the log. Expenses and groups never change. |
| AppState.AddFriendKeepsDuplicates | app.js:343-344 | Adding a name that is already a friend still appends it, so that name occurs once more. |
| AppState.AddGroup | app.js:355-367 | The same as add friend, over the group list, with a "New Group" record `Group "<name>" was created`. |
| AppState.RecentActivity | app.js:151 | The dashboard list is a prefix of the log, of length min(5, number of records). |
| AppState.RecentAfterPrepend | app.js:151 | After a new record is put at the front, the dashboard shows it first, followed by the previously shown records minus the oldest one when five were shown. |
| Storage.Save | app.js:379-386 | The slot is overwritten with an object in which all four fields are present. |
| Storage.Load | app.js:369-377 | Only an unparsable slot throws. An absent slot or a falsy parsed value keeps the state. A truthy parsed value sets each collection to its field, or to empty when the field reads as falsy (missing, `null`, `0`, `false`, `""`). |
| Storage.SaveLoadRoundTrip | app.js:369-386 | Saving and then loading restores all four collections, in order, whatever the state was in between. |
| Storage.LoadIgnoresPrevious | app.js:371-376 | When the slot holds an object, the loaded state does not depend on the state before the load. |
| Storage.LoadIdempotent | app.js:369-377 | Loading the same slot twice gives the same result as loading it once. |
| Router.Route | app.js:40-53 | A renderer is selected if and only if the id is "dashboard", "expenses", "friends" or "groups", and the selected page is the one whose id matched. Any other id selects nothing. |
| Router.RouteOfPageId | app.js:40-53 | Each of the four pages is reached through its own id. |
| Session.StepIsAppendOnly | app.js:319-367 | One handler call keeps each old list as a prefix and the old log as a suffix. It adds one log record and one entity if its gate passes, and changes nothing otherwise. |
| Session.RunIsAppendOnly | app.js:319-367 | After any sequence of handler calls, the earlier expense, friend and group lists are prefixes of the new ones and the earlier log is a suffix of the new log. The log and the entity count each grow by the number of accepted actions. |
| Session.StepCountsByKind | app.js:325-332 | One handler call adds a "New Expense", "New Friend" or "New Group" record exactly when it adds one expense, friend or group, respectively. |
| Session.RunCountsByKind | app.js:319-367 | Over any sequence of handler calls, the number of records of each kind grows exactly as the matching list does. |
| Session.RunFromEmptyLogsEveryEntity | app.js:1-5 | Starting from the empty state, the log holds exactly one "New Expense" record per expense, one "New Friend" record per friend and one "New Group" record per group, and no other records. |
| Session.FailedSaveLosesAddOnReload | app.js:379-386 | When the save after an accepted action throws, the slot still loads to the state before the action, which differs from the state in memory: the addition is lost at the next load. |
| Session.DoubleSubmitAppendsTwice | app.js:325-327 | Submitting the same valid form twice stores the expense twice. Nothing absorbs a repeated submission. |
| Session.LunchScenario | app.js:319-353 | Starting empty, add friend "Alice", then "Bob", then the expense Lunch of 20 paid by Alice and split between both. The result has one expense, friends ["Alice", "Bob"], three log records, and newest record "Alice added Lunch ($20)". |
| App.App.constructor | app.js:1-5 | All four collections start empty. |
| App.App.Init | app.js:7-10 | Startup loads the slot as Load describes and then shows the dashboard. An unparsable slot stops startup with no page shown and the state unchanged. |
| App.App.LoadData | app.js:369-377 | The fields become the state Load computes from the previous state and the slot. It throws exactly on an unparsable slot, and then nothing changes. |
| App.App.SaveData | app.js:379-386 | When the browser accepts the write, the slot becomes Save of the current four collections. When the write throws (storage quota exceeded), the slot keeps its previous content and the call reports the exception. |
| App.App.AddExpense | app.js:319-339 | The new state is AppState.AddExpense of the old state, whether or not the save succeeds. The slot is saved and the expense page shown exactly when the form passes the gate and the write is accepted. A rejected form shows the missing-fields alert. A failed write leaves the slot with the old data and renders nothing. |
| App.App.AddFriend | app.js:341-353 | The new state is AppState.AddFriend of the old state, whether or not the save succeeds. A truthy answer saves the slot and shows the friends page when the write is accepted; when it throws, the slot keeps the old data and nothing is rendered. Any other answer does nothing. |
| App.App.AddGroup | app.js:355-367 | The same as AddFriend, over the group list and the groups page. |
| App.App.RenderRecentActivity | app.js:149-160 | The loop runs over the first min(5, n) records of the log and emits exactly the dashboard list, in stored order. |

## Left out

- HTML generation is not modelled: the renderers, the expense modal and its close button, the list templates, AOS and the fade-in timer (`app.js:58-317`, `app.js:36-38`, `app.js:55`). They are presentation through DOM APIs. `RenderRecentActivity` models only which records are emitted and in what order, not their markup or date formatting.
- The Chart.js charts are not modelled. They are library calls over fixed demo numbers.
- `prompt`, `alert`, `new Date()` and `parseFloat` become inputs or outputs. Whether `localStorage.setItem` throws for lack of quota is an input too (`writeAccepted`), because blob size and quota are not modelled. The prompt answer is an `Option<string>`, the time is an opaque `Timestamp`, and the alert is a `UiEffect` value. The form fields are an `ExpenseForm`, including the values of the checked split boxes.
- Amounts are not modelled numerically. A parsed amount is NaN or a number, and a number is carried as the text JavaScript prints for it in the activity description. No arithmetic is done on it anywhere in the core.
- `localStorage` and JSON are replaced by an abstract slot value. The model assumes a parsed field is either missing/falsy or a well-formed array; a field of another JSON type is not represented. JSON also turns a `Date` into a string on save, which the abstract round trip does not show.
- `bindEvents` (`app.js:25-33`) and the navigation-bar wiring are not modelled. They are DOM event registration; `Router.Route` covers what a click dispatches to.
- The service-worker registration (`app.js:14-22`), service-worker.js and script.js are not part of this model. They are a stock cache-first fetch recipe and a network client for an unrelated page.
