/** The single local-storage slot that holds all data, seen as an abstract
    record: what `saveData` writes and what `loadData` reads back. */
module Storage {
  import opened Entities
  import opened AppState

  /** A truthy parse result, seen through its four fields. A field is None
      when reading it gives a falsy value: `undefined` (the field is missing,
      or the result is a number, string, array or `true` rather than an
      object), `null`, `false`, `0`, `""` or `NaN`. */
  datatype Blob = Blob(
    expenses: Option<seq<Expense>>,
    friends: Option<seq<Name>>,
    groups: Option<seq<Name>>,
    activities: Option<seq<Activity>>)

  /** The content of the storage slot as `loadData` sees it: never written
      (`getItem` yields null), text that `JSON.parse` rejects, or text that
      parses to a value: a falsy one (None: `null`, `false`, `0`, `""`) or a
      truthy one (Some: an object, or any other truthy value, whose four
      fields then all read as None). */
  datatype StoredItem = Absent | Unparsable | Json(data: Option<Blob>)

  /** What `loadData` does: ParseError when `JSON.parse` throws, which leaves the
      state as it was; otherwise the new state. */
  datatype LoadResult = Loaded(state: State) | ParseError

  /** `data.field || []`. */
  function OrEmpty<T>(field: Option<seq<T>>): seq<T> {
    match field
    case Some(v) => v
    case None => []
  }

  /** The slot after `saveData` on state `s`: an object with all four fields. */
  function Save(s: State): (item: StoredItem)
    ensures item.Json? && item.data.Some?
    ensures var b := item.data.value;
      b.expenses.Some? && b.friends.Some? && b.groups.Some? && b.activities.Some?
  {
    Json(Some(Blob(Some(s.expenses), Some(s.friends), Some(s.groups), Some(s.activities))))
  }

  /** `loadData` from state `s`: nothing stored, or a falsy parse result, keeps
      `s`; an object replaces all four collections, each by its field or by
      the empty sequence when the field is missing; unparsable text throws. */
  function Load(s: State, item: StoredItem): (r: LoadResult)
    ensures r.ParseError? <==> item.Unparsable?
    ensures (item.Absent? || item == Json(None)) ==> r == Loaded(s)
    ensures item.Json? && item.data.Some? ==>
      && r.state.expenses == OrEmpty(item.data.value.expenses)
      && r.state.friends == OrEmpty(item.data.value.friends)
      && r.state.groups == OrEmpty(item.data.value.groups)
      && r.state.activities == OrEmpty(item.data.value.activities)
  {
    match item
    case Absent => Loaded(s)
    case Unparsable => ParseError
    case Json(None) => Loaded(s)
    case Json(Some(b)) =>
      Loaded(State(OrEmpty(b.expenses), OrEmpty(b.friends), OrEmpty(b.groups), OrEmpty(b.activities)))
  }

  /** Saving then loading restores all four collections, in order, whatever
      the state was in between. */
  lemma SaveLoadRoundTrip(s: State, between: State)
    ensures Load(between, Save(s)) == Loaded(s)
  {
  }

  /** A stored object decides the loaded state alone: the state before the
      load plays no part. */
  lemma LoadIgnoresPrevious(s: State, t: State, b: Blob)
    ensures Load(s, Json(Some(b))) == Load(t, Json(Some(b)))
  {
  }

  /** Loading the slot again right after a load changes nothing more. */
  lemma LoadIdempotent(s: State, item: StoredItem)
    requires !item.Unparsable?
    ensures Load(Load(s, item).state, item) == Load(s, item)
  {
  }
}
