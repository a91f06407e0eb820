/**
  The movie store: the in-memory movie collection, kept in step with the
  backend by refetching the whole collection after every write, and
  reporting each outcome through the notification store.

  Network calls are not performed here. Each action receives the outcomes
  the backend would give (`WriteOutcome` for the write call, `FetchOutcome`
  for `GET /Movies`) and returns the new store together with the requests it
  sends, in order.
 */
module Movies {
  import opened Wrappers
  import N = Notifications
  import Decimal

  /** A movie record as the backend returns it. Fields other than `id` are opaque here. */
  datatype Movie = Movie(
    id: int,
    externalId: Option<int>,
    title: string,
    director: string,
    rate: real,
    year: int)

  /** The payload of `addMovie`: a movie without the server-assigned id. */
  datatype MovieDraft = MovieDraft(
    externalId: Option<int>,
    title: string,
    director: string,
    rate: real,
    year: int)

  datatype Verb = Get | Post | Put | Delete

  datatype Body = NoBody | DraftBody(draft: MovieDraft) | MovieBody(movie: Movie)

  /** A request sent to the backend, its path relative to the API base URL. */
  datatype Request = Request(verb: Verb, path: string, body: Body)

  /** How the write call of an action settled: any thrown failure is `WriteFailed`. */
  datatype WriteOutcome = Written | WriteFailed

  /** How `GET /Movies` settled: the returned collection, or a failure. */
  datatype FetchOutcome = Fetched(movies: seq<Movie>) | FetchFailed

  /** The movie collection together with the shared notification store. */
  datatype Store = Store(movies: seq<Movie>, notes: N.State)

  /** The four write actions of the store, with their arguments. */
  datatype Action =
    | AddMovie(draft: MovieDraft)
    | UpdateMovie(movie: Movie)
    | DeleteMovie(id: int)
    | ImportMovies

  /** What one action leaves behind: the new store and the requests sent, in order. */
  datatype Step = Step(store: Store, sent: seq<Request>)

  const CollectionPath: string := "/Movies"
  const ImportPath: string := "/Movies/import"
  const ResourcePrefix: string := "/Movies/"

  /** The id-addressed resource of one movie. */
  function ResourcePath(id: int): string {
    ResourcePrefix + Decimal.Show(id)
  }

  /** The movie id a path addresses, if it addresses one. */
  function PathId(path: string): Option<int> {
    if |path| >= |ResourcePrefix| && path[..|ResourcePrefix|] == ResourcePrefix
    then Decimal.Parse(path[|ResourcePrefix|..])
    else None
  }

  /**
    Each movie has its own resource path: it addresses exactly that id, and
    neither the collection nor the import endpoint is mistaken for one.
   */
  lemma ResourcePathAddressesId(id: int)
    ensures PathId(ResourcePath(id)) == Some(id)
    ensures PathId(CollectionPath) == None
    ensures PathId(ImportPath) == None
  {
    var p := ResourcePath(id);
    assert p[..|ResourcePrefix|] == ResourcePrefix;
    assert p[|ResourcePrefix|..] == Decimal.Show(id);
    Decimal.ParseShow(id);
    assert ImportPath[|ResourcePrefix|..] == "import";
    assert !Decimal.IsDigit("import"[0]);
  }

  /** Distinct ids are addressed by distinct paths, none of them the import endpoint. */
  lemma ResourcePathsDistinct(i: int, j: int)
    ensures ResourcePath(i) == ResourcePath(j) <==> i == j
    ensures ResourcePath(i) != ImportPath
  {
    ResourcePathAddressesId(i);
    ResourcePathAddressesId(j);
  }

  const FetchRequest: Request := Request(Get, CollectionPath, NoBody)

  const FetchErrorMessage: string := "Error fetching movies "

  /** The request an action's write call sends. */
  function WriteRequest(a: Action): Request {
    match a
    case AddMovie(d) => Request(Post, CollectionPath, DraftBody(d))
    case UpdateMovie(m) => Request(Put, ResourcePath(m.id), MovieBody(m))
    case DeleteMovie(id) => Request(Delete, ResourcePath(id), NoBody)
    case ImportMovies => Request(Post, ImportPath, NoBody)
  }

  function SuccessMessage(a: Action): string {
    match a
    case AddMovie(_) => "Movie added successfully"
    case UpdateMovie(_) => "Movie updated successfully"
    case DeleteMovie(_) => "Movie deleted successfully"
    case ImportMovies => "Movies imported successfully"
  }

  function ErrorMessage(a: Action): string {
    match a
    case AddMovie(_) => "Error adding movie "
    case UpdateMovie(_) => "Error updating movie "
    case DeleteMovie(_) => "Error deleting movie "
    case ImportMovies => "Error importing movies "
  }

  /** The store the application starts with. */
  function Initial(): (st: Store)
    ensures |st.movies| == 0
    ensures N.Valid(st.notes) && st.notes == N.Initial()
  {
    Store([], N.Initial())
  }

  /** Reports a success: one `Success` notification; the movies are untouched. */
  function HandleSuccess(st: Store, message: string): (r: Store)
    ensures r.movies == st.movies
    ensures r.notes.notifications
         == st.notes.notifications + [N.Notification(st.notes.nextId, message, N.Success)]
    ensures r.notes.nextId == st.notes.nextId + 1
  {
    st.(notes := N.Add(st.notes, message, N.Success))
  }

  /** Reports a failure: one `Error` notification; the movies are untouched. */
  function HandleError(st: Store, message: string): (r: Store)
    ensures r.movies == st.movies
    ensures r.notes.notifications
         == st.notes.notifications + [N.Notification(st.notes.nextId, message, N.Error)]
    ensures r.notes.nextId == st.notes.nextId + 1
  {
    st.(notes := N.Add(st.notes, message, N.Error))
  }

  /**
    Loads the whole collection. On success the collection is replaced by
    exactly the backend's sequence and nothing is reported; on failure the
    collection is kept and one error notification is reported. The failure is
    swallowed here: a caller sees no difference in how the call returns.
   */
  function FetchMovies(st: Store, outcome: FetchOutcome): (r: Step)
    ensures r.sent == [FetchRequest]
    ensures outcome.Fetched? ==> r.store == Store(outcome.movies, st.notes)
    ensures outcome.FetchFailed? ==>
      && r.store.movies == st.movies
      && r.store.notes.notifications
         == st.notes.notifications + [N.Notification(st.notes.nextId, FetchErrorMessage, N.Error)]
      && r.store.notes.nextId == st.notes.nextId + 1
  {
    match outcome
    case Fetched(xs) => Step(st.(movies := xs), [FetchRequest])
    case FetchFailed => Step(HandleError(st, FetchErrorMessage), [FetchRequest])
  }

  /**
    Runs one write action: the write call, then (only if it succeeded) the
    refetch, then the report. Because the refetch swallows its own failure, a
    successful write always ends in the action's success notification, preceded
    by the fetch error notification when the refetch failed.
   */
  function Perform(st: Store, a: Action, write: WriteOutcome, refetch: FetchOutcome): (r: Step)
    ensures write.WriteFailed? ==>
      && r.sent == [WriteRequest(a)]
      && r.store.movies == st.movies
      && r.store.notes.notifications
         == st.notes.notifications + [N.Notification(st.notes.nextId, ErrorMessage(a), N.Error)]
      && r.store.notes.nextId == st.notes.nextId + 1
    ensures write.Written? && refetch.Fetched? ==>
      && r.sent == [WriteRequest(a), FetchRequest]
      && r.store.movies == refetch.movies
      && r.store.notes.notifications
         == st.notes.notifications + [N.Notification(st.notes.nextId, SuccessMessage(a), N.Success)]
      && r.store.notes.nextId == st.notes.nextId + 1
    ensures write.Written? && refetch.FetchFailed? ==>
      && r.sent == [WriteRequest(a), FetchRequest]
      && r.store.movies == st.movies
      && r.store.notes.notifications
         == st.notes.notifications
          + [N.Notification(st.notes.nextId, FetchErrorMessage, N.Error),
             N.Notification(st.notes.nextId + 1, SuccessMessage(a), N.Success)]
      && r.store.notes.nextId == st.notes.nextId + 2
    ensures N.Valid(st.notes) ==> N.Valid(r.store.notes)
  {
    match write
    case WriteFailed => Step(HandleError(st, ErrorMessage(a)), [WriteRequest(a)])
    case Written =>
      var fetched := FetchMovies(st, refetch);
      Step(HandleSuccess(fetched.store, SuccessMessage(a)), [WriteRequest(a)] + fetched.sent)
  }

  /** A failed write never consults the refetch outcome: no refetch is performed. */
  lemma FailedWriteIgnoresRefetch(st: Store, a: Action, f1: FetchOutcome, f2: FetchOutcome)
    ensures Perform(st, a, WriteFailed, f1) == Perform(st, a, WriteFailed, f2)
    ensures FetchRequest !in Perform(st, a, WriteFailed, f1).sent
  {
  }

  /**
    `deleteMovie` does not filter locally: when the refetch fails, a record
    with the deleted id that was visible stays visible.
   */
  lemma DeleteKeepsRecordWhenRefetchFails(st: Store, k: nat)
    requires k < |st.movies|
    ensures Perform(st, DeleteMovie(st.movies[k].id), Written, FetchFailed).store.movies[k]
         == st.movies[k]
  {
  }

  /**
    Every action reports: it appends one or two notifications, the last one
    carrying the action's own message, and none of them is of kind `Info`.
   */
  lemma ActionAlwaysReports(st: Store, a: Action, write: WriteOutcome, refetch: FetchOutcome)
    ensures var r := Perform(st, a, write, refetch).store.notes.notifications;
      && |st.notes.notifications| < |r| <= |st.notes.notifications| + 2
      && r[|r| - 1].message in {SuccessMessage(a), ErrorMessage(a)}
      && forall i :: |st.notes.notifications| <= i < |r| ==> r[i].kind != N.Info
  {
  }

  /** One interaction of the view layer with the stores. */
  datatype Event =
    | Invoke(action: Action, write: WriteOutcome, refetch: FetchOutcome)
    | Refresh(outcome: FetchOutcome)
    | Dismiss(id: int)

  function Handle(st: Store, e: Event): Store {
    match e
    case Invoke(a, w, f) => Perform(st, a, w, f).store
    case Refresh(f) => FetchMovies(st, f).store
    case Dismiss(id) => st.(notes := N.Remove(st.notes, id))
  }

  /** The stores after the view layer's events, in order. */
  function Replay(st: Store, events: seq<Event>): Store
    decreases |events|
  {
    if |events| == 0 then st else Replay(Handle(st, events[0]), events[1..])
  }

  /** How many of the events invoke a write action. */
  function Invocations(events: seq<Event>): nat
    decreases |events|
  {
    if |events| == 0 then 0
    else (if events[0].Invoke? then 1 else 0) + Invocations(events[1..])
  }

  /**
    Over any session the notification store stays valid, and the counter
    grows by at least one per write action, so every action's report gets a
    fresh id.
   */
  lemma {:induction false} ReplayKeepsNotesValid(st: Store, events: seq<Event>)
    requires N.Valid(st.notes)
    ensures N.Valid(Replay(st, events).notes)
    ensures Replay(st, events).notes.nextId >= st.notes.nextId + Invocations(events)
    decreases |events|
  {
    if |events| > 0 {
      ReplayKeepsNotesValid(Handle(st, events[0]), events[1..]);
    }
  }

  /** The scenario: from the initial store, a fetch returning one movie shows that movie. */
  lemma FetchIntoInitialStore()
    ensures var m := Movie(1, None, "A", "D", 5.0, 2000);
      FetchMovies(Initial(), Fetched([m])).store.movies == [m]
  {
  }
}
