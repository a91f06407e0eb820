# Movie client stores

A model of the two client-side stores of a small movie-management single-page
application:

- the **notification store** (`Notifications`): an ordered list of transient
  toast messages, each tagged `success`, `error` or `info`, plus a counter
  `nextId` that gives each new entry its id. `addNotification` appends,
  `removeNotification` filters out an id;
- the **movie store** (`Movies`): the in-memory movie collection and five
  async actions (`fetchMovies`, `addMovie`, `updateMovie`, `deleteMovie`,
  `importMovies`). Each write action sends one request, then refetches the
  whole collection, then reports through the notification store. Every
  failure is caught and turned into an `error` notification.

Both stores are immutable records here, and every operation is a pure
transition function. The backend is not called. Each action takes the
outcomes it would receive as parameters: `WriteOutcome` (`Written` or
`WriteFailed`) for its write call, and `FetchOutcome` (`Fetched(xs)` or
`FetchFailed`) for the `GET /Movies` refetch. It returns a `Step`: the new
store, plus the requests it sent, in order. Each request is a verb, a path
and a body. Paths such as `/Movies/{id}` are built with `Decimal.Show`, which
writes out how an integer is printed into a template literal.
`Movies.Perform` covers the four write actions through the `Action`
datatype. `Movies.FetchMovies` is the standalone fetch.

The model exposes one subtlety of the code. `fetchMovies` catches its own
failure (`src/stores/movie.store.ts:23-25`), so the write actions never see
a refetch failure. A successful write followed by a failed refetch therefore
appends two notifications, in this order:

1. `Error fetching movies ` (kind error);
2. the action's success message (kind success).

The collection keeps its old value. So a delete whose refetch fails still
ends with `Movie deleted successfully`, and the deleted record stays
visible. `Movies.Perform` states the exact notification sequence for each of
the three outcome combinations.

Messages are modelled character for character. This includes the trailing
space of the error messages (`"Error fetching movies "`).

## Model

| member | source | states |
|---|---|---|
| `Notifications.Initial` | src/stores/notification.store.ts:10-13 | the store starts with no notifications and `nextId = 0`, and it satisfies the store invariant |
| `Notifications.Add` | src/stores/notification.store.ts:15-16 | appends exactly one entry at the end, with the given message and kind verbatim and id = the old `nextId`; earlier entries are unchanged; `nextId` grows by exactly 1; the invariant (ids below `nextId`, strictly increasing along the list) is preserved |
| `Notifications.Without` | src/stores/notification.store.ts:19 | the filter keeps exactly the entries whose id differs from the given id, and it keeps a strictly increasing id order strictly increasing |
| `Notifications.Remove` | src/stores/notification.store.ts:18-20 | after removal, no entry has the id; every other entry remains; `nextId` is unchanged; the invariant is preserved |
| `Notifications.WithoutAppend` | src/stores/notification.store.ts:19 | filtering distributes over concatenation, so relative order is preserved |
| `Notifications.RemoveAbsentIsNoOp` | src/stores/notification.store.ts:19 | removing an id that is not in the list leaves the store unchanged |
| `Notifications.RemoveDeletesOneEntry` | src/stores/notification.store.ts:18-19 | in a valid store, removing a present id deletes exactly that one entry (`ns[..k] + ns[k+1..]`) and keeps all others in order |
| `Notifications.IncreasingIsDistinct` | src/stores/notification.store.ts:16 | ids that strictly increase along the list are pairwise distinct |
| `Notifications.Issued` | src/stores/notification.store.ts:12-20 | over any sequence of add and remove calls, the i-th added entry gets id `nextId + i`, and the final counter is the old counter plus the number of additions (`Pushes`), so no id is ever handed out twice |
| `Notifications.RunKeepsValid` | src/stores/notification.store.ts:10-20 | every state reachable from a valid state by add and remove calls is valid |
| `Notifications.TwoPushesThenDismissFirst` | src/stores/notification.store.ts:15-19 | adding "X"/info and then "Y"/error, then removing id 0, leaves `[{id 1, "Y", error}]` |
| `Decimal.ParseShow` | src/stores/movie.store.ts:38 | the decimal rendering of an integer used in a resource path parses back to that integer |
| `Decimal.ShowInjective` | src/stores/movie.store.ts:47 | two different ids never render to the same text |
| `Movies.ResourcePathAddressesId` | src/stores/movie.store.ts:38-57 | `/Movies/{id}` addresses exactly `id`, while `/Movies` and `/Movies/import` address no movie |
| `Movies.ResourcePathsDistinct` | src/stores/movie.store.ts:38-57 | resource paths are equal exactly when the ids are equal, and no resource path equals the import endpoint |
| `Movies.Initial` | src/stores/movie.store.ts:15-17 | the collection starts empty, and the shared notification store starts in its initial, valid state |
| `Movies.HandleSuccess` | src/stores/movie.store.ts:64-67 | appends one `success` notification with the message and the next id; the movies are untouched |
| `Movies.HandleError` | src/stores/movie.store.ts:68-72 | appends one `error` notification with the message and the next id; the movies are untouched |
| `Movies.FetchMovies` | src/stores/movie.store.ts:19-26 | sends `GET /Movies`; on success the collection becomes exactly the returned sequence and nothing is reported; on failure the collection is unchanged and exactly one `Error fetching movies ` error is appended |
| `Movies.Perform` | src/stores/movie.store.ts:27-63 | failed write: only the write request is sent, movies are unchanged, and one error with the action's message is appended; write and refetch both succeed: movies = the refetched sequence, and one success with the action's message is appended; write succeeds but refetch fails: movies are unchanged, and the fetch error then the action's success are appended, in that order; the notification invariant is preserved |
| `Movies.FailedWriteIgnoresRefetch` | src/stores/movie.store.ts:27-63 | after a failed write, the result does not depend on the refetch outcome, and no `GET /Movies` is sent |
| `Movies.DeleteKeepsRecordWhenRefetchFails` | src/stores/movie.store.ts:45-53 | delete does no local filtering: if the refetch fails, the record with the deleted id is still in the collection, at the same position |
| `Movies.ActionAlwaysReports` | src/stores/movie.store.ts:27-72 | every write action appends one or two notifications, the last one carries the action's own message, and none is of kind info |
| `Movies.ReplayKeepsNotesValid` | src/stores/movie.store.ts:27-72 | over any session of actions, fetches and dismissals, the notification invariant holds, and `nextId` grows by at least one per write action |
| `Movies.FetchIntoInitialStore` | src/stores/movie.store.ts:15-22 | from the initial store, a fetch that returns one movie leaves exactly that one-element collection |

## Left out

- `src/services/movies.api.ts` (the axios instance, base URL `https://localhost:7181/api` and JSON headers) is not part of this model. Its calls appear only as the outcome parameters, and requests carry paths relative to the base URL.
- The response bodies of the write calls are not modelled. The source ignores them.
- `vite.config.ts` (dev-server proxy and path rewrite) and `src/router/index.ts` (one static route) are configuration without store behaviour.
- `console.error` logging in `handleError` is a side effect only. The error value itself is therefore not carried.
- Concurrent, interleaved invocations of the async actions are not modelled, nor are Pinia reactivity and the singleton store lifecycle. Each action is one atomic, sequential transition, and the two stores are one record.
- No action can fail in the model, because the source catches every failure. The model has no error result type for that reason.
- JavaScript `number` semantics are not modelled: ids and the counter are unbounded integers, so precision loss above 2^53, `NaN` and fractional ids are left out. `Movie.rate` is an opaque `real`.
- `Decimal.Show` (and so `Movies.ResourcePath`): the rendering matches JavaScript's only for integers below 10^21 in magnitude; larger ones would print in exponent notation.

