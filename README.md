# API integration demo: state-handling core in Dafny

The site is a set of fetch-and-render widgets over public APIs. This project
models the parts of it that keep state and decide something:

- **User management view** (`CrudSection`, over the pure list transforms in
  `Users`). A cached user list lives under the users query key. A create
  prepends the server's record, stamped with a client-chosen id, only after
  the server confirms. An update is optimistic: it snapshots the cache,
  writes the submitted record over every record with its id, and puts the
  exact snapshot back when the call fails. A delete filters the record out
  only after the call returns. An edit session (the record being edited and
  a name/email draft) feeds the update. Every remote call is an `Outcome`
  parameter, `Resolved(data)` or `Rejected`. Notifications are recorded by
  kind.
- **Global UI store** (`UiStore`): the selected repository and the dark-theme
  flag, with a setter and a toggle.
- **Loading slices** (`LoadingSlice`, instantiated by `MoviesSlice` and
  `GallerySlice`): one generic reducer over `{items, loading}`, driven by the
  pending / fulfilled / rejected actions of a fetch. The shows fetch keeps
  only the first twelve shows of its response.

Files: `outcomes.dfy` (Option, Outcome), `users.dfy`, `crud_section.dfy`,
`ui_store.dfy`, `loading_slice.dfy`, `movies_slice.dfy`, `gallery_slice.dfy`.

Behaviour of the code worth knowing, modelled as written:
- A created record always gets the client-chosen id. The server's id is
  never kept, even when the server returns one.
- A failed create has no error handler, so it raises no notice and changes
  nothing.
- A failed delete has no error handler, so it raises no notice.
- An update for an id the list does not hold is not an error. The `map`
  leaves the list as it was (`Users.ReplaceAbsent`).
- Ids are not kept unique by the code. `Users.PrependUnique` and
  `CrudSection.UserManager.Create` state that a create keeps them unique
  exactly when the new id is not already in the list. Update and delete
  always keep them unique.

## Model

| member | source | states |
|---|---|---|
| `Users.WithId` | src/components/ApiCrudSection.tsx:65-66 | the update's result carries the submitted id, whatever id the server sent; every other field is the server's |
| `Users.ApplyDraft` | src/components/ApiCrudSection.tsx:126 | the submitted record keeps the edited record's id and username and takes name and email from the draft |
| `Users.Prepend` | src/components/ApiCrudSection.tsx:41-44 | the new record is at position 0, the old list is the unchanged suffix, and the length grows by one |
| `Users.ReplaceById` | src/components/ApiCrudSection.tsx:71-73 | same length; every record with the submitted id becomes the submitted record; every other record keeps its value and position |
| `Users.RemoveById` | src/components/ApiCrudSection.tsx:106-108 | a record is in the result iff it was in the list and its id differs from the deleted one; each kept record occurs as often as before and each record with the deleted id not at all; never longer |
| `Users.ReplaceKeepsIds` | src/components/ApiCrudSection.tsx:72 | the speculative write keeps every id in place, so unique ids stay unique |
| `Users.ReplaceIdempotent` | src/components/ApiCrudSection.tsx:72 | writing the same record twice is writing it once |
| `Users.ReplaceAbsent` | src/components/ApiCrudSection.tsx:72 | an update for an id the list does not hold leaves the list unchanged |
| `Users.ReplaceUndo` | src/components/ApiCrudSection.tsx:70-79 | with unique ids, writing the previous record back restores the list: the speculative write has an inverse |
| `Users.RemoveAppend` | src/components/ApiCrudSection.tsx:107 | the filter distributes over concatenation, so kept records stay in their original order |
| `Users.RemoveAbsent` | src/components/ApiCrudSection.tsx:107 | removing an id the list does not hold leaves the list unchanged |
| `Users.RemoveIdempotent` | src/components/ApiCrudSection.tsx:107 | after a removal the id is gone, and removing it again changes nothing |
| `Users.RemoveKeepsUnique` | src/components/ApiCrudSection.tsx:107 | the filter keeps unique ids unique |
| `Users.PrependUnique` | src/components/ApiCrudSection.tsx:41-44 | after a prepend the ids are unique iff they were before and the new id was not already present |
| `CrudSection.UserManager.Current` | src/components/ApiCrudSection.tsx:41 | the list every cache updater starts from (the `old = []` default at lines 41, 71 and 106): the cached list, or the empty list when nothing is cached |
| `CrudSection.UserManager.CanCreate` | src/components/ApiCrudSection.tsx:169 | the Create button is enabled iff both create-form fields are non-empty |
| `CrudSection.UserManager.constructor` | src/components/ApiCrudSection.tsx:16-18 | nothing cached, no edit in progress, both forms empty, no notices |
| `CrudSection.UserManager.Fetched` | src/components/ApiCrudSection.tsx:22-28 | a resolved list fetch replaces the cache outright; a failed one leaves it; nothing else changes |
| `CrudSection.UserManager.SetNewName` | src/components/ApiCrudSection.tsx:153-155 | only the create form's name changes |
| `CrudSection.UserManager.SetNewEmail` | src/components/ApiCrudSection.tsx:162-164 | only the create form's email changes |
| `CrudSection.UserManager.SetDraftName` | src/components/ApiCrudSection.tsx:197-202 | only the draft's name changes |
| `CrudSection.UserManager.SetDraftEmail` | src/components/ApiCrudSection.tsx:208-213 | only the draft's email changes |
| `CrudSection.UserManager.OnCreateSuccess` | src/components/ApiCrudSection.tsx:40-51 | the cache becomes the server's record with the new id, in front of the old list (an absent cache counts as empty); the form is reset to empty name and email; one created notice |
| `CrudSection.UserManager.Create` | src/components/ApiCrudSection.tsx:31-52 | a call is issued iff both form fields are non-empty (lines 167-169); the cache changes only on a resolved call; a rejected or unissued create changes nothing; ids stay unique iff the new id is fresh |
| `CrudSection.UserManager.OnUpdateMutate` | src/components/ApiCrudSection.tsx:68-75 | returns the cache as it was; the cache becomes the replace-by-id of the old list, with an absent cache counting as empty |
| `CrudSection.UserManager.OnUpdateError` | src/components/ApiCrudSection.tsx:76-85 | a present snapshot is written back as the cache; with no snapshot the cache is left as is; one failure notice |
| `CrudSection.UserManager.OnUpdateSuccess` | src/components/ApiCrudSection.tsx:86-91 | adds only an updated notice |
| `CrudSection.UserManager.Update` | src/components/ApiCrudSection.tsx:55-91 | on success the cache holds the speculative write and the result has the submitted id; on failure the cache equals the snapshot exactly, or the empty list when nothing was cached; unique ids stay unique |
| `CrudSection.UserManager.OnUpdateSettled` | src/components/ApiCrudSection.tsx:92-94 | the invalidated query is fetched again: a resolved refetch replaces the cache, a failed one leaves it |
| `CrudSection.UserManager.OnDeleteSuccess` | src/components/ApiCrudSection.tsx:105-115 | the cache becomes the old list without the deleted id; one deleted notice |
| `CrudSection.UserManager.Delete` | src/components/ApiCrudSection.tsx:98-116 | any resolved call, whatever its status, filters the id out and the id is then absent; a rejected call leaves cache and notices alone; unique ids stay unique |
| `CrudSection.UserManager.StartEdit` | src/components/ApiCrudSection.tsx:119-122 | the record becomes the one being edited and the draft is its name and email, replacing any earlier edit |
| `CrudSection.UserManager.SaveEdit` | src/components/ApiCrudSection.tsx:124-128 | with no edit in progress nothing is submitted and nothing else changes; otherwise the edited record with the draft over it is submitted as an update, edit mode is cleared, and the cache is the refetched list, or else the update's outcome |
| `CrudSection.UserManager.CancelEdit` | src/components/ApiCrudSection.tsx:130 | edit mode is cleared; nothing is submitted and nothing else changes |
| `UiStore.WithRepo` | src/store/useStore.ts:12 | the selection becomes the given one and the theme flag is unchanged |
| `UiStore.Toggled` | src/store/useStore.ts:14 | the theme flag is negated and the selection is unchanged |
| `UiStore.SelectIdempotent` | src/store/useStore.ts:12 | selecting twice with the same repository equals selecting once; the last selection wins |
| `UiStore.ToggleInvolution` | src/store/useStore.ts:14 | toggling twice restores the original state |
| `UiStore.SelectToggleCommute` | src/store/useStore.ts:12-14 | selecting and toggling commute |
| `UiStore.Store.constructor` | src/store/useStore.ts:10-15 | a fresh store has no selected repository and the dark theme on |
| `UiStore.Store.SetSelectedRepo` | src/store/useStore.ts:12 | sets the selection in place and leaves the theme flag |
| `UiStore.Store.ToggleDarkMode` | src/store/useStore.ts:14 | negates the theme flag in place and leaves the selection |
| `LoadingSlice.Initial` | src/components/ReduxMoviesSection.tsx:17 | the initial slice has no items and is not loading |
| `LoadingSlice.Reduce` | src/components/ReduxMoviesSection.tsx:19-31 | pending sets loading and keeps the items; fulfilled shows the payload and clears loading; rejected clears loading and keeps the items |
| `LoadingSlice.ReduceAllPair` | src/components/ReduxMoviesSection.tsx:19-31 | dispatching two actions is reducing by one and then the other |
| `LoadingSlice.ReduceAllAppend` | src/components/ReduxGallerySection.tsx:18-30 | dispatching two action sequences in a row is dispatching their concatenation |
| `LoadingSlice.LoadingFollowsLast` | src/components/ReduxGallerySection.tsx:20-29 | after any non-empty action sequence the slice is loading iff the last action was pending; so after one ending in fulfilled or rejected it is not loading |
| `LoadingSlice.ItemsAreLastPayload` | src/components/ReduxMoviesSection.tsx:21-30 | after any action sequence the items are the payload of the last fulfilled action, or the starting items when there was none |
| `LoadingSlice.Slice.constructor` | src/components/ReduxGallerySection.tsx:16 | a new slice has no items and is not loading |
| `LoadingSlice.Slice.OnPending` | src/components/ReduxMoviesSection.tsx:21-23 | sets loading in place and leaves the items |
| `LoadingSlice.Slice.OnFulfilled` | src/components/ReduxMoviesSection.tsx:24-27 | replaces the items with the payload and clears loading |
| `LoadingSlice.Slice.OnRejected` | src/components/ReduxMoviesSection.tsx:28-30 | clears loading and keeps the items |
| `LoadingSlice.Slice.Dispatch` | src/components/ReduxGallerySection.tsx:19-30 | the slice's new state is the reducer applied to its old state and the action |
| `MoviesSlice.FirstShows` | src/components/ReduxMoviesSection.tsx:11 | the payload is a prefix of the response of length min(12, n), and the whole response when it has at most twelve shows |
| `MoviesSlice.FirstShowsIdempotent` | src/components/ReduxMoviesSection.tsx:11 | cutting a cut payload again changes nothing |
| `MoviesSlice.NewShowsStore` | src/components/ReduxMoviesSection.tsx:35-37 | the store's shows slice starts with no items and not loading |
| `MoviesSlice.FetchShows` | src/components/ReduxMoviesSection.tsx:8-12 | pending then fulfilled with the cut payload, or pending then rejected; afterwards not loading, items the cut payload or unchanged |
| `GallerySlice.NewUsersStore` | src/components/ReduxGallerySection.tsx:34-36 | the store's users slice starts with no items and not loading |
| `GallerySlice.FetchUsers` | src/components/ReduxGallerySection.tsx:7-11 | pending then fulfilled with the response's results, or pending then rejected; afterwards not loading, items the results or unchanged |

## Left out

- HTTP calls (the list, create, update and delete requests, the show and
  people fetches): each is an `Outcome` parameter. A body that fails to parse
  as JSON counts as a rejected call. A response whose shape differs from the
  record type is not modelled.
- Server replies are modelled as full records. A create reply that lacks
  fields, or the `"New user"` fallback name, is not modelled.
- The client id of a created record comes from `Math.random() * 10000`, a
  random non-integer. It is an integer parameter here. Nothing claims it is
  fresh.
- Cancelling in-flight list queries before the speculative write is a
  concurrency guard. Handlers here run to completion one after another, so
  no stale fetch can land in between, and the cancellation is not modelled.
- CrudSection.UserManager.SaveEdit: in the source, edit mode is cleared
  before the update settles. The model runs the whole update first. The
  fields involved are disjoint, so the end state is the same.
- Concurrent mutations and interleavings of their handlers are not
  modelled. Each mutation runs from its first handler to its last.
- Query and mutation status flags (`isLoading`, pending or error states)
  are not modelled. They only drive rendering.
- Notifications record only which one was raised, with no titles, text or
  variants.
- The store's `set` also carries the two setter functions. Only the two
  data fields are modelled.
- All rendering is out of scope, including the nine-card display cap on the
  user list and the skeleton placeholders.
