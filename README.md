# To-do API: route handlers over an owner-scoped document store

This project models the request-handling layer of a small Express service
(`index.js`). The service stores per-user to-do items in Firestore. Each item
lives at `users/{userId}/todos/{id}` and holds a `text` and a `datetime`. The
caller names the owner in the `user-id` request header. There are five routes:

- `GET /todos` lists the owner's to-dos.
- `POST /todos` creates one; the store generates the id.
- `GET /todos/:id` reads one.
- `PUT /todos/:id` merges the supplied fields into one.
- `DELETE /todos/:id` deletes one.

Every handler checks the header, then checks the body fields, makes at most one
store call, and maps the result to a status code and a JSON body.

The model has three modules.

- `TodoStore` (`todo_store.dfy`) models the store. The collection tree is a
  `map<(owner, id), Todo>`. `Collection` gives one owner's collection.
  `Merge` is Firestore's field merge. The class `Firestore` holds the tree
  and has the five calls the handlers make. Each call may throw, and the
  model chooses that nondeterministically. `add` picks any non-empty id that
  the owner's collection does not use yet. A `get` of the collection returns
  a snapshot of every document exactly once, in an order the store chooses.
- `TodoApi` (`todo_api.dfy`) models the handlers. JavaScript truthiness of
  an optional string is "present and non-empty". The module also has the
  fixed messages and the response bodies. For each route, an outcome
  relation says exactly which (new store, response) pairs the route may
  produce from a given store. The class `TodoService` has one method per
  route, and each method is proved to produce only pairs its relation allows.
- `TodoProperties` (`todo_properties.dfy`) proves what holds for every
  request, over those relations. The owner guard and fail-fast validation
  hold for all routes. Errors are opaque. In the model, each owner's
  collection is isolated in what a route writes and in what it reads; in
  the program this holds only for owners and ids without `/` (see
  "## Left out"). Writes keep stored to-dos well formed. The module also
  proves what a later GET sees after a POST, a PUT or a DELETE, and what a
  list shows after a run of creates.

A PUT on a document that does not exist reaches Firestore's `update`, which
throws; the catch block (index.js:112-114) answers 500 "Failed to update
to-do.", never 404. A DELETE of a missing document answers 200. A store
call that throws is taken to leave the store unchanged.

## Model

| member | source | states |
|---|---|---|
| `TodoStore.Collection` | index.js:32 | the collection `users/{owner}/todos` holds exactly the documents keyed (owner, id), with their data |
| `TodoStore.SnapshotSize` | index.js:32-33 | a snapshot of a collection has exactly as many documents as the collection |
| `TodoStore.FreshIdExists` | index.js:57 | a non-empty id unused in a collection always exists, so `add` can always pick one |
| `TodoStore.Firestore.constructor` | index.js:21 | the store handle starts with the given collection tree |
| `TodoStore.Firestore.GetAll` | index.js:32 | when it does not throw, the query returns a snapshot of the owner's collection: every document once, with its data |
| `TodoStore.Firestore.Get` | index.js:76-78 | when it does not throw, `doc.exists` is true exactly when (owner, id) is stored, and the data is the stored document |
| `TodoStore.Firestore.Add` | index.js:57 | on success, exactly one entry is added, under a non-empty id the owner had not used, and nothing else changes; if it throws, the store is unchanged |
| `TodoStore.Firestore.Update` | index.js:109 | succeeds only on an existing document, which then becomes the merge of the patch into it, with nothing else changed; if it throws, the store is unchanged |
| `TodoStore.Firestore.Delete` | index.js:128 | on success, the (owner, id) entry is gone, whether or not it existed, and nothing else changes; if it throws, the store is unchanged |
| `TodoApi.Views` | index.js:33 | the list body has one `{id, text, datetime}` per snapshot document, in snapshot order |
| `TodoApi.TodoService.constructor` | index.js:21 | the service uses the store handle it is given |
| `TodoApi.TodoService.GetTodos` | index.js:24-39 | 400 "User ID is required." without an owner; otherwise 500 "Something went wrong", or 200 with a list that has every document of the caller's collection exactly once |
| `TodoApi.TodoService.PostTodo` | index.js:42-64 | 400 without an owner, or when `text` or `datetime` is falsy, with no change; otherwise 500 and no change, or 201 `{id, text, datetime}` after adding exactly that to-do under a fresh non-empty id of the caller |
| `TodoApi.TodoService.GetTodo` | index.js:67-87 | 400 without an owner; otherwise 500, or 404 "To-do not found." when (owner, id) is absent, or 200 with that id and the stored fields |
| `TodoApi.TodoService.PutTodo` | index.js:90-116 | 400 without an owner, or when both fields are falsy, with no change; otherwise 500 and no change, or 200 `{message, id, ...patch}`, where the patch holds exactly the truthy fields and is merged into the existing (owner, id) entry, and nothing else changes |
| `TodoApi.TodoService.DeleteTodo` | index.js:119-135 | 400 without an owner, with no change; otherwise 500 and no change, or 200 "To-do deleted successfully." with the (owner, id) entry removed |
| `TodoProperties.OwnerGuard` | index.js:27-29 | on every route, an absent or empty `user-id` gives 400 "User ID is required." and leaves the store unchanged (also lines 45-47, 71-73, 94-96, 123-125) |
| `TodoProperties.ValidationFailsFast` | index.js:52-54 | a route answers 400 exactly when the owner is missing, the POST body lacks a truthy `text` or `datetime`, or the PUT body has neither (lines 101-103), for a request whose body is a parsed JSON object; a 400 never changes the store |
| `TodoProperties.StoreFailureIsOpaque` | index.js:131-133 | every 500 carries its route's fixed message, independent of the thrown error, and leaves the store unchanged (also lines 35-37, 60-62, 83-85, 112-114) |
| `TodoProperties.OwnerIsolation` | index.js:105-109 | no route changes the collection of any owner other than the caller (in the program, for owners and ids without `/`) |
| `TodoProperties.ReadsOnlyOwnCollection` | index.js:76 | a route's possible responses and its effect on the caller's collection depend only on that collection, not on other owners' data (in the program, for owners and ids without `/`) |
| `TodoProperties.StepPreservesWellFormed` | index.js:105-109 | if every stored to-do has a non-empty text and datetime, that stays so after any route, because creates and patches carry only truthy fields |
| `TodoProperties.CreateThenRead` | index.js:56-82 | after a 201 create, a GET of the returned id by the same owner gives 500 or 200 with exactly the created text and datetime, and the id is non-empty |
| `TodoProperties.CreateThenReadByOther` | index.js:76-80 | after a create, another owner who had no document with that id gets 404 (or 500) for it |
| `TodoProperties.UpdateThenRead` | index.js:105-111 | after a 200 update, a GET of that id gives 200 or 500, and a 200 shows the new value of each truthy field and the old value of each other field |
| `TodoProperties.UpdateOfMissingDocument` | index.js:109-114 | a PUT on a missing document never answers 200 and leaves the store unchanged |
| `TodoProperties.DeleteThenRead` | index.js:128-130 | after a 200 delete, a GET of that id gives 404 (or 500) |
| `TodoProperties.DeleteWithoutDocument` | index.js:128-130 | a delete of a document that does not exist can answer 200 and leave the store as it was |
| `TodoProperties.CreateGrowsCollection` | index.js:57 | one successful create adds exactly one new document, keyed by the returned id, to the owner's collection |
| `TodoProperties.CreatesAccumulate` | index.js:57-59 | n successful creates by one owner grow that owner's collection by exactly n, and every returned id is in it |
| `TodoProperties.ListAfterCreates` | index.js:32-34 | a 200 list after n successful creates by the same owner has at least n items, among them every returned id |

## Left out

- Express setup, CORS, JSON body parsing, `app.listen` and the port (index.js:1-11, 137-140) are HTTP plumbing. A request is modelled by its three inputs: the `user-id` header, the path `id` and the body fields.
- Loading credentials from the environment and initialising the Firebase Admin SDK (index.js:13-21) are external configuration. The store handle is a constructor argument instead.
- Firestore internals are left out: how ids are generated, the transport and permissions. The model keeps only their effect: any call may throw, `add` picks any fresh non-empty id, and a snapshot comes in any order. Firestore's real default order (by document id) is not modelled.
- Owners and ids are modelled as single path segments: the key (owner, id) always names `users/{owner}/todos/{id}`. In the program a `/` in either one changes the path. Express decodes `%2F` in `req.params.id` (index.js:69), and `doc(...)` splits its argument on `/` (index.js:32, 76, 109, 128). So with header `user-id: u`, `PUT /todos/x%2Ftodos%2Fy` updates `users/u/todos/x/todos/y`, the document `y` of owner `u/todos/x`, and answers 200 if it exists; the model looks up ("u", "x/todos/y"), answers 500 and changes nothing. A `user-id` of `a/todos/b` is likewise a valid path into another owner's collection; a path of odd length throws, for example one with an odd number of `/` in `user-id` or in the id (so `GET /todos/x%2Fy` answers 500 where the model allows 404, and `DELETE /todos/x%2Fy` answers 500 where the model allows 200). OwnerIsolation, ReadsOnlyOwnCollection and the id GetTodo echoes (the program sends `doc.id`, the last segment, at index.js:82) therefore hold only for owners and ids without `/`.
- A store call that throws is assumed to have written nothing. A write that is applied and then reported as failed is not modelled.
- `console.error` logging (index.js:36, 61, 84, 113, 132) is output with no effect on the response.
- Concurrency between requests and the `await` suspension points are left out. Each request is one sequential step on the store.
- The request body is taken to be a parsed JSON object, as `express.json()` leaves it in Express 4 (an empty object when nothing was parsed). If `req.body` is `undefined`, as Express 5 leaves it when no JSON body was parsed, the destructuring at index.js:50 and index.js:99 throws inside the `try`, and POST answers 500 "Failed to create to-do." (index.js:60-62) and PUT 500 "Failed to update to-do." (index.js:112-114) where the model answers 400; ValidationFailsFast is stated for requests with a parsed body only.
- Only strings or absent values are modelled for body fields and the header. JSON numbers, booleans and objects in `text` or `datetime`, and repeated headers, are not modelled. `!x` is modelled as "absent or the empty string".
- Stored documents hold exactly `text` and `datetime`. Extra fields in documents written outside this service would appear in `doc.data()` and so in the responses; they are not modelled.
