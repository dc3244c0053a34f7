/** The five route handlers of the to-do service (`index.js`): each checks the
    `user-id` header and the body fields, makes at most one call on the store,
    and maps what the store did to a status code and a JSON body. */
module TodoApi {
  import opened TodoStore

  /** JavaScript truthiness of a request field that is a string or absent:
      `undefined` and `""` are falsy, every other string is truthy. */
  predicate Truthy(s: Option<string>)
  {
    s.Some? && s.value != ""
  }

  const OwnerRequired := "User ID is required."
  const CreateFieldsRequired := "Both 'text' and 'datetime' are required."
  const UpdateFieldRequired := "At least one of 'text' or 'datetime' must be provided."
  const NotFound := "To-do not found."
  const ListFailed := "Something went wrong"
  const CreateFailed := "Failed to create to-do."
  const ReadFailed := "Failed to fetch to-do."
  const UpdateFailed := "Failed to update to-do."
  const DeleteFailed := "Failed to delete to-do."
  const Updated := "To-do updated successfully."
  const Deleted := "To-do deleted successfully."

  /** `{ id, text, datetime }`: a document's id spread together with its data. */
  datatype TodoJson = TodoJson(id: string, text: string, datetime: string)

  /** The JSON bodies the handlers send. */
  datatype Body =
    | Failure(error: string)                                // { error }
    | Item(todo: TodoJson)                                  // { id, text, datetime }
    | Items(todos: seq<TodoJson>)                           // [ { id, text, datetime }, ... ]
    | UpdatedItem(message: string, id: string, fields: Patch) // { message, id, ...updatedFields }
    | Message(message: string)                              // { message }

  datatype Response = Response(status: int, body: Body)

  const MissingOwner := Response(400, Failure(OwnerRequired))

  /** `({ id: doc.id, ...doc.data() })` */
  function View(id: string, t: Todo): (json: TodoJson)
  {
    TodoJson(id, t.text, t.datetime)
  }

  /** `snapshot.docs.map(doc => ({ id: doc.id, ...doc.data() }))` */
  function Views(docs: seq<(string, Todo)>): (r: seq<TodoJson>)
    ensures |r| == |docs|
    ensures forall i :: 0 <= i < |docs| ==> r[i] == View(docs[i].0, docs[i].1)
  {
    if docs == [] then [] else [View(docs[0].0, docs[0].1)] + Views(docs[1..])
  }

  /** The documents a list body describes, each as (id, data). */
  function DocsOf(data: seq<TodoJson>): (docs: seq<(string, Todo)>)
    ensures |docs| == |data|
    ensures forall i :: 0 <= i < |data| ==> View(docs[i].0, docs[i].1) == data[i]
  {
    seq(|data|, i requires 0 <= i < |data| => (data[i].id, Todo(data[i].text, data[i].datetime)))
  }

  /** The list body `data` shows the whole collection `c`, each to-do once. */
  ghost predicate Lists(data: seq<TodoJson>, c: map<string, Todo>)
  {
    IsSnapshot(DocsOf(data), c)
  }

  /** The patch holds exactly the truthy ones of the two body fields. */
  predicate IsPatchOf(p: Patch, text: Option<string>, datetime: Option<string>)
  {
    && (if Truthy(text) then p.text == text else p.text == None)
    && (if Truthy(datetime) then p.datetime == datetime else p.datetime == None)
  }

  /** The responses GET /todos may give (it never changes the store). */
  ghost predicate ListOutcome(s: Tree, userId: Option<string>, r: Response)
  {
    if !Truthy(userId) then r == MissingOwner
    else
      || r == Response(500, Failure(ListFailed))
      || (r.status == 200 && r.body.Items? && Lists(r.body.todos, Collection(s, userId.value)))
  }

  /** The (new store, response) pairs POST /todos may give from store `s`. */
  ghost predicate CreateOutcome(s: Tree, s': Tree, userId: Option<string>,
                                text: Option<string>, datetime: Option<string>, r: Response)
  {
    if !Truthy(userId) then s' == s && r == MissingOwner
    else if !Truthy(text) || !Truthy(datetime) then
      s' == s && r == Response(400, Failure(CreateFieldsRequired))
    else
      var todo := Todo(text.value, datetime.value);
      || (s' == s && r == Response(500, Failure(CreateFailed)))
      || (&& r.status == 201 && r.body.Item?
          && r.body.todo == View(r.body.todo.id, todo)
          && r.body.todo.id != ""
          && (userId.value, r.body.todo.id) !in s
          && s' == s[(userId.value, r.body.todo.id) := todo])
  }

  /** The responses GET /todos/:id may give (it never changes the store). */
  ghost predicate ReadOutcome(s: Tree, userId: Option<string>, id: string, r: Response)
  {
    if !Truthy(userId) then r == MissingOwner
    else
      var key := (userId.value, id);
      || r == Response(500, Failure(ReadFailed))
      || (key !in s && r == Response(404, Failure(NotFound)))
      || (key in s && r == Response(200, Item(View(id, s[key]))))
  }

  /** The (new store, response) pairs PUT /todos/:id may give from store `s`. */
  ghost predicate UpdateOutcome(s: Tree, s': Tree, userId: Option<string>, id: string,
                                text: Option<string>, datetime: Option<string>, r: Response)
  {
    if !Truthy(userId) then s' == s && r == MissingOwner
    else if !Truthy(text) && !Truthy(datetime) then
      s' == s && r == Response(400, Failure(UpdateFieldRequired))
    else
      var key := (userId.value, id);
      || (s' == s && r == Response(500, Failure(UpdateFailed)))
      || (&& r.status == 200 && r.body.UpdatedItem?
          && r.body.message == Updated && r.body.id == id
          && IsPatchOf(r.body.fields, text, datetime)
          && key in s
          && s' == s[key := Merge(s[key], r.body.fields)])
  }

  /** The (new store, response) pairs DELETE /todos/:id may give from store `s`. */
  ghost predicate DeleteOutcome(s: Tree, s': Tree, userId: Option<string>, id: string, r: Response)
  {
    if !Truthy(userId) then s' == s && r == MissingOwner
    else
      || (s' == s && r == Response(500, Failure(DeleteFailed)))
      || (s' == s - {(userId.value, id)} && r == Response(200, Message(Deleted)))
  }

  /** One request: the `user-id` header, the path `id`, the body fields. */
  datatype Route =
    | ListRoute(userId: Option<string>)
    | CreateRoute(userId: Option<string>, text: Option<string>, datetime: Option<string>)
    | ReadRoute(userId: Option<string>, id: string)
    | UpdateRoute(userId: Option<string>, id: string, text: Option<string>, datetime: Option<string>)
    | DeleteRoute(userId: Option<string>, id: string)

  /** Handling `req` on store `s` may leave store `s'` and send `r`. */
  ghost predicate Step(s: Tree, req: Route, s': Tree, r: Response)
  {
    match req
    case ListRoute(u) => s' == s && ListOutcome(s, u, r)
    case CreateRoute(u, text, datetime) => CreateOutcome(s, s', u, text, datetime, r)
    case ReadRoute(u, id) => s' == s && ReadOutcome(s, u, id, r)
    case UpdateRoute(u, id, text, datetime) => UpdateOutcome(s, s', u, id, text, datetime, r)
    case DeleteRoute(u, id) => DeleteOutcome(s, s', u, id, r)
  }

  /** The Express app: the route handlers over the store handle `db`. */
  class TodoService {
    const db: Firestore

    constructor (db: Firestore)
      ensures this.db == db
    {
      this.db := db;
    }

    /** GET /todos */
    method GetTodos(userId: Option<string>) returns (r: Response)
      ensures ListOutcome(db.docs, userId, r)
    {
      if !Truthy(userId) {
        return MissingOwner;
      }
      var snapshot := db.GetAll(userId.value);
      if snapshot.Threw? {
        return Response(500, Failure(ListFailed));
      }
      var data := Views(snapshot.value);
      assert DocsOf(data) == snapshot.value;
      r := Response(200, Items(data));
    }

    /** POST /todos */
    method PostTodo(userId: Option<string>, text: Option<string>, datetime: Option<string>)
      returns (r: Response)
      modifies db
      ensures CreateOutcome(old(db.docs), db.docs, userId, text, datetime, r)
    {
      if !Truthy(userId) {
        return MissingOwner;
      }
      if !Truthy(text) || !Truthy(datetime) {
        return Response(400, Failure(CreateFieldsRequired));
      }
      var todo := Todo(text.value, datetime.value);
      var docRef := db.Add(userId.value, todo);
      if docRef.Threw? {
        return Response(500, Failure(CreateFailed));
      }
      r := Response(201, Item(View(docRef.value, todo)));
    }

    /** GET /todos/:id */
    method GetTodo(userId: Option<string>, id: string) returns (r: Response)
      ensures ReadOutcome(db.docs, userId, id, r)
    {
      if !Truthy(userId) {
        return MissingOwner;
      }
      var doc := db.Get(userId.value, id);
      if doc.Threw? {
        return Response(500, Failure(ReadFailed));
      }
      if doc.value.None? {
        return Response(404, Failure(NotFound));
      }
      r := Response(200, Item(View(id, doc.value.value)));
    }

    /** PUT /todos/:id */
    method PutTodo(userId: Option<string>, id: string, text: Option<string>, datetime: Option<string>)
      returns (r: Response)
      modifies db
      ensures UpdateOutcome(old(db.docs), db.docs, userId, id, text, datetime, r)
    {
      if !Truthy(userId) {
        return MissingOwner;
      }
      if !Truthy(text) && !Truthy(datetime) {
        return Response(400, Failure(UpdateFieldRequired));
      }
      var updatedFields := Patch(None, None);
      if Truthy(text) {
        updatedFields := updatedFields.(text := text);
      }
      if Truthy(datetime) {
        updatedFields := updatedFields.(datetime := datetime);
      }
      var result := db.Update(userId.value, id, updatedFields);
      if result.Threw? {
        return Response(500, Failure(UpdateFailed));
      }
      r := Response(200, UpdatedItem(Updated, id, updatedFields));
    }

    /** DELETE /todos/:id */
    method DeleteTodo(userId: Option<string>, id: string) returns (r: Response)
      modifies db
      ensures DeleteOutcome(old(db.docs), db.docs, userId, id, r)
    {
      if !Truthy(userId) {
        return MissingOwner;
      }
      var result := db.Delete(userId.value, id);
      if result.Threw? {
        return Response(500, Failure(DeleteFailed));
      }
      r := Response(200, Message(Deleted));
    }
  }
}
