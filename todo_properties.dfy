/** What the route handlers promise, stated over the outcome relations of
    module TodoApi and proved for every store, request and store behaviour. */
module TodoProperties {
  import opened TodoStore
  import opened TodoApi

  /** The request gets past validation: an owner, and the body fields the
      route needs. */
  predicate Admissible(req: Route)
  {
    && Truthy(req.userId)
    && match req
       case CreateRoute(_, text, datetime) => Truthy(text) && Truthy(datetime)
       case UpdateRoute(_, _, text, datetime) => Truthy(text) || Truthy(datetime)
       case _ => true
  }

  /** The fixed error text a route sends when its store call throws. */
  function StoreFailureMessage(req: Route): (msg: string)
  {
    match req
    case ListRoute(_) => ListFailed
    case CreateRoute(_, _, _) => CreateFailed
    case ReadRoute(_, _) => ReadFailed
    case UpdateRoute(_, _, _, _) => UpdateFailed
    case DeleteRoute(_, _) => DeleteFailed
  }

  /** Every stored to-do has a non-empty text and datetime. */
  ghost predicate WellFormed(s: Tree)
  {
    forall k :: k in s ==> s[k].text != "" && s[k].datetime != ""
  }

  /** Without a truthy `user-id` header every route answers 400
      "User ID is required." and leaves the store as it was. */
  lemma OwnerGuard(s: Tree, req: Route, s': Tree, r: Response)
    requires Step(s, req, s', r)
    requires !Truthy(req.userId)
    ensures r == Response(400, Failure(OwnerRequired)) && s' == s
  {
  }

  /** Validation fails fast: a route answers 400 exactly when the request is
      not admissible, and a 400 never changes the store. */
  lemma ValidationFailsFast(s: Tree, req: Route, s': Tree, r: Response)
    requires Step(s, req, s', r)
    ensures r.status == 400 <==> !Admissible(req)
    ensures r.status == 400 ==> s' == s
  {
  }

  /** A thrown store error gives 500 with the route's fixed message, which
      carries nothing of the error, and no change to the store. */
  lemma StoreFailureIsOpaque(s: Tree, req: Route, s': Tree, r: Response)
    requires Step(s, req, s', r)
    requires r.status == 500
    ensures r.body == Failure(StoreFailureMessage(req)) && s' == s
  {
  }

  /** Writing one document of `owner` changes that one entry of its collection. */
  lemma CollectionAfterWrite(s: Tree, owner: string, id: string, t: Todo)
    ensures Collection(s[(owner, id) := t], owner) == Collection(s, owner)[id := t]
  {
  }

  /** Deleting one document of `owner` drops that one entry of its collection. */
  lemma CollectionAfterRemove(s: Tree, owner: string, id: string)
    ensures Collection(s - {(owner, id)}, owner) == Collection(s, owner) - {id}
  {
  }

  /** No route changes the collection of any owner but the caller's. */
  lemma OwnerIsolation(s: Tree, req: Route, s': Tree, r: Response, other: string)
    requires Step(s, req, s', r)
    requires !Truthy(req.userId) || other != req.userId.value
    ensures Collection(s', other) == Collection(s, other)
  {
  }

  /** No route reads outside the caller's collection: on a store that agrees
      with `s1` on that collection the same request can give the same response
      and leave the same collection. */
  lemma ReadsOnlyOwnCollection(s1: Tree, s2: Tree, req: Route, s1': Tree, r: Response)
    requires Truthy(req.userId)
    requires Collection(s1, req.userId.value) == Collection(s2, req.userId.value)
    requires Step(s1, req, s1', r)
    ensures exists s2' :: Step(s2, req, s2', r)
                       && Collection(s2', req.userId.value) == Collection(s1', req.userId.value)
  {
    var u := req.userId.value;
    var c := Collection(s1, u);
    match req
    case ListRoute(_) =>
      assert Step(s2, req, s2, r);
    case ReadRoute(_, id) =>
      assert (u, id) in s1 <==> id in c;
      assert Step(s2, req, s2, r);
    case CreateRoute(_, text, datetime) =>
      if s1' == s1 {
        assert Step(s2, req, s2, r);
      } else {
        var todo := Todo(text.value, datetime.value);
        var id := r.body.todo.id;
        assert (u, id) !in s2 by { assert id !in c; }
        CollectionAfterWrite(s1, u, id, todo);
        CollectionAfterWrite(s2, u, id, todo);
        assert Step(s2, req, s2[(u, id) := todo], r);
      }
    case UpdateRoute(_, id, text, datetime) =>
      if r.status != 200 {
        assert Step(s2, req, s2, r);
      } else {
        var t := Merge(s2[(u, id)], r.body.fields) by { assert id in c; }
        assert s1[(u, id)] == s2[(u, id)] by { assert c[id] == s1[(u, id)]; }
        CollectionAfterWrite(s1, u, id, t);
        CollectionAfterWrite(s2, u, id, t);
        assert Step(s2, req, s2[(u, id) := t], r);
      }
    case DeleteRoute(_, id) =>
      if r.status == 500 {
        assert Step(s2, req, s2, r);
      } else {
        CollectionAfterRemove(s1, u, id);
        CollectionAfterRemove(s2, u, id);
        assert Step(s2, req, s2 - {(u, id)}, r);
      }
  }

  /** Every route keeps every stored to-do's text and datetime non-empty. */
  lemma StepPreservesWellFormed(s: Tree, req: Route, s': Tree, r: Response)
    requires WellFormed(s)
    requires Step(s, req, s', r)
    ensures WellFormed(s')
  {
  }

  /** POST then GET with the returned id, same owner: the store either fails
      or gives back exactly what was created. */
  lemma CreateThenRead(s0: Tree, s1: Tree, owner: string, text: Option<string>,
                       datetime: Option<string>, r1: Response, r2: Response)
    requires CreateOutcome(s0, s1, Some(owner), text, datetime, r1) && r1.status == 201
    requires ReadOutcome(s1, Some(owner), r1.body.todo.id, r2)
    ensures r1.body.todo.id != ""
    ensures r2.status == 200 || r2.status == 500
    ensures r2.status == 200 ==> r2.body == Item(TodoJson(r1.body.todo.id, text.value, datetime.value))
  {
  }

  /** POST then GET of that id by another owner who had no such document:
      not found, unless the store fails. */
  lemma CreateThenReadByOther(s0: Tree, s1: Tree, owner: string, text: Option<string>,
                              datetime: Option<string>, r1: Response, other: string, r2: Response)
    requires CreateOutcome(s0, s1, Some(owner), text, datetime, r1) && r1.status == 201
    requires other != "" && other != owner && (other, r1.body.todo.id) !in s0
    requires ReadOutcome(s1, Some(other), r1.body.todo.id, r2)
    ensures r2 == Response(404, Failure(NotFound)) || r2 == Response(500, Failure(ReadFailed))
  {
  }

  /** PUT then GET: the document is found (unless the store fails), the
      fields sent truthy are the new values, the others keep their old values. */
  lemma UpdateThenRead(s0: Tree, s1: Tree, owner: string, id: string, text: Option<string>,
                       datetime: Option<string>, r1: Response, r2: Response)
    requires UpdateOutcome(s0, s1, Some(owner), id, text, datetime, r1) && r1.status == 200
    requires ReadOutcome(s1, Some(owner), id, r2)
    ensures (owner, id) in s0
    ensures r2.status == 200 || r2.status == 500
    ensures r2.status == 200 ==> r2.body.Item? && r2.body.todo.id == id
    ensures r2.status == 200 ==> r2.body.todo.text == if Truthy(text) then text.value else s0[(owner, id)].text
    ensures r2.status == 200 ==> r2.body.todo.datetime == if Truthy(datetime) then datetime.value else s0[(owner, id)].datetime
  {
  }

  /** DELETE then GET of the same id: not found, unless a store call fails. */
  lemma DeleteThenRead(s0: Tree, s1: Tree, owner: string, id: string, r1: Response, r2: Response)
    requires DeleteOutcome(s0, s1, Some(owner), id, r1) && r1.status == 200
    requires ReadOutcome(s1, Some(owner), id, r2)
    ensures r2 == Response(404, Failure(NotFound)) || r2 == Response(500, Failure(ReadFailed))
  {
  }

  /** DELETE answers 200 whether or not the document existed: on a store
      without it, success is an outcome that leaves the store as it was. */
  lemma DeleteWithoutDocument(s: Tree, owner: string, id: string)
    requires owner != "" && (owner, id) !in s
    ensures DeleteOutcome(s, s, Some(owner), id, Response(200, Message(Deleted)))
  {
    assert s - {(owner, id)} == s;
  }

  /** PUT on a document that does not exist never answers 200 and changes
      nothing: Firestore's `update` throws, so the route answers 500. */
  lemma UpdateOfMissingDocument(s: Tree, s': Tree, owner: string, id: string,
                                text: Option<string>, datetime: Option<string>, r: Response)
    requires (owner, id) !in s
    requires UpdateOutcome(s, s', Some(owner), id, text, datetime, r)
    ensures s' == s
    ensures r.status == 400 || r == Response(500, Failure(UpdateFailed))
  {
  }

  /** `states[0]`, ..., `states[n]` are the stores around n POST /todos calls
      by `owner` with bodies `bodies` that all answered 201 with `resps`. */
  ghost predicate CreateRun(states: seq<Tree>, owner: string,
                            bodies: seq<(Option<string>, Option<string>)>, resps: seq<Response>)
  {
    && |states| == |bodies| + 1
    && |resps| == |bodies|
    && forall i :: 0 <= i < |bodies| ==>
         CreateOutcome(states[i], states[i + 1], Some(owner), bodies[i].0, bodies[i].1, resps[i])
         && resps[i].status == 201
  }

  /** One successful create adds exactly one new document, under the
      returned id, to the owner's collection. */
  lemma CreateGrowsCollection(s0: Tree, s1: Tree, owner: string, text: Option<string>,
                              datetime: Option<string>, r: Response)
    requires CreateOutcome(s0, s1, Some(owner), text, datetime, r) && r.status == 201
    ensures r.body.Item? && r.body.todo.id in Collection(s1, owner)
    ensures Collection(s0, owner).Keys <= Collection(s1, owner).Keys
    ensures |Collection(s1, owner)| == |Collection(s0, owner)| + 1
  {
    var id := r.body.todo.id;
    CollectionAfterWrite(s0, owner, id, Todo(text.value, datetime.value));
    assert id !in Collection(s0, owner);
  }

  /** A run of creates, less its last one, is a run of creates. */
  lemma CreateRunPrefix(states: seq<Tree>, owner: string,
                        bodies: seq<(Option<string>, Option<string>)>, resps: seq<Response>)
    requires CreateRun(states, owner, bodies, resps) && |bodies| > 0
    ensures CreateRun(states[..|bodies|], owner, bodies[..|bodies| - 1], resps[..|bodies| - 1])
  {
  }

  /** n successful creates add n new documents to the owner's collection, and
      each returned id is in it afterwards. */
  lemma {:induction false} CreatesAccumulate(states: seq<Tree>, owner: string,
                                             bodies: seq<(Option<string>, Option<string>)>,
                                             resps: seq<Response>)
    requires CreateRun(states, owner, bodies, resps)
    ensures |Collection(states[|bodies|], owner)| == |Collection(states[0], owner)| + |bodies|
    ensures forall i :: 0 <= i < |resps| ==>
              resps[i].body.Item? && resps[i].body.todo.id in Collection(states[|bodies|], owner)
  {
    var n := |bodies|;
    if n > 0 {
      CreateRunPrefix(states, owner, bodies, resps);
      CreatesAccumulate(states[..n], owner, bodies[..n - 1], resps[..n - 1]);
      CreateGrowsCollection(states[n - 1], states[n], owner, bodies[n - 1].0, bodies[n - 1].1, resps[n - 1]);
      forall i | 0 <= i < n
        ensures resps[i].body.Item? && resps[i].body.todo.id in Collection(states[n], owner)
      {
        if i < n - 1 {
          assert resps[..n - 1][i] == resps[i];
        }
      }
    }
  }

  /** GET /todos after n successful creates by the same owner lists at least
      n to-dos, among them every id the creates returned. */
  lemma ListAfterCreates(states: seq<Tree>, owner: string,
                         bodies: seq<(Option<string>, Option<string>)>,
                         resps: seq<Response>, r: Response)
    requires CreateRun(states, owner, bodies, resps)
    requires ListOutcome(states[|bodies|], Some(owner), r) && r.status == 200
    ensures |r.body.todos| >= |bodies|
    ensures forall i :: 0 <= i < |resps| ==>
              (resps[i].body.Item? &&
               exists j :: 0 <= j < |r.body.todos| && r.body.todos[j].id == resps[i].body.todo.id)
  {
    var c := Collection(states[|bodies|], owner);
    CreatesAccumulate(states, owner, bodies, resps);
    SnapshotSize(DocsOf(r.body.todos), c);
    forall i | 0 <= i < |resps|
      ensures resps[i].body.Item? &&
              exists j :: 0 <= j < |r.body.todos| && r.body.todos[j].id == resps[i].body.todo.id
    {
      var id := resps[i].body.todo.id;
      var j :| 0 <= j < |r.body.todos| && DocsOf(r.body.todos)[j].0 == id;
      assert View(DocsOf(r.body.todos)[j].0, DocsOf(r.body.todos)[j].1) == r.body.todos[j];
    }
  }
}
