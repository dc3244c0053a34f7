/** The document store the to-do routes talk to, seen only through the five
    calls they make on it.  Firestore keeps the to-dos of owner `u` in the
    collection `users/{u}/todos`; here the whole collection tree is one map
    keyed by (owner, document id).  Which id `add` generates and whether a call
    throws are not in the routes' hands, so the store chooses them freely. */
module TodoStore {

  datatype Option<+T> = None | Some(value: T)

  /** The data of one to-do document, `{ text, datetime }`. */
  datatype Todo = Todo(text: string, datetime: string)

  /** (owner, document id): the document `users/{owner}/todos/{id}`, with
      owner and id each taken as one path segment (no `/`). */
  type Key = (string, string)

  /** The collection tree: every to-do document of every owner. */
  type Tree = map<Key, Todo>

  /** The object handed to `update`: a field is `None` when the object has no
      such property. */
  datatype Patch = Patch(text: Option<string>, datetime: Option<string>)

  /** What one store call gave: its value, or the error it threw. */
  datatype Call<+T> = Done(value: T) | Threw(detail: string)

  /** One owner's collection `users/{owner}/todos`, by document id. */
  function Collection(s: Tree, owner: string): (c: map<string, Todo>)
    ensures forall id :: id in c <==> (owner, id) in s
    ensures forall id :: id in c ==> c[id] == s[(owner, id)]
  {
    map k | k in s && k.0 == owner :: k.1 := s[k]
  }

  /** Firestore's `update`: the fields present in the patch overwrite the
      stored ones, the others keep their values. */
  function Merge(t: Todo, p: Patch): (merged: Todo)
  {
    Todo(if p.text.Some? then p.text.value else t.text,
         if p.datetime.Some? then p.datetime.value else t.datetime)
  }

  /** `docs` is a query snapshot of collection `c`: every document of `c`
      exactly once, with its data, in some order the store picks. */
  ghost predicate IsSnapshot(docs: seq<(string, Todo)>, c: map<string, Todo>)
  {
    && (forall i :: 0 <= i < |docs| ==> docs[i].0 in c && c[docs[i].0] == docs[i].1)
    && (forall i, j :: 0 <= i < j < |docs| ==> docs[i].0 != docs[j].0)
    && (forall id :: id in c ==> exists i :: 0 <= i < |docs| && docs[i].0 == id)
  }

  /** A snapshot has exactly as many documents as its collection. */
  lemma {:induction false} SnapshotSize(docs: seq<(string, Todo)>, c: map<string, Todo>)
    requires IsSnapshot(docs, c)
    ensures |docs| == |c|
  {
    if docs == [] {
      assert forall id :: id !in c;
      assert c == map[];
    } else {
      var n := |docs| - 1;
      var last := docs[n].0;
      var rest, c' := docs[..n], c - {last};
      forall id | id in c'
        ensures exists i :: 0 <= i < |rest| && rest[i].0 == id
      {
        var i :| 0 <= i < |docs| && docs[i].0 == id;
        assert i < n && rest[i].0 == id;
      }
      assert IsSnapshot(rest, c');
      SnapshotSize(rest, c');
    }
  }

  /** Some string is longer than every string of `ids`. */
  lemma {:induction false} LongerThanAll(ids: set<string>) returns (n: nat)
    ensures forall id :: id in ids ==> |id| < n
  {
    if ids == {} {
      n := 0;
    } else {
      var x :| x in ids;
      var m := LongerThanAll(ids - {x});
      n := if |x| < m then m else |x| + 1;
    }
  }

  /** A collection holds finitely many ids, so a fresh non-empty one exists. */
  lemma FreshIdExists(ids: set<string>)
    ensures exists id :: id != "" && id !in ids
  {
    var n := LongerThanAll(ids);
    var id := seq(n + 1, _ => 'x');
    assert |id| == n + 1;
    assert id != "" && id !in ids;
  }

  /** The store handle `db`: its one field is the collection tree, and each
      method is a call the routes make on one owner's collection. */
  class Firestore {
    var docs: Tree

    constructor (initial: Tree)
      ensures docs == initial
    {
      docs := initial;
    }

    /** `collection("users").doc(owner).collection("todos").get()` */
    method GetAll(owner: string) returns (r: Call<seq<(string, Todo)>>)
      ensures r.Done? ==> IsSnapshot(r.value, Collection(docs, owner))
    {
      var failed: bool :| true;
      if failed {
        var detail: string :| true;
        return Threw(detail);
      }
      var c := Collection(docs, owner);
      var remaining := c.Keys;
      var snapshot: seq<(string, Todo)> := [];
      while remaining != {}
        invariant remaining <= c.Keys
        invariant forall i :: 0 <= i < |snapshot| ==>
          snapshot[i].0 in c && c[snapshot[i].0] == snapshot[i].1 && snapshot[i].0 !in remaining
        invariant forall i, j :: 0 <= i < j < |snapshot| ==> snapshot[i].0 != snapshot[j].0
        invariant forall id :: id in c && id !in remaining ==>
          exists i :: 0 <= i < |snapshot| && snapshot[i].0 == id
        decreases remaining
      {
        var id :| id in remaining;
        ghost var before := snapshot;
        snapshot := snapshot + [(id, c[id])];
        forall id' | id' in c && id' !in remaining - {id}
          ensures exists i :: 0 <= i < |snapshot| && snapshot[i].0 == id'
        {
          if id' == id {
            assert snapshot[|before|].0 == id';
          } else {
            var i :| 0 <= i < |before| && before[i].0 == id';
            assert snapshot[i].0 == id';
          }
        }
        remaining := remaining - {id};
      }
      r := Done(snapshot);
    }

    /** `...collection("todos").doc(id).get()`: the document, or `None` when
        `doc.exists` is false. */
    method Get(owner: string, id: string) returns (r: Call<Option<Todo>>)
      ensures r.Done? ==> ((owner, id) in docs <==> r.value.Some?)
      ensures r.Done? && r.value.Some? ==> r.value.value == docs[(owner, id)]
    {
      var failed: bool :| true;
      if failed {
        var detail: string :| true;
        return Threw(detail);
      }
      var c := Collection(docs, owner);
      r := Done(if id in c then Some(c[id]) else None);
    }

    /** `...collection("todos").add(todo)`: stores `todo` under an id that
        owner's collection does not use yet and returns that id. */
    method Add(owner: string, todo: Todo) returns (r: Call<string>)
      modifies this
      ensures r.Done? ==> r.value != "" && (owner, r.value) !in old(docs)
      ensures r.Done? ==> docs == old(docs)[(owner, r.value) := todo]
      ensures r.Threw? ==> docs == old(docs)
    {
      var failed: bool :| true;
      if failed {
        var detail: string :| true;
        return Threw(detail);
      }
      var used := Collection(docs, owner).Keys;
      FreshIdExists(used);
      var id: string :| id != "" && id !in used;
      docs := docs[(owner, id) := todo];
      r := Done(id);
    }

    /** `...collection("todos").doc(id).update(patch)`: merges the patch into
        an existing document; on a missing document Firestore's `update`
        fails. */
    method Update(owner: string, id: string, patch: Patch) returns (r: Call<()>)
      modifies this
      ensures r.Done? ==> (owner, id) in old(docs)
      ensures r.Done? ==> docs == old(docs)[(owner, id) := Merge(old(docs)[(owner, id)], patch)]
      ensures r.Threw? ==> docs == old(docs)
    {
      var failed: bool :| true;
      if failed || (owner, id) !in docs {
        var detail: string :| true;
        return Threw(detail);
      }
      docs := docs[(owner, id) := Merge(docs[(owner, id)], patch)];
      r := Done(());
    }

    /** `...collection("todos").doc(id).delete()`: succeeds whether or not the
        document exists. */
    method Delete(owner: string, id: string) returns (r: Call<()>)
      modifies this
      ensures r.Done? ==> docs == old(docs) - {(owner, id)}
      ensures r.Threw? ==> docs == old(docs)
    {
      var failed: bool :| true;
      if failed {
        var detail: string :| true;
        return Threw(detail);
      }
      docs := docs - {(owner, id)};
      r := Done(());
    }
  }
}
