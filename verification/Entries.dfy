/** Lists of identified records, as `ChannelImpl` keeps its members, publications and subscriptions. */
module Entries {
  import opened Util

  type Id = string

  datatype Entry<T> = Entry(id: Id, body: T)

  /** `find((e) => e.id === id)` */
  function Get<T>(xs: seq<Entry<T>>, id: Id): Option<Entry<T>>
  {
    if xs == [] then None else if xs[0].id == id then Some(xs[0]) else Get(xs[1..], id)
  }

  /** Push unless an entry with the same id is there. */
  function Add<T>(xs: seq<Entry<T>>, e: Entry<T>): seq<Entry<T>>
  {
    if Get(xs, e.id).Some? then xs else xs + [e]
  }

  /** `filter((e) => e.id !== id)` */
  function Delete<T>(xs: seq<Entry<T>>, id: Id): seq<Entry<T>>
  {
    if xs == [] then []
    else if xs[0].id == id then Delete(xs[1..], id)
    else [xs[0]] + Delete(xs[1..], id)
  }

  /** Assign to the first entry that `find` returns. */
  function Assign<T>(xs: seq<Entry<T>>, id: Id, body: T): seq<Entry<T>>
  {
    if xs == [] then []
    else if xs[0].id == id then [Entry(id, body)] + xs[1..]
    else [xs[0]] + Assign(xs[1..], id, body)
  }

  /** What `find` sees of a list. */
  function Table<T>(xs: seq<Entry<T>>): map<Id, T>
  {
    if xs == [] then map[] else Table(xs[1..])[xs[0].id := xs[0].body]
  }

  ghost predicate Unique<T>(xs: seq<Entry<T>>)
  {
    forall i, j :: 0 <= i < j < |xs| ==> xs[i].id != xs[j].id
  }

  lemma {:induction false} GetTable<T>(xs: seq<Entry<T>>, id: Id)
    ensures Get(xs, id) == if id in Table(xs) then Some(Entry(id, Table(xs)[id])) else None
  {
    if xs != [] {
      GetTable(xs[1..], id);
    }
  }

  /** Appending an entry shows only if its id was not there. */
  lemma {:induction false} AppendTable<T>(xs: seq<Entry<T>>, e: Entry<T>)
    ensures Table(xs + [e]) == if e.id in Table(xs) then Table(xs) else Table(xs)[e.id := e.body]
  {
    if xs != [] {
      assert (xs + [e])[1..] == xs[1..] + [e];
      AppendTable(xs[1..], e);
    }
  }

  lemma AddTable<T>(xs: seq<Entry<T>>, e: Entry<T>)
    ensures Table(Add(xs, e)) == if e.id in Table(xs) then Table(xs) else Table(xs)[e.id := e.body]
  {
    GetTable(xs, e.id);
    if e.id !in Table(xs) {
      AppendTable(xs, e);
    }
  }

  lemma {:induction false} DeleteTable<T>(xs: seq<Entry<T>>, id: Id)
    ensures Table(Delete(xs, id)) == Table(xs) - {id}
  {
    if xs != [] {
      DeleteTable(xs[1..], id);
    }
  }

  lemma {:induction false} AssignTable<T>(xs: seq<Entry<T>>, id: Id, body: T)
    requires id in Table(xs)
    ensures Table(Assign(xs, id, body)) == Table(xs)[id := body]
  {
    if xs[0].id != id {
      AssignTable(xs[1..], id, body);
      assert Assign(xs, id, body)[1..] == Assign(xs[1..], id, body);
    } else {
      assert Assign(xs, id, body)[1..] == xs[1..];
    }
  }

  lemma {:induction false} InTable<T>(xs: seq<Entry<T>>, id: Id)
    ensures id in Table(xs) <==> exists i :: 0 <= i < |xs| && xs[i].id == id
  {
    if xs != [] {
      InTable(xs[1..], id);
      if id in Table(xs[1..]) {
        var i :| 0 <= i < |xs[1..]| && xs[1..][i].id == id;
        assert xs[i + 1].id == id;
      }
      if i :| 0 <= i < |xs| && xs[i].id == id && i > 0 {
        assert xs[1..][i - 1].id == id;
      }
    }
  }

  lemma AddUnique<T>(xs: seq<Entry<T>>, e: Entry<T>)
    requires Unique(xs)
    ensures Unique(Add(xs, e))
  {
    GetTable(xs, e.id);
    InTable(xs, e.id);
  }

  lemma {:induction false} DeleteUnique<T>(xs: seq<Entry<T>>, id: Id)
    requires Unique(xs)
    ensures Unique(Delete(xs, id))
    ensures forall i :: 0 <= i < |Delete(xs, id)| ==> exists j :: 0 <= j < |xs| && xs[j].id == Delete(xs, id)[i].id
  {
    if xs != [] {
      DeleteUnique(xs[1..], id);
      var ys := Delete(xs[1..], id);
      forall i | 0 <= i < |ys|
        ensures exists j :: 1 <= j < |xs| && xs[j].id == ys[i].id
      {
        var j :| 0 <= j < |xs[1..]| && xs[1..][j].id == ys[i].id;
        assert xs[j + 1].id == ys[i].id;
      }
    }
  }

  lemma {:induction false} AssignUnique<T>(xs: seq<Entry<T>>, id: Id, body: T)
    requires Unique(xs)
    ensures var ys := Assign(xs, id, body);
            |ys| == |xs| && Unique(ys) && forall i :: 0 <= i < |xs| ==> ys[i].id == xs[i].id
  {
    if xs != [] && xs[0].id != id {
      AssignUnique(xs[1..], id, body);
      var ys := Assign(xs[1..], id, body);
      forall i | 0 <= i < |xs|
        ensures Assign(xs, id, body)[i].id == xs[i].id
      {
        assert i > 0 ==> ys[i - 1].id == xs[1..][i - 1].id;
      }
    }
  }
}
