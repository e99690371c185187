/** The two tables both services share: `tasks`, keyed by task id, and
    `sync_queue`, held in `created_at` order. */
module Database {
  import opened Domain

  /** Every row of the tasks table is stored under its own id. */
  ghost predicate KeysMatch(tasks: map<string, Task>)
  {
    forall id :: id in tasks ==> tasks[id].id == id
  }

  /** The queue is ordered by `created_at` ascending (ties in insertion order). */
  ghost predicate Ordered(q: seq<QueueItem>)
  {
    forall i, j :: 0 <= i < j < |q| ==> q[i].createdAt <= q[j].createdAt
  }

  /** Queue row ids are unique (the primary key). */
  ghost predicate UniqueIds(q: seq<QueueItem>)
  {
    forall i, j :: 0 <= i < j < |q| ==> q[i].id != q[j].id
  }

  ghost predicate WellFormedQueue(q: seq<QueueItem>)
  {
    Ordered(q) && UniqueIds(q)
  }

  class Database {
    var tasks: map<string, Task>
    var queue: seq<QueueItem>

    ghost predicate Valid()
      reads this
    {
      KeysMatch(tasks) && WellFormedQueue(queue)
    }

    constructor ()
      ensures Valid()
      ensures tasks == map[] && queue == []
    {
      tasks := map[];
      queue := [];
    }
  }

  /** The queue left by deleting every id of `ids` in turn with
      `DELETE FROM sync_queue WHERE id = ?`: the rows whose id is not in
      `ids`, in their original order. */
  function FilterOut(q: seq<QueueItem>, ids: set<string>): (r: seq<QueueItem>)
    ensures |r| <= |q|
    ensures forall x :: x in r <==> x in q && x.id !in ids
  {
    if q == [] then []
    else if q[0].id in ids then FilterOut(q[1..], ids)
    else [q[0]] + FilterOut(q[1..], ids)
  }

  /** `DELETE FROM sync_queue WHERE id = ?`. */
  function RemoveId(q: seq<QueueItem>, id: string): (r: seq<QueueItem>)
    ensures forall x :: x in r <==> x in q && x.id != id
  {
    FilterOut(q, {id})
  }

  lemma {:induction false} FilterOutNothing(q: seq<QueueItem>)
    ensures FilterOut(q, {}) == q
  {
    if q != [] {
      FilterOutNothing(q[1..]);
      assert q == [q[0]] + q[1..];
    }
  }

  /** Deleting the ids `a` and then the ids `b` deletes the ids `a + b`. */
  lemma {:induction false} FilterOutTwice(q: seq<QueueItem>, a: set<string>, b: set<string>)
    ensures FilterOut(FilterOut(q, a), b) == FilterOut(q, a + b)
  {
    if q != [] {
      FilterOutTwice(q[1..], a, b);
      if q[0].id !in a {
        assert FilterOut(q, a) == [q[0]] + FilterOut(q[1..], a);
        assert FilterOut(q, a)[1..] == FilterOut(q[1..], a);
      }
    }
  }

  /** Acknowledging the same id twice has the effect of acknowledging it once. */
  lemma RemoveIdIdempotent(q: seq<QueueItem>, id: string)
    ensures RemoveId(RemoveId(q, id), id) == RemoveId(q, id)
  {
    FilterOutTwice(q, {id}, {id});
    assert {id} + {id} == {id};
  }

  /** The head of a well-formed queue precedes, and differs in id from, every later row. */
  lemma HeadPrecedesRest(q: seq<QueueItem>)
    requires WellFormedQueue(q) && q != []
    ensures forall y :: y in q[1..] ==> q[0].createdAt <= y.createdAt && q[0].id != y.id
  {
    forall y | y in q[1..]
      ensures q[0].createdAt <= y.createdAt && q[0].id != y.id
    {
      var m :| 0 <= m < |q[1..]| && q[1..][m] == y;
      assert q[m + 1] == y;
    }
  }

  lemma ConsWellFormed(x: QueueItem, rest: seq<QueueItem>)
    requires WellFormedQueue(rest)
    requires forall y :: y in rest ==> x.createdAt <= y.createdAt && x.id != y.id
    ensures WellFormedQueue([x] + rest)
  {
    var r := [x] + rest;
    forall i, j | 0 <= i < j < |r|
      ensures r[i].createdAt <= r[j].createdAt && r[i].id != r[j].id
    {
      assert r[j] == rest[j - 1];
      if i > 0 {
        assert r[i] == rest[i - 1];
      } else {
        assert r[j] in rest;
      }
    }
  }

  /** Deleting rows keeps the queue ordered and its ids unique. */
  lemma {:induction false} FilterOutWellFormed(q: seq<QueueItem>, ids: set<string>)
    requires WellFormedQueue(q)
    ensures WellFormedQueue(FilterOut(q, ids))
  {
    if q != [] {
      var rest := FilterOut(q[1..], ids);
      assert WellFormedQueue(q[1..]) by {
        forall i, j | 0 <= i < j < |q[1..]|
          ensures q[1..][i].createdAt <= q[1..][j].createdAt && q[1..][i].id != q[1..][j].id
        {
          assert q[1..][i] == q[i + 1] && q[1..][j] == q[j + 1];
        }
      }
      FilterOutWellFormed(q[1..], ids);
      if q[0].id !in ids {
        HeadPrecedesRest(q);
        ConsWellFormed(q[0], rest);
      }
    }
  }

  /** Appending a row with a fresh id and a timestamp no earlier than any
      queued one keeps the queue well formed. */
  lemma AppendWellFormed(q: seq<QueueItem>, x: QueueItem)
    requires WellFormedQueue(q)
    requires forall y :: y in q ==> y.createdAt <= x.createdAt && y.id != x.id
    ensures WellFormedQueue(q + [x])
  {
    var r := q + [x];
    forall i, j | 0 <= i < j < |r|
      ensures r[i].createdAt <= r[j].createdAt && r[i].id != r[j].id
    {
      assert r[i] == q[i];
      if j < |q| {
        assert r[j] == q[j];
      } else {
        assert q[i] in q;
      }
    }
  }
}
