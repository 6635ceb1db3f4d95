/** The first rows of a query in key order: `ORDER BY key, id LIMIT limit`. */
module QueryPages {
  type Keys = map<nat, int>

  predicate Precedes(keys: Keys, a: nat, b: nat)
    requires a in keys && b in keys
  {
    keys[a] < keys[b] || (keys[a] == keys[b] && a < b)
  }

  predicate Listed(ids: seq<nat>, id: nat) {
    exists k :: 0 <= k < |ids| && ids[k] == id
  }

  predicate Ascending(keys: Keys, ids: seq<nat>) {
    && (forall k :: 0 <= k < |ids| ==> ids[k] in keys)
    && (forall j, k :: 0 <= j < k < |ids| ==> Precedes(keys, ids[j], ids[k]))
  }

  /** In order, no more than the limit, and whatever is left out comes after a full page. */
  ghost predicate FirstPage(keys: Keys, limit: nat, ids: seq<nat>) {
    && |ids| <= limit && Ascending(keys, ids)
    && (forall id :: id in keys && !Listed(ids, id) ==>
          |ids| == limit && forall k :: 0 <= k < |ids| ==> Precedes(keys, ids[k], id))
  }

  /** The query's answer is determined: two first pages of the same rows are the same page. */
  lemma FirstPageIsUnique(keys: Keys, limit: nat, a: seq<nat>, b: seq<nat>)
    requires FirstPage(keys, limit, a) && FirstPage(keys, limit, b)
    ensures a == b
  {
    forall k | 0 <= k < |a| && k < |b|
      ensures a[k] == b[k]
    {
      SamePlace(keys, limit, a, b, k);
    }
    if |a| < |b| {
      LongerMeansFull(keys, limit, a, b);
    } else if |b| < |a| {
      LongerMeansFull(keys, limit, b, a);
    }
  }

  lemma {:induction false} SamePlace(keys: Keys, limit: nat, a: seq<nat>, b: seq<nat>, k: nat)
    requires FirstPage(keys, limit, a) && FirstPage(keys, limit, b) && k < |a| && k < |b|
    ensures a[k] == b[k]
    decreases k
  {
    forall j | 0 <= j < k
      ensures a[j] == b[j]
    {
      SamePlace(keys, limit, a, b, j);
    }
    NotEarlier(keys, limit, a, b, k);
    NotEarlier(keys, limit, b, a, k);
  }

  /** With the same rows before it, the k-th row of one page is not before the k-th row of the other. */
  lemma NotEarlier(keys: Keys, limit: nat, a: seq<nat>, b: seq<nat>, k: nat)
    requires FirstPage(keys, limit, a) && FirstPage(keys, limit, b) && k < |a| && k < |b|
    requires forall j :: 0 <= j < k ==> a[j] == b[j]
    ensures !Precedes(keys, a[k], b[k])
  {
    if Listed(b, a[k]) {
      var j :| 0 <= j < |b| && b[j] == a[k];
      assert j > k ==> Precedes(keys, b[k], b[j]);
    }
  }

  /** A first page that goes on in key order is full. */
  lemma LongerMeansFull(keys: Keys, limit: nat, a: seq<nat>, b: seq<nat>)
    requires FirstPage(keys, limit, a) && Ascending(keys, b)
    requires |a| < |b| && forall k :: 0 <= k < |a| ==> a[k] == b[k]
    ensures |a| == limit
  {
    assert forall k :: 0 <= k < |a| ==> Precedes(keys, b[k], b[|a|]);
    assert !Listed(a, b[|a|]);
  }

  /** The first row of what is left. */
  method First(keys: Keys) returns (id: nat)
    requires keys != map[]
    ensures id in keys && forall i :: i in keys && i != id ==> Precedes(keys, id, i)
  {
    id :| id in keys;
    var todo := keys.Keys - {id};
    while todo != {}
      invariant id in keys && todo <= keys.Keys
      invariant forall i :: i in keys && i !in todo && i != id ==> Precedes(keys, id, i)
      decreases todo
    {
      var i :| i in todo;
      if Precedes(keys, i, id) {
        id := i;
      }
      todo := todo - {i};
    }
  }

  /** What the selection knows when it has taken `ids` and `rest` is left. */
  ghost predicate Taken(keys: Keys, ids: seq<nat>, rest: Keys) {
    && Ascending(keys, ids)
    && (forall id :: id in rest ==> id in keys && rest[id] == keys[id])
    && (forall id :: id in keys ==> id in rest || Listed(ids, id))
    && (forall id, k :: id in rest && 0 <= k < |ids| ==> Precedes(keys, ids[k], id))
  }

  lemma TakesFirst(keys: Keys, ids: seq<nat>, rest: Keys, id: nat)
    requires Taken(keys, ids, rest) && id in rest
    requires forall i :: i in rest && i != id ==> Precedes(rest, id, i)
    ensures Taken(keys, ids + [id], map i | i in rest && i != id :: rest[i])
  {
    var more := ids + [id];
    forall i | i in keys && Listed(ids, i)
      ensures Listed(more, i)
    {
      var k :| 0 <= k < |ids| && ids[k] == i;
      assert more[k] == i;
    }
    assert more[|ids|] == id;
  }

  method Select(keys: Keys, limit: nat) returns (ids: seq<nat>)
    ensures FirstPage(keys, limit, ids)
  {
    ids := [];
    var rest := keys;
    while |ids| < limit && rest != map[]
      invariant |ids| <= limit && Taken(keys, ids, rest)
      decreases rest.Keys
    {
      var id := First(rest);
      TakesFirst(keys, ids, rest, id);
      ids := ids + [id];
      ghost var before := rest.Keys;
      rest := map i | i in rest && i != id :: rest[i];
      assert rest.Keys == before - {id};
    }
  }
}
