/** Go visits a map in arbitrary order; neither the order nor an interruption shows in the result. */
module WriteOrder {
  import opened Api
  import opened Cloud

  // `order` visits every key of `keys` once.
  ghost predicate Enumerates<K(!new)>(order: seq<K>, keys: set<K>) {
    && (forall i, j :: 0 <= i < j < |order| ==> order[i] != order[j])
    && (forall k :: k in keys <==> k in order)
  }

  // The configuration after writing the parameters in this order.
  function Written(config: map<Key, string>, params: map<Key, string>, order: seq<Key>): map<Key, string>
    requires forall k :: k in order ==> k in params
    decreases |order|
  {
    if order == [] then config
    else Written(config[order[0] := params[order[0]]], params, order[1..])
  }

  // Writing some of the parameters, in any order and even more than once, changes their keys and no others.
  lemma {:induction false} WrittenMeans(config: map<Key, string>, params: map<Key, string>, order: seq<Key>)
    requires forall k :: k in order ==> k in params
    ensures Written(config, params, order) == config + Only(params, set k | k in order)
    decreases |order|
  {
    if order != [] {
      var first, rest := order[0], order[1..];
      WrittenMeans(config[first := params[first]], params, rest);
      assert (set k | k in order) == {first} + set k | k in rest;
    } else {
      assert Only(params, set k | k in order) == map[];
    }
  }

  /** Every enumeration of the parameters gives the same configuration: the old one overridden by them. */
  lemma {:induction false} OrderDoesNotMatter(config: map<Key, string>, params: map<Key, string>, order: seq<Key>)
    requires Enumerates(order, params.Keys)
    ensures Written(config, params, order) == config + params
  {
    WrittenMeans(config, params, order);
    assert (set k | k in order) == params.Keys;
    assert Only(params, params.Keys) == params;
  }

  /** So does an enumeration broken off anywhere, followed by a whole one of the same parameters. */
  lemma {:induction false} RetryRepairs(config: map<Key, string>, params: map<Key, string>, begun: seq<Key>, retry: seq<Key>)
    requires (forall k :: k in begun ==> k in params) && Enumerates(retry, params.Keys)
    ensures Written(Written(config, params, begun), params, retry) == config + params
  {
    OrderDoesNotMatter(Written(config, params, begun), params, retry);
    WrittenMeans(config, params, begun);
  }

  // The folders after deleting these ids one by one.
  function Without(folders: map<string, Folder>, order: seq<string>): map<string, Folder> {
    if order == [] then folders else Without(folders - {order[0]}, order[1..])
  }

  /** Every enumeration of the stale ids leaves the folders without them. */
  lemma {:induction false} DeletionOrderDoesNotMatter(folders: map<string, Folder>, order: seq<string>, stale: set<string>)
    requires forall id :: id in stale <==> id in order
    ensures Without(folders, order) == folders - stale
  {
    WithoutMeans(folders, order);
    assert (set id | id in order) == stale;
  }

  lemma {:induction false} WithoutMeans(folders: map<string, Folder>, order: seq<string>)
    ensures Without(folders, order) == folders - set id | id in order
  {
    if order != [] {
      WithoutMeans(folders - {order[0]}, order[1..]);
      assert (set id | id in order) == {order[0]} + set id | id in order[1..];
    } else {
      assert (set id | id in order) == {};
    }
  }

  /** A loop that failed, tried again to its end, leaves what a single complete one would. */
  lemma {:induction false} LoopRetried(w: World, w1: World, w2: World, id: string, params: map<Key, string>)
    requires WroteSome(w, w1, id, params) && WroteAll(w1, w2, id, params)
    ensures w2.vms == WithConfig(w.vms, id, params)
  {
    var done := KeysSince(w1.log, |w.log|);
    assert Only(params, params.Keys) == params;
    if id in w.vms {
      assert w.vms[id].config + Only(params, done) + params == w.vms[id].config + params;
      assert w.vms[id := w1.vms[id]][id := w2.vms[id]] == w.vms[id := w2.vms[id]];
    }
  }
}
