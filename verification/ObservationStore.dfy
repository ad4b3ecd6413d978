/** The store of recent observations: what a bounded, recency-ordered dictionary holds after any history of use. */
module ObservationStore {
  import opened Common

  type Id(!new, ==)
  type Metadata(!new, ==)
  type Data(!new, ==)

  /** An observation; everything but its data is metadata. */
  datatype Observation = Observation(id: Option<Id>, metadata: Metadata, data: Data)

  /** An insertion-ordered dictionary: its keys from the oldest to the newest, and their values. */
  datatype Items = Items(keys: seq<Id>, values: map<Id, Observation>)

  predicate Distinct(keys: seq<Id>) {
    forall i, j :: 0 <= i < j < |keys| ==> keys[i] != keys[j]
  }

  ghost predicate Valid(items: Items) {
    Distinct(items.keys) && forall id :: id in items.keys <==> id in items.values
  }

  // ----- the operations -----

  function Remove(keys: seq<Id>, id: Id): seq<Id> {
    if keys == [] then [] else if keys[0] == id then keys[1..] else [keys[0]] + Remove(keys[1..], id)
  }

  /** The last `n` of a sequence. */
  function Last<T>(s: seq<T>, n: nat): seq<T> {
    if |s| <= n then s else s[|s| - n..]
  }

  function Moved(keys: seq<Id>, id: Id): seq<Id> {
    Remove(keys, id) + [id]
  }

  /** Dropping the oldest entries until at most `maximum` are left. */
  function Trimmed(items: Items, maximum: nat): Items
    requires Valid(items)
    decreases |items.keys|
  {
    if |items.keys| <= maximum then items
    else
      PopKeepsValid(items);
      Trimmed(Items(items.keys[1..], items.values - {items.keys[0]}), maximum)
  }

  lemma PopKeepsValid(items: Items)
    requires Valid(items) && items.keys != []
    ensures Valid(Items(items.keys[1..], items.values - {items.keys[0]}))
  {
    var keys := items.keys;
    assert forall id :: id in keys <==> id == keys[0] || id in keys[1..];
  }

  lemma {:induction false} RemoveContents(keys: seq<Id>, id: Id)
    requires Distinct(keys)
    ensures Distinct(Remove(keys, id))
    ensures forall k :: k in Remove(keys, id) <==> k in keys && k != id
  {
    if keys != [] {
      var rest := Remove(keys[1..], id);
      RemoveContents(keys[1..], id);
      assert forall k :: k in keys <==> k == keys[0] || k in keys[1..];
      assert keys[0] !in keys[1..];
      forall i | 0 <= i < |rest| ensures rest[i] != keys[0] {
        assert rest[i] in rest;
      }
    }
  }

  lemma MoveContents(keys: seq<Id>, id: Id)
    requires Distinct(keys)
    ensures Distinct(Moved(keys, id))
    ensures forall k :: k in Moved(keys, id) <==> k in keys || k == id
  {
    var rest := Remove(keys, id);
    RemoveContents(keys, id);
    forall i | 0 <= i < |rest| ensures rest[i] != id {
      assert rest[i] in rest;
    }
  }

  /** After storing an observation: it is the newest entry, and the oldest ones give way. */
  function Stored(items: Items, maximum: nat, id: Id, observation: Observation): Items
    requires Valid(items)
  {
    MoveContents(items.keys, id);
    Trimmed(Items(Moved(items.keys, id), items.values[id := observation]), maximum)
  }

  /** After a look-up: what was found is the newest entry. */
  function Touched(items: Items, id: Id): Items {
    if id in items.values then items.(keys := Moved(items.keys, id)) else items
  }

  class Store {
    const maximum: nat
    var keys: seq<Id>
    var values: map<Id, Observation>

    constructor (maximum: nat)
      ensures this.maximum == maximum && View() == Items([], map[]) && Valid(View())
    {
      this.maximum, keys, values := maximum, [], map[];
    }

    function View(): Items
      reads this
    {
      Items(keys, values)
    }

    method Put(observation: Observation) returns (r: Result<Observation, ()>)
      requires Valid(View())
      modifies this
      ensures Valid(View())
      ensures r == if observation.id.Some? then Ok(observation) else Err(())
      ensures View() == if observation.id.Some? then Stored(old(View()), maximum, observation.id.value, observation)
                        else old(View())
    {
      if observation.id.None? { return Err(()); }
      var id := observation.id.value;
      MoveContents(keys, id);
      RemoveAbsent(keys, id);
      AppendedThenMoved(keys, id);
      if id !in values {
        keys := keys + [id];
      }
      values := values[id := observation];
      keys := Moved(keys, id);
      while |keys| > maximum
        invariant Valid(View())
        invariant Trimmed(View(), maximum) == Stored(old(View()), maximum, id, observation)
        decreases |keys|
      {
        PopKeepsValid(View());
        values := values - {keys[0]};
        keys := keys[1..];
      }
      r := Ok(observation);
    }

    method Get(id: Id) returns (r: Option<Observation>)
      requires Valid(View())
      modifies this
      ensures Valid(View()) && View() == Touched(old(View()), id)
      ensures r == if id in old(values) then Some(old(values)[id]) else None
    {
      if id !in values { return None; }
      r := Some(values[id]);
      MoveContents(keys, id);
      keys := Moved(keys, id);
    }

    /** The metadata of all observations, the most recent first. */
    method ListMetadata() returns (metadata: seq<Metadata>)
      requires Valid(View())
      ensures |metadata| == |keys|
      ensures forall i :: 0 <= i < |keys| ==> keys[|keys| - 1 - i] in values && metadata[i] == values[keys[|keys| - 1 - i]].metadata
    {
      metadata := [];
      var i := |keys|;
      while i > 0
        invariant 0 <= i <= |keys| && |metadata| == |keys| - i
        invariant forall j :: 0 <= j < |metadata| ==> keys[|keys| - 1 - j] in values && metadata[j] == values[keys[|keys| - 1 - j]].metadata
      {
        i := i - 1;
        assert keys[i] in keys;
        metadata := metadata + [values[keys[i]].metadata];
      }
    }
  }

  lemma {:induction false} RemoveAbsent(keys: seq<Id>, id: Id)
    ensures id !in keys ==> Remove(keys, id) == keys && Remove(keys + [id], id) == keys
    decreases |keys|
  {
    if keys == [] {
      assert (keys + [id])[1..] == [];
    } else if id !in keys {
      assert forall k :: k in keys[1..] ==> k in keys;
      RemoveAbsent(keys[1..], id);
      assert (keys + [id])[1..] == keys[1..] + [id];
    }
  }

  /** Appending a new key and then moving it to the end is appending it. */
  lemma AppendedThenMoved(keys: seq<Id>, id: Id)
    ensures id !in keys ==> Moved(keys + [id], id) == Moved(keys, id)
  {
    RemoveAbsent(keys, id);
  }

  /** Trimming keeps the newest keys, with their values. */
  lemma {:induction false} TrimKeepsNewest(items: Items, maximum: nat)
    requires Valid(items)
    ensures var t := Trimmed(items, maximum);
            && Valid(t) && t.keys == Last(items.keys, maximum)
            && forall id :: id in t.values ==> id in items.values && t.values[id] == items.values[id]
    decreases |items.keys|
  {
    if |items.keys| > maximum {
      var next := Items(items.keys[1..], items.values - {items.keys[0]});
      PopKeepsValid(items);
      TrimKeepsNewest(next, maximum);
      assert Last(items.keys[1..], maximum) == Last(items.keys, maximum);
    }
  }

  // ----- the history -----

  datatype Op = Put(id: Id, observation: Observation) | Get(id: Id)

  ghost function Apply(items: Items, maximum: nat, op: Op): (now: Items)
    requires Valid(items)
    ensures Valid(now)
  {
    MoveContents(items.keys, op.id);
    match op
    case Put(id, observation) =>
      TrimKeepsNewest(Items(Moved(items.keys, id), items.values[id := observation]), maximum);
      Stored(items, maximum, id, observation)
    case Get(id) => Touched(items, id)
  }

  /** The store after a history that began with an empty one. */
  ghost function Run(history: seq<Op>, maximum: nat): (items: Items)
    ensures Valid(items)
  {
    if history == [] then Items([], map[])
    else Apply(Run(history[..|history| - 1], maximum), maximum, history[|history| - 1])
  }

  /** The different ids used after the last use of `id`. */
  ghost function UsedAfter(uses: seq<Id>, id: Id): set<Id> {
    if uses == [] then {}
    else
      var last := uses[|uses| - 1];
      if last == id then {} else UsedAfter(uses[..|uses| - 1], id) + {last}
  }

  /** An id is kept while fewer than `maximum` others have been used since. */
  ghost predicate Kept(uses: seq<Id>, id: Id, maximum: nat) {
    id in uses && |UsedAfter(uses, id)| < maximum
  }

  /** The uses in a history: every put, and every get of an id that is kept. */
  ghost function Uses(history: seq<Op>, maximum: nat): seq<Id> {
    if history == [] then []
    else
      var before, op := Uses(history[..|history| - 1], maximum), history[|history| - 1];
      if op.Put? || Kept(before, op.id, maximum) then before + [op.id] else before
  }

  /** What was last put under an id. */
  ghost function Latest(history: seq<Op>, id: Id): Option<Observation> {
    if history == [] then None
    else
      var op := history[|history| - 1];
      if op.Put? && op.id == id then Some(op.observation) else Latest(history[..|history| - 1], id)
  }

  // ----- an unbounded recency list -----

  ghost function Recency(uses: seq<Id>): seq<Id> {
    if uses == [] then [] else Moved(Recency(uses[..|uses| - 1]), uses[|uses| - 1])
  }

  ghost function Elements(keys: seq<Id>): set<Id> {
    set k | k in keys
  }

  lemma {:induction false} RecencyContents(uses: seq<Id>)
    ensures Distinct(Recency(uses)) && forall id :: id in Recency(uses) <==> id in uses
    decreases |uses|
  {
    if uses != [] {
      var before, last := uses[..|uses| - 1], uses[|uses| - 1];
      RecencyContents(before);
      MoveContents(Recency(before), last);
      assert uses == before + [last];
    }
  }

  lemma {:induction false} RemoveInTail(head: seq<Id>, tail: seq<Id>, id: Id)
    requires id !in head
    ensures Remove(head + tail, id) == head + Remove(tail, id)
    decreases |head|
  {
    if head == [] {
      assert head + tail == tail;
    } else {
      assert forall k :: k in head[1..] ==> k in head;
      RemoveInTail(head[1..], tail, id);
      assert (head + tail)[1..] == head[1..] + tail;
    }
  }

  lemma {:induction false} RemoveInHead(head: seq<Id>, tail: seq<Id>, id: Id)
    requires id in head
    ensures Remove(head + tail, id) == Remove(head, id) + tail
    decreases |head|
  {
    assert (head + tail)[1..] == head[1..] + tail;
    if head[0] != id {
      RemoveInHead(head[1..], tail, id);
    }
  }

  lemma {:induction false} DistinctSize(keys: seq<Id>)
    requires Distinct(keys)
    ensures |Elements(keys)| == |keys|
  {
    if keys != [] {
      DistinctSize(keys[1..]);
      assert Elements(keys) == {keys[0]} + Elements(keys[1..]);
    }
  }

  /** The ids behind `id` in a list. */
  ghost function Behind(keys: seq<Id>, id: Id): set<Id> {
    if keys == [] then {} else if keys[0] == id then Elements(keys[1..]) else Behind(keys[1..], id)
  }

  lemma {:induction false} BehindAppend(keys: seq<Id>, id: Id, last: Id)
    ensures Behind(keys + [last], id) == if id in keys then Behind(keys, id) + {last} else {}
    decreases |keys|
  {
    if keys == [] {
      assert (keys + [last])[1..] == [];
    } else {
      BehindAppend(keys[1..], id, last);
      assert (keys + [last])[1..] == keys[1..] + [last];
      assert Elements(keys[1..] + [last]) == Elements(keys[1..]) + {last};
    }
  }

  lemma {:induction false} BehindRemove(keys: seq<Id>, id: Id, other: Id)
    requires Distinct(keys) && id != other
    ensures Behind(Remove(keys, other), id) == Behind(keys, id) - {other}
    decreases |keys|
  {
    if keys != [] {
      BehindRemove(keys[1..], id, other);
      RemoveContents(keys[1..], other);
      BehindIsBehind(keys[1..], id);
      if keys[0] == id {
        assert Remove(keys, other)[1..] == Remove(keys[1..], other);
      } else if keys[0] != other {
        assert Remove(keys, other)[1..] == Remove(keys[1..], other);
      }
    }
  }

  lemma {:induction false} BehindIsBehind(keys: seq<Id>, id: Id)
    ensures Behind(keys, id) <= Elements(keys)
  {
    if keys != [] { BehindIsBehind(keys[1..], id); }
  }

  /** Behind an id in the recency list are the ids used after it. */
  lemma {:induction false} BehindInRecency(uses: seq<Id>, id: Id)
    requires id in uses
    ensures Behind(Recency(uses), id) == UsedAfter(uses, id)
    decreases |uses|
  {
    var before, last := uses[..|uses| - 1], uses[|uses| - 1];
    var earlier := Recency(before);
    assert uses == before + [last];
    RecencyContents(before);
    RemoveContents(earlier, last);
    BehindAppend(Remove(earlier, last), id, last);
    if id != last {
      BehindInRecency(before, id);
      BehindRemove(earlier, id, last);
    }
  }

  /** A position near the end of a list, by how many are behind it. */
  lemma {:induction false} NearTheEnd(keys: seq<Id>, id: Id, n: nat)
    requires Distinct(keys) && id in keys
    ensures id in Last(keys, n) <==> |Behind(keys, id)| < n
    decreases |keys|
  {
    if keys[0] == id {
      DistinctSize(keys[1..]);
    } else {
      NearTheEnd(keys[1..], id, n);
      if |keys| <= n {
        assert |keys[1..]| <= n && Last(keys[1..], n) == keys[1..];
      } else {
        assert Last(keys, n) == Last(keys[1..], n);
      }
    }
  }

  lemma LastOfAppend(head: seq<Id>, tail: seq<Id>, n: nat)
    requires head == [] || n <= |tail|
    ensures Last(head + tail, n) == Last(tail, n)
  {
    if head == [] { assert head + tail == tail; }
  }

  /** Moving in the bounded list is moving in the unbounded one and then forgetting the rest. */
  lemma MoveCommutes(keys: seq<Id>, id: Id, n: nat)
    requires Distinct(keys)
    ensures Last(Moved(Last(keys, n), id), n) == Last(Moved(keys, id), n)
    ensures id in Last(keys, n) ==> Moved(Last(keys, n), id) == Last(Moved(keys, id), n)
  {
    var tail := Last(keys, n);
    var head := keys[..|keys| - |tail|];
    assert head + tail == keys;
    if id in tail {
      MoveInTail(head, tail, id, n);
    } else {
      MoveOthers(head, tail, id, n);
    }
  }

  lemma MoveInTail(head: seq<Id>, tail: seq<Id>, id: Id, n: nat)
    requires Distinct(head + tail) && id in tail && |tail| <= n && (head == [] || |tail| == n)
    ensures Last(Moved(head + tail, id), n) == Moved(tail, id) == Last(Moved(tail, id), n)
  {
    var k :| 0 <= k < |tail| && tail[k] == id;
    assert (head + tail)[|head| + k] == id;
    assert forall i :: 0 <= i < |head| ==> (head + tail)[i] == head[i];
    RemoveInTail(head, tail, id);
    RemoveSize(tail, id);
    assert Moved(head + tail, id) == head + Moved(tail, id);
    LastOfAppend(head, Moved(tail, id), n);
  }

  lemma MoveOthers(head: seq<Id>, tail: seq<Id>, id: Id, n: nat)
    requires id !in tail && |tail| <= n && (head == [] || |tail| == n)
    ensures Last(Moved(head + tail, id), n) == Last(Moved(tail, id), n)
  {
    RemoveAbsent(tail, id);
    if id in head {
      RemoveInHead(head, tail, id);
      assert Moved(head + tail, id) == Remove(head, id) + Moved(tail, id);
      LastOfAppend(Remove(head, id), Moved(tail, id), n);
    } else {
      RemoveInTail(head, tail, id);
      assert Moved(head + tail, id) == head + Moved(tail, id);
      LastOfAppend(head, Moved(tail, id), n);
    }
  }

  lemma {:induction false} RemoveSize(keys: seq<Id>, id: Id)
    requires id in keys
    ensures |Remove(keys, id)| == |keys| - 1
  {
    if keys[0] != id { RemoveSize(keys[1..], id); }
  }

  // ----- what the store holds -----

  lemma KeptIsNewest(uses: seq<Id>, id: Id, maximum: nat)
    ensures id in Last(Recency(uses), maximum) <==> Kept(uses, id, maximum)
  {
    RecencyContents(uses);
    if id in uses {
      BehindInRecency(uses, id);
      NearTheEnd(Recency(uses), id, maximum);
    }
  }

  /** After any history, the keys are the `maximum` most recently used ones, in that order. */
  lemma {:induction false} KeysAreMostRecent(history: seq<Op>, maximum: nat)
    ensures Run(history, maximum).keys == Last(Recency(Uses(history, maximum)), maximum)
    decreases |history|
  {
    if history != [] {
      var before, op := history[..|history| - 1], history[|history| - 1];
      var uses, items := Uses(before, maximum), Run(before, maximum);
      KeysAreMostRecent(before, maximum);
      RecencyContents(uses);
      MoveCommutes(Recency(uses), op.id, maximum);
      KeptIsNewest(uses, op.id, maximum);
      MoveContents(items.keys, op.id);
      if op.Put? {
        TrimKeepsNewest(Items(Moved(items.keys, op.id), items.values[op.id := op.observation]), maximum);
      }
      assert (uses + [op.id])[..|uses|] == uses;
    }
  }

  lemma {:induction false} ValuesAreLatest(history: seq<Op>, maximum: nat)
    ensures var items := Run(history, maximum);
            forall id :: id in items.values ==> Latest(history, id) == Some(items.values[id])
    decreases |history|
  {
    if history != [] {
      var before, op := history[..|history| - 1], history[|history| - 1];
      var items := Run(before, maximum);
      ValuesAreLatest(before, maximum);
      MoveContents(items.keys, op.id);
      if op.Put? {
        TrimKeepsNewest(Items(Moved(items.keys, op.id), items.values[op.id := op.observation]), maximum);
      }
    }
  }

  /** A look-up after any history: the latest value while fewer than `maximum` other ids were used since, otherwise nothing. */
  lemma LookUpFollowsHistory(history: seq<Op>, maximum: nat, id: Id)
    ensures var items := Run(history, maximum);
            (if id in items.values then Some(items.values[id]) else None)
            == if Kept(Uses(history, maximum), id, maximum) then Latest(history, id) else None
  {
    KeysAreMostRecent(history, maximum);
    ValuesAreLatest(history, maximum);
    KeptIsNewest(Uses(history, maximum), id, maximum);
  }
}
