/** Weighted sums over an append-only enumeration of records. The artifact
    repository keeps four running counters (reserved and used bytes per tenant,
    inflight and active references per object); each of them is one gauge read
    over the holdings listed in an order. */
module ArtifactLedger {
  import opened Common

  datatype Holding = Holding(tenant: Name, key: Name, size: int, live: bool)

  datatype Gauge = Bytes(tenant: Name) | References(key: Name)

  function Weight(held: Holding, gauge: Gauge): int {
    if !held.live then 0 else
    match gauge
    case Bytes(tenant) => if held.tenant == tenant then held.size else 0
    case References(key) => if held.key == key then 1 else 0
  }

  ghost predicate Distinct<T>(order: seq<T>) {
    forall i, j | 0 <= i < j < |order| :: order[i] != order[j]
  }

  /** The order lists every key of the map, and lists it once. */
  ghost predicate Enumerates<T>(order: seq<Name>, records: map<Name, T>) {
    && Distinct(order)
    && (forall id :: id in order <==> id in records)
  }

  ghost function Sum(order: seq<Name>, held: map<Name, Holding>, gauge: Gauge): int {
    if order == [] then 0 else
    var last := order[|order| - 1];
    Sum(order[..|order| - 1], held, gauge) + (if last in held then Weight(held[last], gauge) else 0)
  }

  /** Recording a holding under a fresh identifier adds exactly its weight. */
  lemma {:induction false} SumAppend(order: seq<Name>, held: map<Name, Holding>, id: Name, added: Holding, gauge: Gauge)
    requires id !in order
    ensures Sum(order + [id], held[id := added], gauge) == Sum(order, held, gauge) + Weight(added, gauge)
  {
    assert (order + [id])[..|order|] == order;
    SumFrame(order, held, id, added, gauge);
  }

  lemma {:induction false} SumFrame(order: seq<Name>, held: map<Name, Holding>, id: Name, next: Holding, gauge: Gauge)
    requires id !in order
    ensures Sum(order, held[id := next], gauge) == Sum(order, held, gauge)
  {
    if order != [] {
      SumFrame(order[..|order| - 1], held, id, next, gauge);
    }
  }

  /** Replacing one listed holding moves the sum by the difference of the two weights. */
  lemma {:induction false} SumReplace(order: seq<Name>, held: map<Name, Holding>, id: Name, next: Holding, gauge: Gauge)
    requires Distinct(order) && id in order && id in held
    ensures Sum(order, held[id := next], gauge)
         == Sum(order, held, gauge) - Weight(held[id], gauge) + Weight(next, gauge)
  {
    var prefix := order[..|order| - 1];
    if order[|order| - 1] == id {
      SumFrame(prefix, held, id, next, gauge);
    } else {
      SumReplace(prefix, held, id, next, gauge);
    }
  }

  /** With no negative size, the sum bounds each weight it contains. */
  lemma {:induction false} SumBounds(order: seq<Name>, held: map<Name, Holding>, gauge: Gauge)
    requires forall id | id in held :: 0 <= held[id].size
    ensures 0 <= Sum(order, held, gauge)
    ensures forall id | id in order && id in held :: Weight(held[id], gauge) <= Sum(order, held, gauge)
  {
    if order != [] {
      SumBounds(order[..|order| - 1], held, gauge);
    }
  }

  // ----- running counters -----

  function Reading(bytes: map<Name, int>, references: map<Name, int>, gauge: Gauge): int {
    match gauge
    case Bytes(tenant) => At(bytes, tenant)
    case References(key) => At(references, key)
  }

  /** The two running counters equal the sums they stand for, on every gauge. */
  ghost predicate Balanced(order: seq<Name>, held: map<Name, Holding>, bytes: map<Name, int>,
                           references: map<Name, int>) {
    && Enumerates(order, held)
    && (forall id | id in held :: 0 <= held[id].size)
    && (forall gauge :: Reading(bytes, references, gauge) == Sum(order, held, gauge))
  }

  lemma EnumerateMore(order: seq<Name>, held: map<Name, Holding>, id: Name, added: Holding)
    requires Enumerates(order, held) && id !in held
    ensures Enumerates(order + [id], held[id := added])
  {
  }

  lemma Opened(order: seq<Name>, held: map<Name, Holding>, bytes: map<Name, int>, references: map<Name, int>,
               id: Name, added: Holding)
    requires Balanced(order, held, bytes, references)
    requires id !in held && added.live && 0 <= added.size
    ensures Balanced(order + [id], held[id := added],
                     Bump(bytes, added.tenant, added.size), Bump(references, added.key, 1))
  {
    hide Sum;
    EnumerateMore(order, held, id, added);
    forall gauge
      ensures Reading(Bump(bytes, added.tenant, added.size), Bump(references, added.key, 1), gauge)
           == Sum(order + [id], held[id := added], gauge)
    {
      SumAppend(order, held, id, added, gauge);
    }
  }

  lemma Closed(order: seq<Name>, held: map<Name, Holding>, bytes: map<Name, int>, references: map<Name, int>,
               id: Name)
    requires Balanced(order, held, bytes, references)
    requires id in held && held[id].live
    ensures Balanced(order, held[id := held[id].(live := false)],
                     Bump(bytes, held[id].tenant, -held[id].size), Bump(references, held[id].key, -1))
  {
    hide Sum;
    var was := held[id];
    var spent := was.(live := false);
    var lessBytes, lessReferences := Bump(bytes, was.tenant, -was.size), Bump(references, was.key, -1);
    forall gauge ensures Reading(lessBytes, lessReferences, gauge) == Sum(order, held[id := spent], gauge) {
      SumReplace(order, held, id, spent, gauge);
    }
  }

  /** Counters are never negative, and a live holding is counted at its object:
      a zero counter therefore means that nothing refers to the object. */
  lemma Counted(order: seq<Name>, held: map<Name, Holding>, bytes: map<Name, int>, references: map<Name, int>)
    requires Balanced(order, held, bytes, references)
    ensures forall key :: 0 <= At(references, key)
    ensures forall tenant :: 0 <= At(bytes, tenant)
    ensures forall id | id in held && held[id].live :: 0 < At(references, held[id].key)
    ensures forall id | id in held && held[id].live :: held[id].size <= At(bytes, held[id].tenant)
  {
    hide Sum;
    forall key ensures 0 <= At(references, key) {
      SumBounds(order, held, References(key));
      assert Reading(bytes, references, References(key)) == At(references, key);
    }
    forall tenant ensures 0 <= At(bytes, tenant) {
      SumBounds(order, held, Bytes(tenant));
      assert Reading(bytes, references, Bytes(tenant)) == At(bytes, tenant);
    }
    forall id | id in held && held[id].live
      ensures 0 < At(references, held[id].key) && held[id].size <= At(bytes, held[id].tenant)
    {
      SumBounds(order, held, References(held[id].key));
      SumBounds(order, held, Bytes(held[id].tenant));
      assert Reading(bytes, references, References(held[id].key)) == At(references, held[id].key);
      assert Reading(bytes, references, Bytes(held[id].tenant)) == At(bytes, held[id].tenant);
    }
  }
}
