/**
 * The in-memory record table of the gallery service: a map from id to record, with
 * create-if-absent, get, list, and the write-back and removal the handlers call.
 */
module Storage {
  import opened Wrappers
  import opened Models

  datatype StoreError = AlreadyExists | NotFound {
    function Text(): string {
      match this
      case AlreadyExists => "visualization with this ID already exists"
      case NotFound => "visualization not found"
    }
  }

  /** A store call that returns only an error (Go's `error`, nil on success). */
  datatype Outcome = Pass | Fail(error: StoreError)

  /** The records of a table, one per key; Go's map iteration order is not modelled. */
  ghost function Tally(m: map<string, Visualization>): multiset<Visualization>
    decreases |m|
  {
    if m == map[] then multiset{}
    else
      var k :| k in m;
      assert |m - {k}| < |m| by { MapRemoveSize(m, k); }
      Tally(m - {k}) + multiset{m[k]}
  }

  lemma MapRemoveSize(m: map<string, Visualization>, k: string)
    requires k in m
    ensures |m - {k}| == |m| - 1
  {
    assert (m - {k}).Keys == m.Keys - {k};
  }

  /** Tally does not depend on which key it takes apart first. */
  lemma {:induction false} TallyRemove(m: map<string, Visualization>, k: string)
    requires k in m
    ensures Tally(m) == Tally(m - {k}) + multiset{m[k]}
    decreases |m|
  {
    var j :| j in m && Tally(m) == Tally(m - {j}) + multiset{m[j]};
    if j != k {
      var rest := m - {j} - {k};
      assert m - {k} - {j} == rest;
      MapRemoveSize(m, j);
      MapRemoveSize(m, k);
      TallyRemove(m - {j}, k);
      TallyRemove(m - {k}, j);
      calc {
        Tally(m);
        Tally(m - {j}) + multiset{m[j]};
        Tally(rest) + multiset{m[k]} + multiset{m[j]};
        Tally(m - {k}) + multiset{m[k]};
      }
    }
  }

  /** Adding a record under a new key adds exactly that record to the tally. */
  lemma TallyAdd(m: map<string, Visualization>, k: string, v: Visualization)
    requires k !in m
    ensures Tally(m[k := v]) == Tally(m) + multiset{v}
  {
    TallyRemove(m[k := v], k);
    assert m[k := v] - {k} == m;
  }

  /** The tally has one element per key, and every stored record is in it. */
  lemma {:induction false} TallyShape(m: map<string, Visualization>)
    ensures |Tally(m)| == |m|
    ensures forall k :: k in m ==> m[k] in Tally(m)
    ensures forall v :: v in Tally(m) ==> v in m.Values
    decreases |m|
  {
    if m != map[] {
      var k :| k in m;
      TallyRemove(m, k);
      MapRemoveSize(m, k);
      TallyShape(m - {k});
      forall j | j in m ensures m[j] in Tally(m) {
        if j != k { assert j in m - {k}; }
      }
      forall v | v in Tally(m) ensures v in m.Values {
        if v != m[k] {
          assert v in Tally(m - {k});
          var j :| j in m - {k} && (m - {k})[j] == v;
          assert m[j] == v;
        }
      }
    }
  }

  /** A listing whose multiset is the tally has one entry per key and only stored records. */
  lemma ListsEveryRecord(m: map<string, Visualization>, listing: seq<Visualization>)
    requires multiset(listing) == Tally(m)
    ensures |listing| == |m|
    ensures forall id :: id in m ==> m[id] in listing
    ensures forall v :: v in listing ==> v in m.Values
  {
    TallyShape(m);
    assert |listing| == |multiset(listing)|;
    forall v | v in listing ensures v in m.Values {
      assert v in multiset(listing);
    }
    forall id | id in m ensures m[id] in listing {
      assert m[id] in multiset(listing);
    }
  }

  /** Taking one more pending key out of a walk over the table adds its record to the tally. */
  lemma TallyStep(m: map<string, Visualization>, pending: set<string>, id: string)
    requires pending <= m.Keys && id in pending
    ensures Tally(m - (pending - {id})) == Tally(m - pending) + multiset{m[id]}
  {
    var listed := m - pending;
    TallyAdd(listed, id, m[id]);
    assert m - (pending - {id}) == listed[id := m[id]];
  }

  class MemoryStore {
    var visualizations: map<string, Visualization>

    /** NewMemoryStore: a store with no records. */
    constructor ()
      ensures visualizations == map[]
    {
      visualizations := map[];
    }

    /** Every record is stored under its own id. */
    ghost predicate KeyedById()
      reads this
    {
      forall id :: id in visualizations ==> visualizations[id].id == id
    }

    /** Stores `v` under its id unless that id is already taken. */
    method CreateVisualization(v: Visualization) returns (outcome: Outcome)
      modifies this
      ensures v.id in old(visualizations) ==>
                outcome == Fail(AlreadyExists) && visualizations == old(visualizations)
      ensures v.id !in old(visualizations) ==>
                outcome == Pass && visualizations == old(visualizations)[v.id := v]
      ensures old(KeyedById()) ==> KeyedById()
    {
      if v.id in visualizations {
        return Fail(AlreadyExists);
      }
      visualizations := visualizations[v.id := v];
      return Pass;
    }

    /** The record stored under `id`, or NotFound. */
    method GetVisualization(id: string) returns (r: Result<Visualization, StoreError>)
      ensures r.Success? <==> id in visualizations
      ensures r.Success? ==> r.value == visualizations[id]
      ensures r.Failure? ==> r.error == NotFound
    {
      if id !in visualizations {
        return Failure(NotFound);
      }
      return Success(visualizations[id]);
    }

    /** Every stored record exactly once, in no particular order. */
    method GetAllVisualizations() returns (result: seq<Visualization>)
      ensures multiset(result) == Tally(visualizations)
    {
      result := [];
      var pending := visualizations.Keys;
      while pending != {}
        invariant pending <= visualizations.Keys
        invariant multiset(result) == Tally(visualizations - pending)
        decreases pending
      {
        var id :| id in pending;
        TallyStep(visualizations, pending, id);
        result := result + [visualizations[id]];
        pending := pending - {id};
      }
      assert visualizations - pending == visualizations;
    }

    /**
     * Writes `v` back under an existing `id`. backend/storage/memory.go defines no
     * UpdateVisualization; this contract is assumed from how the update handler uses it
     * (backend/api/handlers.go:167-170).
     */
    method UpdateVisualization(id: string, v: Visualization) returns (outcome: Outcome)
      modifies this
      ensures id !in old(visualizations) ==>
                outcome == Fail(NotFound) && visualizations == old(visualizations)
      ensures id in old(visualizations) ==>
                outcome == Pass && visualizations == old(visualizations)[id := v]
      ensures old(KeyedById()) && v.id == id ==> KeyedById()
    {
      if id !in visualizations {
        return Fail(NotFound);
      }
      visualizations := visualizations[id := v];
      return Pass;
    }

    /**
     * Removes the record under `id`, failing on an unknown id. backend/storage/memory.go
     * defines no DeleteVisualization; this contract is assumed from the delete handler
     * (backend/api/handlers.go:181-184) and the client's delete test
     * (sdk/tests/test_delete.py:55-81).
     */
    method DeleteVisualization(id: string) returns (outcome: Outcome)
      modifies this
      ensures id !in old(visualizations) ==>
                outcome == Fail(NotFound) && visualizations == old(visualizations)
      ensures id in old(visualizations) ==>
                outcome == Pass && visualizations == old(visualizations) - {id}
      ensures old(KeyedById()) ==> KeyedById()
    {
      if id !in visualizations {
        return Fail(NotFound);
      }
      visualizations := visualizations - {id};
      return Pass;
    }
  }
}
