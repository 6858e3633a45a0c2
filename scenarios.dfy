/**
 * Request sequences a client of the service performs, as its Python tests do: what a later
 * request sees of an earlier one.
 */
module Scenarios {
  import opened Models
  import opened Storage
  import opened Api

  /** A record that was just created is returned by a get on its id. */
  method CreateThenGet(store: MemoryStore, body: Body<CreateRequest>, freshId: string, now: Time)
    returns (created: Response, got: Response)
    modifies store
    requires BindCreate(body).Success? && freshId !in store.visualizations
    ensures created.status == StatusCreated && got.status == StatusOK
    ensures got.body == created.body == RecordBody(NewVisualization(body.value, freshId, now))
  {
    created := CreateVisualization(store, body, freshId, now);
    got := GetVisualization(store, freshId);
  }

  /** After a delete, the id is gone: a get and a second delete both answer 404. */
  method DeleteThenGet(store: MemoryStore, id: string)
    returns (deleted: Response, got: Response, again: Response)
    modifies store
    requires id in store.visualizations
    ensures deleted == Response(StatusOK, DeletedBody(DeletedMessage, id))
    ensures got == Response(StatusNotFound, ErrorBody(Message(NotFoundMessage)))
    ensures again == Response(StatusNotFound, ErrorBody(Message(NotFoundMessage)))
  {
    deleted := DeleteVisualization(store, id);
    got := GetVisualization(store, id);
    again := DeleteVisualization(store, id);
  }

  /**
   * An update that sets only some fields: a later get shows those fields replaced, every
   * other field as it was, the same id and created_at, and updated_at the update's time.
   */
  method UpdateThenGet(store: MemoryStore, id: string, req: UpdateRequest, now: Time)
    returns (updated: Response, got: Response)
    modifies store
    requires id in store.visualizations
    ensures updated.status == StatusOK && got == updated
    ensures got.body.RecordBody?
    ensures got.body.record.id == old(store.visualizations[id].id)
    ensures got.body.record.createdAt == old(store.visualizations[id].createdAt)
    ensures got.body.record.updatedAt == now
    ensures forall f: Field :: f.IsMutable() && req.Get(f).IsEmpty() ==>
              got.body.record.Get(f) == old(store.visualizations[id].Get(f))
    ensures forall f: Field :: f.IsMutable() && !req.Get(f).IsEmpty() ==>
              got.body.record.Get(f) == req.Get(f)
  {
    ghost var before := store.visualizations[id];
    updated := UpdateVisualization(store, id, Decoded(req), now);
    got := GetVisualization(store, id);
    forall f: Field | f.IsMutable() {
      MergeField(before, req, now, f);
    }
  }

  /** The list answer counts every record, including one just created. */
  method CreateThenList(store: MemoryStore, body: Body<CreateRequest>, freshId: string, now: Time)
    returns (listed: Response)
    modifies store
    requires BindCreate(body).Success? && freshId !in store.visualizations
    ensures listed.status == StatusOK && listed.body.ListBody?
    ensures listed.body.count == old(|store.visualizations|) + 1
    ensures NewVisualization(body.value, freshId, now) in listed.body.visualizations
  {
    var created := CreateVisualization(store, body, freshId, now);
    listed := GetVisualizations(store);
    ListsEveryRecord(store.visualizations, listed.body.visualizations);
    assert store.visualizations[freshId] == NewVisualization(body.value, freshId, now);
  }
}
