/**
 * The HTTP handlers of the gallery service: how a request and the store's answer become a
 * status code and a response body. The clock and the id generator are parameters (`now`,
 * `freshId`); a request body arrives already decoded, or as Malformed.
 */
module Api {
  import opened Wrappers
  import opened Models
  import opened Storage

  const StatusOK := 200
  const StatusCreated := 201
  const StatusBadRequest := 400
  const StatusNotFound := 404
  const StatusInternalServerError := 500

  const NotFoundMessage := "Visualization not found"
  const DeletedMessage := "Visualization deleted successfully"
  const Healthy := "healthy"

  /** What an `{"error": ...}` body carries: a fixed text, or the binder's own error. */
  datatype ErrorCause = Message(text: string) | BindFailure(bind: BindError)

  datatype ResponseBody =
    | RecordBody(record: Visualization)
    | ListBody(visualizations: seq<Visualization>, count: int)
    | DeletedBody(message: string, id: string)
    | ErrorBody(error: ErrorCause)
    | HealthBody(status: string, time: Time)

  datatype Response = Response(status: int, body: ResponseBody)

  // ---------------------------------------------------------------- record construction

  /** The record a create request makes: a fresh id, both timestamps `now`, every field copied. */
  function NewVisualization(req: CreateRequest, id: string, now: Time): (v: Visualization)
    ensures v.id == id && v.createdAt == now && v.updatedAt == now
    ensures forall f: Field :: f.IsMutable() ==> v.Get(f) == req.Get(f)
  {
    Visualization(
      id, req.agentName, req.description, req.imageData, now, now,
      req.reasoning, req.tags, req.formType, req.philosophy, req.evolutionStory, req.versionHistory,
      req.currentMood, req.activeGoals, req.recentThoughts,
      req.capabilities, req.specializations, req.limitations,
      req.inspirationSources, req.influences, req.aspirations)
  }

  // ---------------------------------------------------------------- the update merge

  /** A string field of the request wins only when it is not "". */
  function KeepString(current: string, requested: string): string {
    if requested != "" then requested else current
  }

  /** A list field of the request wins only when it is non-nil and has an element. */
  function KeepSlice<T>(current: Slice<T>, requested: Slice<T>): Slice<T> {
    if requested.Made? && requested.Len() > 0 then requested else current
  }

  /**
   * The record an update request leaves: each field the request sets to a non-empty value
   * is replaced, every other field is kept, and updated_at becomes `now`.
   */
  function Merge(existing: Visualization, req: UpdateRequest, now: Time): (r: Visualization)
    ensures r.id == existing.id && r.createdAt == existing.createdAt && r.updatedAt == now
  {
    existing.(
      agentName := KeepString(existing.agentName, req.agentName),
      description := KeepString(existing.description, req.description),
      imageData := KeepString(existing.imageData, req.imageData),
      reasoning := KeepString(existing.reasoning, req.reasoning),
      tags := KeepSlice(existing.tags, req.tags),
      formType := KeepString(existing.formType, req.formType),
      philosophy := KeepString(existing.philosophy, req.philosophy),
      evolutionStory := KeepString(existing.evolutionStory, req.evolutionStory),
      versionHistory := KeepSlice(existing.versionHistory, req.versionHistory),
      currentMood := KeepString(existing.currentMood, req.currentMood),
      activeGoals := KeepSlice(existing.activeGoals, req.activeGoals),
      recentThoughts := KeepString(existing.recentThoughts, req.recentThoughts),
      capabilities := KeepSlice(existing.capabilities, req.capabilities),
      specializations := KeepSlice(existing.specializations, req.specializations),
      limitations := KeepSlice(existing.limitations, req.limitations),
      inspirationSources := KeepSlice(existing.inspirationSources, req.inspirationSources),
      influences := KeepSlice(existing.influences, req.influences),
      aspirations := KeepSlice(existing.aspirations, req.aspirations),
      updatedAt := now)
  }

  /** Field by field: the request's value if it is non-empty, the existing one otherwise. */
  lemma MergeField(existing: Visualization, req: UpdateRequest, now: Time, f: Field)
    requires f.IsMutable()
    ensures Merge(existing, req, now).Get(f) ==
              if req.Get(f).IsEmpty() then existing.Get(f) else req.Get(f)
  {
  }

  /** One block of the update handler's assignments: agent_name, description and image_data. */
  method UpdateBasics(existing: Visualization, req: UpdateRequest) returns (updated: Visualization)
    ensures updated == existing.(
              agentName := KeepString(existing.agentName, req.agentName),
              description := KeepString(existing.description, req.description),
              imageData := KeepString(existing.imageData, req.imageData))
  {
    updated := existing;
    if req.agentName != "" {
      updated := updated.(agentName := req.agentName);
    }
    if req.description != "" {
      updated := updated.(description := req.description);
    }
    if req.imageData != "" {
      updated := updated.(imageData := req.imageData);
    }
  }

  /** One block of the update handler's assignments: the self-expression fields. */
  method UpdateSelfExpression(existing: Visualization, req: UpdateRequest) returns (updated: Visualization)
    ensures updated == existing.(
              reasoning := KeepString(existing.reasoning, req.reasoning),
              tags := KeepSlice(existing.tags, req.tags),
              formType := KeepString(existing.formType, req.formType),
              philosophy := KeepString(existing.philosophy, req.philosophy),
              evolutionStory := KeepString(existing.evolutionStory, req.evolutionStory),
              versionHistory := KeepSlice(existing.versionHistory, req.versionHistory))
  {
    updated := existing;
    if req.reasoning != "" {
      updated := updated.(reasoning := req.reasoning);
    }
    if req.tags.Made? && req.tags.Len() > 0 {
      updated := updated.(tags := req.tags);
    }
    if req.formType != "" {
      updated := updated.(formType := req.formType);
    }
    if req.philosophy != "" {
      updated := updated.(philosophy := req.philosophy);
    }
    if req.evolutionStory != "" {
      updated := updated.(evolutionStory := req.evolutionStory);
    }
    if req.versionHistory.Made? && req.versionHistory.Len() > 0 {
      updated := updated.(versionHistory := req.versionHistory);
    }
  }

  /** One block of the update handler's assignments: the current-state fields. */
  method UpdateCurrentState(existing: Visualization, req: UpdateRequest) returns (updated: Visualization)
    ensures updated == existing.(
              currentMood := KeepString(existing.currentMood, req.currentMood),
              activeGoals := KeepSlice(existing.activeGoals, req.activeGoals),
              recentThoughts := KeepString(existing.recentThoughts, req.recentThoughts))
  {
    updated := existing;
    if req.currentMood != "" {
      updated := updated.(currentMood := req.currentMood);
    }
    if req.activeGoals.Made? && req.activeGoals.Len() > 0 {
      updated := updated.(activeGoals := req.activeGoals);
    }
    if req.recentThoughts != "" {
      updated := updated.(recentThoughts := req.recentThoughts);
    }
  }

  /** One block of the update handler's assignments: the capability lists. */
  method UpdateCapabilities(existing: Visualization, req: UpdateRequest) returns (updated: Visualization)
    ensures updated == existing.(
              capabilities := KeepSlice(existing.capabilities, req.capabilities),
              specializations := KeepSlice(existing.specializations, req.specializations),
              limitations := KeepSlice(existing.limitations, req.limitations))
  {
    updated := existing;
    if req.capabilities.Made? && req.capabilities.Len() > 0 {
      updated := updated.(capabilities := req.capabilities);
    }
    if req.specializations.Made? && req.specializations.Len() > 0 {
      updated := updated.(specializations := req.specializations);
    }
    if req.limitations.Made? && req.limitations.Len() > 0 {
      updated := updated.(limitations := req.limitations);
    }
  }

  /** One block of the update handler's assignments: the context lists. */
  method UpdateContext(existing: Visualization, req: UpdateRequest) returns (updated: Visualization)
    ensures updated == existing.(
              inspirationSources := KeepSlice(existing.inspirationSources, req.inspirationSources),
              influences := KeepSlice(existing.influences, req.influences),
              aspirations := KeepSlice(existing.aspirations, req.aspirations))
  {
    updated := existing;
    if req.inspirationSources.Made? && req.inspirationSources.Len() > 0 {
      updated := updated.(inspirationSources := req.inspirationSources);
    }
    if req.influences.Made? && req.influences.Len() > 0 {
      updated := updated.(influences := req.influences);
    }
    if req.aspirations.Made? && req.aspirations.Len() > 0 {
      updated := updated.(aspirations := req.aspirations);
    }
  }

  /** The update handler's chain of field assignments on its copy of the stored record. */
  method ApplyUpdate(existing: Visualization, req: UpdateRequest, now: Time) returns (updated: Visualization)
    ensures updated == Merge(existing, req, now)
  {
    updated := UpdateBasics(existing, req);
    updated := UpdateSelfExpression(updated, req);
    updated := UpdateCurrentState(updated, req);
    updated := UpdateCapabilities(updated, req);
    updated := UpdateContext(updated, req);
    updated := updated.(updatedAt := now);
  }

  /** Applying the same update twice leaves what applying it once does, but for updated_at. */
  lemma MergeIdempotent(existing: Visualization, req: UpdateRequest, t1: Time, t2: Time)
    ensures Merge(Merge(existing, req, t1), req, t2) == Merge(existing, req, t2)
  {
  }

  /** An update request whose every field is empty changes nothing but updated_at. */
  lemma MergeEmptyRequest(existing: Visualization, req: UpdateRequest, now: Time)
    requires forall f: Field :: f.IsMutable() ==> req.Get(f).IsEmpty()
    ensures Merge(existing, req, now).updatedAt == now
    ensures forall f: Field :: f != UpdatedAt ==> Merge(existing, req, now).Get(f) == existing.Get(f)
  {
    forall f: Field | f != UpdatedAt
      ensures Merge(existing, req, now).Get(f) == existing.Get(f)
    {
      if f.IsMutable() {
        MergeField(existing, req, now, f);
      }
    }
  }

  /** An update can replace a field's value but never make a non-empty field empty. */
  lemma MergeNeverClears(existing: Visualization, req: UpdateRequest, now: Time, f: Field)
    requires f.IsMutable() && !existing.Get(f).IsEmpty()
    ensures !Merge(existing, req, now).Get(f).IsEmpty()
  {
    MergeField(existing, req, now, f);
  }

  // ---------------------------------------------------------------- handlers

  /** GET /visualizations: every stored record, with its count. */
  method GetVisualizations(store: MemoryStore) returns (resp: Response)
    ensures resp.status == StatusOK && resp.body.ListBody?
    ensures resp.body.count == |resp.body.visualizations| == |store.visualizations|
    ensures multiset(resp.body.visualizations) == Tally(store.visualizations)
  {
    var visualizations := store.GetAllVisualizations();
    ListsEveryRecord(store.visualizations, visualizations);
    resp := Response(StatusOK, ListBody(visualizations, |visualizations|));
  }

  /** GET /visualizations/:id: the stored record, or 404. */
  method GetVisualization(store: MemoryStore, id: string) returns (resp: Response)
    ensures id in store.visualizations ==>
              resp == Response(StatusOK, RecordBody(store.visualizations[id]))
    ensures id !in store.visualizations ==>
              resp == Response(StatusNotFound, ErrorBody(Message(NotFoundMessage)))
    ensures store.KeyedById() && resp.status == StatusOK ==>
              resp.body.RecordBody? && resp.body.record.id == id
  {
    var r := store.GetVisualization(id);
    match r
    case Failure(_) =>
      resp := Response(StatusNotFound, ErrorBody(Message(NotFoundMessage)));
    case Success(visualization) =>
      resp := Response(StatusOK, RecordBody(visualization));
  }

  /** POST /visualizations: bind, build the record, store it. */
  method CreateVisualization(store: MemoryStore, body: Body<CreateRequest>, freshId: string, now: Time)
    returns (resp: Response)
    modifies store
    ensures BindCreate(body).Failure? ==>
              resp == Response(StatusBadRequest, ErrorBody(BindFailure(BindCreate(body).error)))
              && store.visualizations == old(store.visualizations)
    ensures BindCreate(body).Success? && freshId in old(store.visualizations) ==>
              resp == Response(StatusInternalServerError, ErrorBody(Message(AlreadyExists.Text())))
              && store.visualizations == old(store.visualizations)
    ensures BindCreate(body).Success? && freshId !in old(store.visualizations) ==>
              var v := NewVisualization(body.value, freshId, now);
              resp == Response(StatusCreated, RecordBody(v))
              && store.visualizations == old(store.visualizations)[freshId := v]
    ensures old(store.KeyedById()) ==> store.KeyedById()
  {
    var bound := BindCreate(body);
    match bound
    case Failure(e) =>
      resp := Response(StatusBadRequest, ErrorBody(BindFailure(e)));
    case Success(req) =>
      var visualization := NewVisualization(req, freshId, now);
      var outcome := store.CreateVisualization(visualization);
      match outcome
      case Fail(err) =>
        resp := Response(StatusInternalServerError, ErrorBody(Message(err.Text())));
      case Pass =>
        resp := Response(StatusCreated, RecordBody(visualization));
  }

  /**
   * PUT /visualizations/:id: the id is looked up before the body is bound, so an unknown id
   * answers 404 whatever the body; then the merge is written back under the same id.
   */
  method UpdateVisualization(store: MemoryStore, id: string, body: Body<UpdateRequest>, now: Time)
    returns (resp: Response)
    modifies store
    ensures id !in old(store.visualizations) ==>
              resp == Response(StatusNotFound, ErrorBody(Message(NotFoundMessage)))
              && store.visualizations == old(store.visualizations)
    ensures id in old(store.visualizations) && body.Malformed? ==>
              resp == Response(StatusBadRequest, ErrorBody(BindFailure(SyntaxError)))
              && store.visualizations == old(store.visualizations)
    ensures id in old(store.visualizations) && body.Decoded? ==>
              var merged := Merge(old(store.visualizations)[id], body.value, now);
              resp == Response(StatusOK, RecordBody(merged))
              && store.visualizations == old(store.visualizations)[id := merged]
    ensures old(store.KeyedById()) ==> store.KeyedById()
    ensures old(store.KeyedById()) && resp.status == StatusOK ==>
              resp.body.RecordBody? && resp.body.record.id == id
  {
    var found := store.GetVisualization(id);
    if found.Failure? {
      return Response(StatusNotFound, ErrorBody(Message(NotFoundMessage)));
    }
    var existing := found.value;
    var bound := BindUpdate(body);
    if bound.Failure? {
      return Response(StatusBadRequest, ErrorBody(BindFailure(bound.error)));
    }
    var updated := ApplyUpdate(existing, bound.value, now);
    var outcome := store.UpdateVisualization(id, updated);
    match outcome
    case Fail(err) =>
      resp := Response(StatusInternalServerError, ErrorBody(Message(err.Text())));
    case Pass =>
      resp := Response(StatusOK, RecordBody(updated));
  }

  /** DELETE /visualizations/:id: 404 for an unknown id, else the message and the id. */
  method DeleteVisualization(store: MemoryStore, id: string) returns (resp: Response)
    modifies store
    ensures id !in old(store.visualizations) ==>
              resp == Response(StatusNotFound, ErrorBody(Message(NotFoundMessage)))
              && store.visualizations == old(store.visualizations)
    ensures id in old(store.visualizations) ==>
              resp == Response(StatusOK, DeletedBody(DeletedMessage, id))
              && store.visualizations == old(store.visualizations) - {id}
    ensures old(store.KeyedById()) ==> store.KeyedById()
  {
    var outcome := store.DeleteVisualization(id);
    match outcome
    case Fail(_) =>
      resp := Response(StatusNotFound, ErrorBody(Message(NotFoundMessage)));
    case Pass =>
      resp := Response(StatusOK, DeletedBody(DeletedMessage, id));
  }

  /** GET /health: always 200, with the status text and the current time. */
  function HealthCheck(now: Time): (resp: Response)
    ensures resp.status == StatusOK
    ensures resp.body.HealthBody? && resp.body.status == Healthy && resp.body.time == now
  {
    Response(StatusOK, HealthBody(Healthy, now))
  }
}
