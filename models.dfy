/**
 * The data shapes of the gallery service: the stored record (Visualization), its
 * version-history entry (VersionRecord) and the two request bodies, together with the
 * field-level rules their struct tags declare (JSON key, omitempty, binding:"required").
 */
module Models {
  import opened Wrappers

  /** An instant, as a count of nanoseconds from Go's zero time.Time (which is 0 here). */
  type Time = int

  const ZeroTime: Time := 0

  /** A Go slice: a nil slice and a non-nil empty slice are different values. */
  datatype Slice<T> = Nil | Made(elems: seq<T>) {
    function Len(): nat {
      if Nil? then 0 else |elems|
    }

    predicate IsEmpty() {
      Len() == 0
    }
  }

  /** One entry of a record's self-reported evolution. */
  datatype VersionRecord = VersionRecord(timestamp: Time, changes: string, reasoning: string)
  {
    /** An entry holds only a time and two strings, never a list. */
    function Get(f: EntryField): (val: Value)
      ensures val.Str? || val.Instant?
    {
      match f
      case EntryTimestamp => Instant(timestamp)
      case EntryChanges => Str(changes)
      case EntryReasoning => Str(reasoning)
    }
  }

  /** The names of VersionRecord's fields, in the order the struct declares them. */
  datatype EntryField = EntryTimestamp | EntryChanges | EntryReasoning
  {
    /** None of VersionRecord's tags carries omitempty. */
    predicate OmitEmpty() {
      false
    }

    function JsonKey(): string {
      match this
      case EntryTimestamp => "timestamp"
      case EntryChanges => "changes"
      case EntryReasoning => "reasoning"
    }
  }

  /** VersionRecord's fields in declaration order. */
  const VersionRecordFields: seq<EntryField> := [EntryTimestamp, EntryChanges, EntryReasoning]

  /** The names of Visualization's fields, in the order the struct declares them. */
  datatype Field =
    | Id | AgentName | Description | ImageData | CreatedAt | UpdatedAt
    | Reasoning | Tags | FormType | Philosophy | EvolutionStory | VersionHistory
    | CurrentMood | ActiveGoals | RecentThoughts
    | Capabilities | Specializations | Limitations
    | InspirationSources | Influences | Aspirations
  {
    /** The fields a request may set: all but the identity and the two timestamps. */
    predicate IsMutable() {
      !(Id? || CreatedAt? || UpdatedAt?)
    }

    /** The fields whose JSON tag carries omitempty on Visualization. */
    predicate OmitEmpty() {
      !(Id? || AgentName? || ImageData? || CreatedAt? || UpdatedAt?)
    }

    /** The fields CreateVisualizationRequest tags binding:"required". */
    predicate RequiredOnCreate() {
      AgentName? || ImageData?
    }

    /** The JSON key; the record and both request structs use the same names. */
    function JsonKey(): string {
      match this
      case Id => "id"
      case AgentName => "agent_name"
      case Description => "description"
      case ImageData => "image_data"
      case CreatedAt => "created_at"
      case UpdatedAt => "updated_at"
      case Reasoning => "reasoning"
      case Tags => "tags"
      case FormType => "form_type"
      case Philosophy => "philosophy"
      case EvolutionStory => "evolution_story"
      case VersionHistory => "version_history"
      case CurrentMood => "current_mood"
      case ActiveGoals => "active_goals"
      case RecentThoughts => "recent_thoughts"
      case Capabilities => "capabilities"
      case Specializations => "specializations"
      case Limitations => "limitations"
      case InspirationSources => "inspiration_sources"
      case Influences => "influences"
      case Aspirations => "aspirations"
    }
  }

  /** The value of one field, whatever its Go type. */
  datatype Value =
    | Str(str: string)
    | Strings(strs: Slice<string>)
    | Records(records: Slice<VersionRecord>)
    | Instant(instant: Time)
  {
    /** Go's notion of an empty value for omitempty: "", a nil or empty slice; a time.Time never is. */
    predicate IsEmpty() {
      match this
      case Str(s) => s == ""
      case Strings(ss) => ss.IsEmpty()
      case Records(rs) => rs.IsEmpty()
      case Instant(_) => false
    }
  }

  /** The stored record. */
  datatype Visualization = Visualization(
    id: string,
    agentName: string,
    description: string,
    imageData: string,
    createdAt: Time,
    updatedAt: Time,
    // self-expression
    reasoning: string,
    tags: Slice<string>,
    formType: string,
    philosophy: string,
    evolutionStory: string,
    versionHistory: Slice<VersionRecord>,
    // current state
    currentMood: string,
    activeGoals: Slice<string>,
    recentThoughts: string,
    // capabilities
    capabilities: Slice<string>,
    specializations: Slice<string>,
    limitations: Slice<string>,
    // context
    inspirationSources: Slice<string>,
    influences: Slice<string>,
    aspirations: Slice<string>)
  {
    function Get(f: Field): Value {
      match f
      case Id => Str(id)
      case AgentName => Str(agentName)
      case Description => Str(description)
      case ImageData => Str(imageData)
      case CreatedAt => Instant(createdAt)
      case UpdatedAt => Instant(updatedAt)
      case Reasoning => Str(reasoning)
      case Tags => Strings(tags)
      case FormType => Str(formType)
      case Philosophy => Str(philosophy)
      case EvolutionStory => Str(evolutionStory)
      case VersionHistory => Records(versionHistory)
      case CurrentMood => Str(currentMood)
      case ActiveGoals => Strings(activeGoals)
      case RecentThoughts => Str(recentThoughts)
      case Capabilities => Strings(capabilities)
      case Specializations => Strings(specializations)
      case Limitations => Strings(limitations)
      case InspirationSources => Strings(inspirationSources)
      case Influences => Strings(influences)
      case Aspirations => Strings(aspirations)
    }
  }

  /** The body of a create request, after JSON decoding. */
  datatype CreateRequest = CreateRequest(
    agentName: string,
    description: string,
    imageData: string,
    reasoning: string,
    tags: Slice<string>,
    formType: string,
    philosophy: string,
    evolutionStory: string,
    versionHistory: Slice<VersionRecord>,
    currentMood: string,
    activeGoals: Slice<string>,
    recentThoughts: string,
    capabilities: Slice<string>,
    specializations: Slice<string>,
    limitations: Slice<string>,
    inspirationSources: Slice<string>,
    influences: Slice<string>,
    aspirations: Slice<string>)
  {
    function Get(f: Field): Value
      requires f.IsMutable()
    {
      match f
      case AgentName => Str(agentName)
      case Description => Str(description)
      case ImageData => Str(imageData)
      case Reasoning => Str(reasoning)
      case Tags => Strings(tags)
      case FormType => Str(formType)
      case Philosophy => Str(philosophy)
      case EvolutionStory => Str(evolutionStory)
      case VersionHistory => Records(versionHistory)
      case CurrentMood => Str(currentMood)
      case ActiveGoals => Strings(activeGoals)
      case RecentThoughts => Str(recentThoughts)
      case Capabilities => Strings(capabilities)
      case Specializations => Strings(specializations)
      case Limitations => Strings(limitations)
      case InspirationSources => Strings(inspirationSources)
      case Influences => Strings(influences)
      case Aspirations => Strings(aspirations)
    }
  }

  /** The body of an update request, after JSON decoding; every field is optional. */
  datatype UpdateRequest = UpdateRequest(
    agentName: string,
    description: string,
    imageData: string,
    reasoning: string,
    tags: Slice<string>,
    formType: string,
    philosophy: string,
    evolutionStory: string,
    versionHistory: Slice<VersionRecord>,
    currentMood: string,
    activeGoals: Slice<string>,
    recentThoughts: string,
    capabilities: Slice<string>,
    specializations: Slice<string>,
    limitations: Slice<string>,
    inspirationSources: Slice<string>,
    influences: Slice<string>,
    aspirations: Slice<string>)
  {
    function Get(f: Field): Value
      requires f.IsMutable()
    {
      match f
      case AgentName => Str(agentName)
      case Description => Str(description)
      case ImageData => Str(imageData)
      case Reasoning => Str(reasoning)
      case Tags => Strings(tags)
      case FormType => Str(formType)
      case Philosophy => Str(philosophy)
      case EvolutionStory => Str(evolutionStory)
      case VersionHistory => Records(versionHistory)
      case CurrentMood => Str(currentMood)
      case ActiveGoals => Strings(activeGoals)
      case RecentThoughts => Str(recentThoughts)
      case Capabilities => Strings(capabilities)
      case Specializations => Strings(specializations)
      case Limitations => Strings(limitations)
      case InspirationSources => Strings(inspirationSources)
      case Influences => Strings(influences)
      case Aspirations => Strings(aspirations)
    }
  }

  /** Go's zero Visualization: every string "", every slice nil, both times the zero time. */
  const ZeroVisualization: Visualization := Visualization(
    "", "", "", "", ZeroTime, ZeroTime,
    "", Nil, "", "", "", Nil,
    "", Nil, "",
    Nil, Nil, Nil,
    Nil, Nil, Nil)

  /** Visualization's fields in declaration order. */
  const VisualizationFields: seq<Field> := [
    Id, AgentName, Description, ImageData, CreatedAt, UpdatedAt,
    Reasoning, Tags, FormType, Philosophy, EvolutionStory, VersionHistory,
    CurrentMood, ActiveGoals, RecentThoughts,
    Capabilities, Specializations, Limitations,
    InspirationSources, Influences, Aspirations]

  /** CreateVisualizationRequest's fields in declaration order. */
  const CreateRequestFields: seq<Field> := [
    AgentName, Description, ImageData,
    Reasoning, Tags, FormType, Philosophy, EvolutionStory, VersionHistory,
    CurrentMood, ActiveGoals, RecentThoughts,
    Capabilities, Specializations, Limitations,
    InspirationSources, Influences, Aspirations]

  /** UpdateVisualizationRequest's fields in declaration order. */
  const UpdateRequestFields: seq<Field> := [
    AgentName, Description, ImageData,
    Reasoning, Tags, FormType, Philosophy, EvolutionStory, VersionHistory,
    CurrentMood, ActiveGoals, RecentThoughts,
    Capabilities, Specializations, Limitations,
    InspirationSources, Influences, Aspirations]

  /**
   * The two request structs declare the same fields, and those are exactly the record's
   * fields other than id, created_at and updated_at.
   */
  lemma RequestFieldSets()
    ensures CreateRequestFields == UpdateRequestFields
    ensures forall f: Field :: f in VisualizationFields
    ensures forall f: Field :: f in CreateRequestFields <==> f.IsMutable()
    ensures forall f: Field :: f.RequiredOnCreate() ==> f.IsMutable() && !f.OmitEmpty()
  {
    forall f: Field ensures f in VisualizationFields {
      match f
      case Id => case AgentName => case Description => case ImageData =>
      case CreatedAt => case UpdatedAt => case Reasoning => case Tags =>
      case FormType => case Philosophy => case EvolutionStory => case VersionHistory =>
      case CurrentMood => case ActiveGoals => case RecentThoughts =>
      case Capabilities => case Specializations => case Limitations =>
      case InspirationSources => case Influences => case Aspirations =>
    }
  }

  /** A request body as the JSON binder sees it: not decodable, or decoded into the struct. */
  datatype Body<T> = Malformed | Decoded(value: T)

  datatype BindError =
    | SyntaxError                         // the body is not JSON of the request's shape
    | RequiredMissing(fields: seq<Field>) // binding:"required" fields left empty

  /** The required fields a decoded create request leaves empty, in declaration order. */
  function MissingRequired(req: CreateRequest): (missing: seq<Field>)
    ensures forall f :: f in missing <==> f.RequiredOnCreate() && req.Get(f).IsEmpty()
    ensures |missing| <= 2
  {
    (if req.agentName == "" then [AgentName] else [])
    + (if req.imageData == "" then [ImageData] else [])
  }

  /**
   * Binding a create request: decoding fails on a malformed body, then the validator
   * rejects an empty (or absent, which decodes to "") agent_name or image_data.
   * Nothing else is checked: image_data is not tested for being base64.
   */
  function BindCreate(body: Body<CreateRequest>): (r: Result<CreateRequest, BindError>)
    ensures r.Success? <==> body.Decoded? && body.value.agentName != "" && body.value.imageData != ""
    ensures r.Success? ==> r.value == body.value
    ensures body.Malformed? ==> r == Failure(SyntaxError)
    ensures body.Decoded? && r.Failure? ==>
      r.error.RequiredMissing? && r.error.fields != [] &&
      forall f :: f in r.error.fields <==> f.RequiredOnCreate() && body.value.Get(f).IsEmpty()
  {
    match body
    case Malformed => Failure(SyntaxError)
    case Decoded(req) =>
      var missing := MissingRequired(req);
      if missing == [] then Success(req) else Failure(RequiredMissing(missing))
  }

  /** Binding an update request: no field is required, so only a malformed body fails. */
  function BindUpdate(body: Body<UpdateRequest>): (r: Result<UpdateRequest, BindError>)
    ensures r.Success? <==> body.Decoded?
    ensures r.Success? ==> r.value == body.value
    ensures r.Failure? ==> r.error == SyntaxError
  {
    match body
    case Malformed => Failure(SyntaxError)
    case Decoded(req) => Success(req)
  }
}
