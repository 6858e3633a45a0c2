/**
 * The JSON form of a Visualization as encoding/json writes it from the struct tags of
 * backend/models/visualization.go, and the decoding that reads it back with the same tags.
 * Members are written in declaration order; a field tagged omitempty is left out when its
 * value is empty, so the output cannot tell a nil slice from an empty one.
 */
module Json {
  import opened Wrappers
  import opened Models

  datatype Json =
    | JNull
    | JString(str: string)
    | JTime(time: Time)        // an instant; its RFC 3339 text is not modelled
    | JArray(items: seq<Json>)
    | JObject(members: seq<Member>)

  type Member = (string, Json)

  function Keys(ms: seq<Member>): seq<string> {
    seq(|ms|, i requires 0 <= i < |ms| => ms[i].0)
  }

  /** The value of member `key`; the last occurrence of an exact key wins. */
  function Lookup(ms: seq<Member>, key: string): Option<Json> {
    if ms == [] then None
    else if ms[|ms| - 1].0 == key then Some(ms[|ms| - 1].1)
    else Lookup(ms[..|ms| - 1], key)
  }

  // ---------------------------------------------------------------- encoding

  function EncodeStrings(ss: seq<string>): seq<Json> {
    if ss == [] then [] else [JString(ss[0])] + EncodeStrings(ss[1..])
  }

  /** A time or a string, written as EncodeValue writes them. */
  function EncodeScalar(val: Value): Json
    requires val.Str? || val.Instant?
  {
    if val.Str? then JString(val.str) else JTime(val.instant)
  }

  /** Whether field `f` of entry `r` is written: always, unless it is omitempty and empty. */
  predicate EntryPresent(r: VersionRecord, f: EntryField) {
    !(f.OmitEmpty() && r.Get(f).IsEmpty())
  }

  function EncodeEntryMembers(r: VersionRecord, fs: seq<EntryField>): seq<Member> {
    if fs == [] then []
    else
      (if EntryPresent(r, fs[0]) then [(fs[0].JsonKey(), EncodeScalar(r.Get(fs[0])))] else [])
      + EncodeEntryMembers(r, fs[1..])
  }

  /** A VersionRecord: its fields in declaration order, by the same tag rule as a record. */
  function EncodeVersion(r: VersionRecord): Json {
    JObject(EncodeEntryMembers(r, VersionRecordFields))
  }

  function EncodeVersions(rs: seq<VersionRecord>): seq<Json> {
    if rs == [] then [] else [EncodeVersion(rs[0])] + EncodeVersions(rs[1..])
  }

  /** One field's value; a nil slice is null and a non-nil one an array, even when empty. */
  function EncodeValue(val: Value): Json {
    match val
    case Str(s) => JString(s)
    case Strings(Nil) => JNull
    case Strings(Made(ss)) => JArray(EncodeStrings(ss))
    case Records(Nil) => JNull
    case Records(Made(rs)) => JArray(EncodeVersions(rs))
    case Instant(t) => JTime(t)
  }

  /** Whether field `f` of `v` is written: always, unless it is omitempty and empty. */
  predicate Present(v: Visualization, f: Field) {
    !(f.OmitEmpty() && v.Get(f).IsEmpty())
  }

  function EncodeMembers(v: Visualization, fs: seq<Field>): seq<Member> {
    if fs == [] then []
    else
      var f := fs[|fs| - 1];
      EncodeMembers(v, fs[..|fs| - 1])
      + (if Present(v, f) then [(f.JsonKey(), EncodeValue(v.Get(f)))] else [])
  }

  function Encode(v: Visualization): Json {
    JObject(EncodeMembers(v, VisualizationFields))
  }

  // ---------------------------------------------------------------- decoding

  /** A string field: absent or null leaves Go's zero value "". */
  function DecodeString(m: Option<Json>): Option<string> {
    match m
    case None => Some("")
    case Some(JNull) => Some("")
    case Some(JString(s)) => Some(s)
    case Some(_) => None
  }

  function DecodeTime(m: Option<Json>): Option<Time> {
    match m
    case None => Some(ZeroTime)
    case Some(JNull) => Some(ZeroTime)
    case Some(JTime(t)) => Some(t)
    case Some(_) => None
  }

  function DecodeStringItems(items: seq<Json>): Option<seq<string>> {
    if items == [] then Some([])
    else
      var s :- DecodeString(Some(items[0]));
      var rest :- DecodeStringItems(items[1..]);
      Some([s] + rest)
  }

  /** A []string field: absent or null is a nil slice, an array (even []) a non-nil one. */
  function DecodeStrings(m: Option<Json>): Option<Slice<string>> {
    match m
    case None => Some(Nil)
    case Some(JNull) => Some(Nil)
    case Some(JArray(items)) =>
      var ss :- DecodeStringItems(items);
      Some(Made(ss))
    case Some(_) => None
  }

  function DecodeVersion(j: Json): Option<VersionRecord> {
    match j
    case JNull => Some(VersionRecord(ZeroTime, "", ""))
    case JObject(ms) =>
      var t :- DecodeTime(Lookup(ms, EntryTimestamp.JsonKey()));
      var c :- DecodeString(Lookup(ms, EntryChanges.JsonKey()));
      var r :- DecodeString(Lookup(ms, EntryReasoning.JsonKey()));
      Some(VersionRecord(t, c, r))
    case _ => None
  }

  function DecodeVersionItems(items: seq<Json>): Option<seq<VersionRecord>> {
    if items == [] then Some([])
    else
      var r :- DecodeVersion(items[0]);
      var rest :- DecodeVersionItems(items[1..]);
      Some([r] + rest)
  }

  function DecodeVersions(m: Option<Json>): Option<Slice<VersionRecord>> {
    match m
    case None => Some(Nil)
    case Some(JNull) => Some(Nil)
    case Some(JArray(items)) =>
      var rs :- DecodeVersionItems(items);
      Some(Made(rs))
    case Some(_) => None
  }

  /**
   * Reads a Visualization back from a JSON object; a member of the wrong type is an error.
   * A JSON null leaves the zero record, as encoding/json leaves a struct it unmarshals null into.
   */
  function Decode(j: Json): Option<Visualization> {
    if j.JNull? then Some(ZeroVisualization)
    else if !j.JObject? then None
    else
      var ms := j.members;
      var id := DecodeString(Lookup(ms, Id.JsonKey()));
      var agentName := DecodeString(Lookup(ms, AgentName.JsonKey()));
      var description := DecodeString(Lookup(ms, Description.JsonKey()));
      var imageData := DecodeString(Lookup(ms, ImageData.JsonKey()));
      var createdAt := DecodeTime(Lookup(ms, CreatedAt.JsonKey()));
      var updatedAt := DecodeTime(Lookup(ms, UpdatedAt.JsonKey()));
      var reasoning := DecodeString(Lookup(ms, Reasoning.JsonKey()));
      var tags := DecodeStrings(Lookup(ms, Tags.JsonKey()));
      var formType := DecodeString(Lookup(ms, FormType.JsonKey()));
      var philosophy := DecodeString(Lookup(ms, Philosophy.JsonKey()));
      var evolutionStory := DecodeString(Lookup(ms, EvolutionStory.JsonKey()));
      var versionHistory := DecodeVersions(Lookup(ms, VersionHistory.JsonKey()));
      var currentMood := DecodeString(Lookup(ms, CurrentMood.JsonKey()));
      var activeGoals := DecodeStrings(Lookup(ms, ActiveGoals.JsonKey()));
      var recentThoughts := DecodeString(Lookup(ms, RecentThoughts.JsonKey()));
      var capabilities := DecodeStrings(Lookup(ms, Capabilities.JsonKey()));
      var specializations := DecodeStrings(Lookup(ms, Specializations.JsonKey()));
      var limitations := DecodeStrings(Lookup(ms, Limitations.JsonKey()));
      var inspirationSources := DecodeStrings(Lookup(ms, InspirationSources.JsonKey()));
      var influences := DecodeStrings(Lookup(ms, Influences.JsonKey()));
      var aspirations := DecodeStrings(Lookup(ms, Aspirations.JsonKey()));
      if id.Some? && agentName.Some? && description.Some? && imageData.Some?
         && createdAt.Some? && updatedAt.Some? && reasoning.Some? && tags.Some?
         && formType.Some? && philosophy.Some? && evolutionStory.Some? && versionHistory.Some?
         && currentMood.Some? && activeGoals.Some? && recentThoughts.Some? && capabilities.Some?
         && specializations.Some? && limitations.Some? && inspirationSources.Some? && influences.Some?
         && aspirations.Some?
      then Some(Visualization(
        id.value, agentName.value, description.value, imageData.value, createdAt.value, updatedAt.value,
        reasoning.value, tags.value, formType.value, philosophy.value, evolutionStory.value, versionHistory.value,
        currentMood.value, activeGoals.value, recentThoughts.value,
        capabilities.value, specializations.value, limitations.value,
        inspirationSources.value, influences.value, aspirations.value))
      else None
  }

  // ---------------------------------------------------------------- normal form

  /** An empty slice and a nil slice are written alike; the normal form keeps nil. */
  function Canon<T>(s: Slice<T>): (c: Slice<T>)
    ensures c.IsEmpty() == s.IsEmpty()
    ensures !s.IsEmpty() ==> c == s
  {
    if s.IsEmpty() then Nil else s
  }

  /** The record with every empty slice made nil: what its JSON form still tells apart. */
  function Normalize(v: Visualization): Visualization {
    v.(tags := Canon(v.tags), versionHistory := Canon(v.versionHistory),
       activeGoals := Canon(v.activeGoals), capabilities := Canon(v.capabilities),
       specializations := Canon(v.specializations), limitations := Canon(v.limitations),
       inspirationSources := Canon(v.inspirationSources), influences := Canon(v.influences),
       aspirations := Canon(v.aspirations))
  }
}
