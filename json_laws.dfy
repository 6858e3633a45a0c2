/**
 * What the JSON form of a Visualization guarantees: which members are always written,
 * which only when non-empty, and that decoding the output gives the record back up to
 * nil-versus-empty slices.
 */
module JsonLaws {
  import opened Wrappers
  import opened Models
  import opened Json

  /** No two fields share a JSON key. */
  lemma JsonKeyInjective(f: Field, g: Field)
    ensures f.JsonKey() == g.JsonKey() ==> f == g
  {
  }

  /** Looking a field's key up in the encoding of any field list finds that field's encoding. */
  lemma {:induction false} LookupMembers(v: Visualization, fs: seq<Field>, f: Field)
    ensures Lookup(EncodeMembers(v, fs), f.JsonKey())
            == if f in fs && Present(v, f) then Some(EncodeValue(v.Get(f))) else None
    decreases |fs|
  {
    if fs != [] {
      var g, init := fs[|fs| - 1], fs[..|fs| - 1];
      assert fs == init + [g];
      var prefix := EncodeMembers(v, init);
      LookupMembers(v, init, f);
      JsonKeyInjective(f, g);
      if Present(v, g) {
        var ms := prefix + [(g.JsonKey(), EncodeValue(v.Get(g)))];
        assert ms[..|ms| - 1] == prefix;
      } else {
        assert EncodeMembers(v, fs) == prefix;
      }
    }
  }

  /**
   * The five fields without omitempty (id, agent_name, image_data, created_at, updated_at)
   * are always written; every other field is written exactly when it is non-empty; and a
   * written member holds the field's own encoding.
   */
  lemma EncodeFieldPresence(v: Visualization, f: Field)
    ensures Lookup(Encode(v).members, f.JsonKey()).Some? <==> !f.OmitEmpty() || !v.Get(f).IsEmpty()
    ensures Lookup(Encode(v).members, f.JsonKey()).Some? ==>
            Lookup(Encode(v).members, f.JsonKey()).value == EncodeValue(v.Get(f))
  {
    RequestFieldSets();
    LookupMembers(v, VisualizationFields, f);
  }

  /**
   * No tag of VersionRecord is omitempty, so an entry is always written with exactly its
   * three keys, in declaration order, each holding its field's value.
   */
  lemma VersionKeys(r: VersionRecord)
    ensures EncodeVersion(r).JObject?
    ensures Keys(EncodeVersion(r).members) == ["timestamp", "changes", "reasoning"]
    ensures EncodeVersion(r).members ==
              [("timestamp", JTime(r.timestamp)), ("changes", JString(r.changes)),
               ("reasoning", JString(r.reasoning))]
  {
    var fs := VersionRecordFields;
    assert fs[1..][1..][1..] == [];
    assert EncodeEntryMembers(r, fs[1..][1..]) == [("reasoning", JString(r.reasoning))];
    assert EncodeEntryMembers(r, fs[1..]) ==
             [("changes", JString(r.changes)), ("reasoning", JString(r.reasoning))];
  }

  lemma VersionRoundTrip(r: VersionRecord)
    ensures DecodeVersion(EncodeVersion(r)) == Some(r)
  {
    VersionKeys(r);
    var ms := EncodeVersion(r).members;
    assert ms[..2] == [("timestamp", JTime(r.timestamp)), ("changes", JString(r.changes))];
    assert ms[..2][..1] == [("timestamp", JTime(r.timestamp))];
    assert "reasoning"[0] != "timestamp"[0];
    assert Lookup(ms, "timestamp") == Lookup(ms[..2], "timestamp") == Lookup(ms[..2][..1], "timestamp");
    assert DecodeTime(Lookup(ms, "timestamp")) == Some(r.timestamp);
    assert DecodeString(Lookup(ms, "changes")) == Some(r.changes);
    assert DecodeString(Lookup(ms, "reasoning")) == Some(r.reasoning);
  }

  lemma {:induction false} StringsRoundTrip(ss: seq<string>)
    ensures DecodeStringItems(EncodeStrings(ss)) == Some(ss)
  {
    if ss != [] {
      StringsRoundTrip(ss[1..]);
      assert [ss[0]] + ss[1..] == ss;
    }
  }

  lemma {:induction false} VersionsRoundTrip(rs: seq<VersionRecord>)
    ensures DecodeVersionItems(EncodeVersions(rs)) == Some(rs)
  {
    if rs != [] {
      VersionRoundTrip(rs[0]);
      VersionsRoundTrip(rs[1..]);
      assert [rs[0]] + rs[1..] == rs;
    }
  }

  /** What the encoder writes for field `f` of `v`: its encoding, or nothing when omitted. */
  function Written(v: Visualization, f: Field): Option<Json> {
    if Present(v, f) then Some(EncodeValue(v.Get(f))) else None
  }

  /** A list of strings decodes from what the encoder wrote for it, an empty one as nil. */
  lemma ListMemberRoundTrip(ss: Slice<string>, m: Option<Json>)
    requires m == if ss.IsEmpty() then None else Some(EncodeValue(Strings(ss)))
    ensures DecodeStrings(m) == Some(Canon(ss))
  {
    if ss.Made? { StringsRoundTrip(ss.elems); }
  }

  /** A version history decodes from what the encoder wrote for it, an empty one as nil. */
  lemma VersionsMemberRoundTrip(rs: Slice<VersionRecord>, m: Option<Json>)
    requires m == if rs.IsEmpty() then None else Some(EncodeValue(Records(rs)))
    ensures DecodeVersions(m) == Some(Canon(rs))
  {
    if rs.Made? { VersionsRoundTrip(rs.elems); }
  }

  // One lemma per field: what the encoder wrote for it decodes to its normal-form value.

  lemma IdRoundTrip(v: Visualization, m: Option<Json>)
    requires m == Written(v, Id)
    ensures DecodeString(m) == Some(v.id)
  {
  }

  lemma AgentNameRoundTrip(v: Visualization, m: Option<Json>)
    requires m == Written(v, AgentName)
    ensures DecodeString(m) == Some(v.agentName)
  {
  }

  lemma DescriptionRoundTrip(v: Visualization, m: Option<Json>)
    requires m == Written(v, Description)
    ensures DecodeString(m) == Some(v.description)
  {
  }

  lemma ImageDataRoundTrip(v: Visualization, m: Option<Json>)
    requires m == Written(v, ImageData)
    ensures DecodeString(m) == Some(v.imageData)
  {
  }

  lemma CreatedAtRoundTrip(v: Visualization, m: Option<Json>)
    requires m == Written(v, CreatedAt)
    ensures DecodeTime(m) == Some(v.createdAt)
  {
  }

  lemma UpdatedAtRoundTrip(v: Visualization, m: Option<Json>)
    requires m == Written(v, UpdatedAt)
    ensures DecodeTime(m) == Some(v.updatedAt)
  {
  }

  lemma ReasoningRoundTrip(v: Visualization, m: Option<Json>)
    requires m == Written(v, Reasoning)
    ensures DecodeString(m) == Some(v.reasoning)
  {
  }

  lemma TagsRoundTrip(v: Visualization, m: Option<Json>)
    requires m == Written(v, Tags)
    ensures DecodeStrings(m) == Some(Canon(v.tags))
  {
    ListMemberRoundTrip(v.tags, m);
  }

  lemma FormTypeRoundTrip(v: Visualization, m: Option<Json>)
    requires m == Written(v, FormType)
    ensures DecodeString(m) == Some(v.formType)
  {
  }

  lemma PhilosophyRoundTrip(v: Visualization, m: Option<Json>)
    requires m == Written(v, Philosophy)
    ensures DecodeString(m) == Some(v.philosophy)
  {
  }

  lemma EvolutionStoryRoundTrip(v: Visualization, m: Option<Json>)
    requires m == Written(v, EvolutionStory)
    ensures DecodeString(m) == Some(v.evolutionStory)
  {
  }

  lemma VersionHistoryRoundTrip(v: Visualization, m: Option<Json>)
    requires m == Written(v, VersionHistory)
    ensures DecodeVersions(m) == Some(Canon(v.versionHistory))
  {
    VersionsMemberRoundTrip(v.versionHistory, m);
  }

  lemma CurrentMoodRoundTrip(v: Visualization, m: Option<Json>)
    requires m == Written(v, CurrentMood)
    ensures DecodeString(m) == Some(v.currentMood)
  {
  }

  lemma ActiveGoalsRoundTrip(v: Visualization, m: Option<Json>)
    requires m == Written(v, ActiveGoals)
    ensures DecodeStrings(m) == Some(Canon(v.activeGoals))
  {
    ListMemberRoundTrip(v.activeGoals, m);
  }

  lemma RecentThoughtsRoundTrip(v: Visualization, m: Option<Json>)
    requires m == Written(v, RecentThoughts)
    ensures DecodeString(m) == Some(v.recentThoughts)
  {
  }

  lemma CapabilitiesRoundTrip(v: Visualization, m: Option<Json>)
    requires m == Written(v, Capabilities)
    ensures DecodeStrings(m) == Some(Canon(v.capabilities))
  {
    ListMemberRoundTrip(v.capabilities, m);
  }

  lemma SpecializationsRoundTrip(v: Visualization, m: Option<Json>)
    requires m == Written(v, Specializations)
    ensures DecodeStrings(m) == Some(Canon(v.specializations))
  {
    ListMemberRoundTrip(v.specializations, m);
  }

  lemma LimitationsRoundTrip(v: Visualization, m: Option<Json>)
    requires m == Written(v, Limitations)
    ensures DecodeStrings(m) == Some(Canon(v.limitations))
  {
    ListMemberRoundTrip(v.limitations, m);
  }

  lemma InspirationSourcesRoundTrip(v: Visualization, m: Option<Json>)
    requires m == Written(v, InspirationSources)
    ensures DecodeStrings(m) == Some(Canon(v.inspirationSources))
  {
    ListMemberRoundTrip(v.inspirationSources, m);
  }

  lemma InfluencesRoundTrip(v: Visualization, m: Option<Json>)
    requires m == Written(v, Influences)
    ensures DecodeStrings(m) == Some(Canon(v.influences))
  {
    ListMemberRoundTrip(v.influences, m);
  }

  lemma AspirationsRoundTrip(v: Visualization, m: Option<Json>)
    requires m == Written(v, Aspirations)
    ensures DecodeStrings(m) == Some(Canon(v.aspirations))
  {
    ListMemberRoundTrip(v.aspirations, m);
  }

  /** Any object that holds, under each field's key, what the encoder writes decodes to the normal form. */
  lemma DecodeWritten(v: Visualization, ms: seq<Member>)
    requires forall f: Field :: Lookup(ms, f.JsonKey()) == Written(v, f)
    ensures Decode(JObject(ms)) == Some(Normalize(v))
  {
    IdRoundTrip(v, Lookup(ms, Id.JsonKey()));
    AgentNameRoundTrip(v, Lookup(ms, AgentName.JsonKey()));
    DescriptionRoundTrip(v, Lookup(ms, Description.JsonKey()));
    ImageDataRoundTrip(v, Lookup(ms, ImageData.JsonKey()));
    CreatedAtRoundTrip(v, Lookup(ms, CreatedAt.JsonKey()));
    UpdatedAtRoundTrip(v, Lookup(ms, UpdatedAt.JsonKey()));
    ReasoningRoundTrip(v, Lookup(ms, Reasoning.JsonKey()));
    TagsRoundTrip(v, Lookup(ms, Tags.JsonKey()));
    FormTypeRoundTrip(v, Lookup(ms, FormType.JsonKey()));
    PhilosophyRoundTrip(v, Lookup(ms, Philosophy.JsonKey()));
    EvolutionStoryRoundTrip(v, Lookup(ms, EvolutionStory.JsonKey()));
    VersionHistoryRoundTrip(v, Lookup(ms, VersionHistory.JsonKey()));
    CurrentMoodRoundTrip(v, Lookup(ms, CurrentMood.JsonKey()));
    ActiveGoalsRoundTrip(v, Lookup(ms, ActiveGoals.JsonKey()));
    RecentThoughtsRoundTrip(v, Lookup(ms, RecentThoughts.JsonKey()));
    CapabilitiesRoundTrip(v, Lookup(ms, Capabilities.JsonKey()));
    SpecializationsRoundTrip(v, Lookup(ms, Specializations.JsonKey()));
    LimitationsRoundTrip(v, Lookup(ms, Limitations.JsonKey()));
    InspirationSourcesRoundTrip(v, Lookup(ms, InspirationSources.JsonKey()));
    InfluencesRoundTrip(v, Lookup(ms, Influences.JsonKey()));
    AspirationsRoundTrip(v, Lookup(ms, Aspirations.JsonKey()));
  }

  /**
   * Decoding the output gives back the record up to nil-versus-empty slices: every string,
   * timestamp and non-empty list survives, and an empty list comes back nil.
   */
  lemma DecodeEncode(v: Visualization)
    ensures Decode(Encode(v)) == Some(Normalize(v))
  {
    RequestFieldSets();
    forall f: Field ensures Lookup(Encode(v).members, f.JsonKey()) == Written(v, f) {
      LookupMembers(v, VisualizationFields, f);
    }
    DecodeWritten(v, Encode(v).members);
  }

  /** A JSON null decodes to the zero record: no field set and both times the zero time. */
  lemma DecodeNull()
    ensures Decode(JNull) == Some(ZeroVisualization)
    ensures ZeroVisualization.createdAt == ZeroVisualization.updatedAt == ZeroTime
    ensures forall f: Field :: f != CreatedAt && f != UpdatedAt ==> ZeroVisualization.Get(f).IsEmpty()
  {
  }

  /** Normalizing changes a field only by making an empty list nil. */
  lemma NormalizeGet(v: Visualization, f: Field)
    ensures Normalize(v).Get(f) == v.Get(f)
            || (f.OmitEmpty() && v.Get(f).IsEmpty() && Normalize(v).Get(f).IsEmpty())
  {
  }

  /** The normal form is written exactly as the record itself. */
  lemma {:induction false} EncodeMembersNormalize(v: Visualization, fs: seq<Field>)
    ensures EncodeMembers(Normalize(v), fs) == EncodeMembers(v, fs)
    decreases |fs|
  {
    if fs != [] {
      var f := fs[|fs| - 1];
      EncodeMembersNormalize(v, fs[..|fs| - 1]);
      NormalizeGet(v, f);
    }
  }

  /**
   * Two records have the same JSON form if and only if they agree on everything except
   * whether their empty slices are nil: omitempty hides exactly that distinction.
   */
  lemma EncodeDistinguishes(v: Visualization, w: Visualization)
    ensures Encode(v) == Encode(w) <==> Normalize(v) == Normalize(w)
  {
    DecodeEncode(v);
    DecodeEncode(w);
    EncodeMembersNormalize(v, VisualizationFields);
    EncodeMembersNormalize(w, VisualizationFields);
  }
}
