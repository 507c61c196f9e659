/** The voice-comment record (core/models/audio_info.py). */
module AudioInfoModel {
  import opened Wrappers
  import opened PyJson
  import UserInfoModel

  /** AudioInfo: recognised text, tag text and duration, copied as sent. */
  datatype AudioInfo = AudioInfo(asrText: Json, tagText: Json, duration: Json)

  /**
   * AudioInfo.from_dict: a falsy value (None, {}, "", 0, ...) means no audio;
   * a non-empty dict gives a record whose fields are copied or default to "",
   * "" and 0; any other truthy value has no get method.
   */
  function FromDict(data: Json): (r: Result<Option<AudioInfo>>)
    ensures !Truthy(data) ==> r == Ok(None)
    ensures Truthy(data) && !data.JObj? ==> r == Raised(AttributeError)
    ensures Truthy(data) && data.JObj? ==> r.Ok? && r.value.Some?
    ensures r.Ok? && r.value.Some? ==>
      && UserInfoModel.CopiedOrDefault(data, "asr_text", JStr(""), r.value.value.asrText)
      && UserInfoModel.CopiedOrDefault(data, "tag_text", JStr(""), r.value.value.tagText)
      && UserInfoModel.CopiedOrDefault(data, "duration", JInt(0), r.value.value.duration)
  {
    match data
    case JObj(fs) =>
      if fs == [] then Ok(None)
      else Ok(Some(AudioInfo(DictGet(fs, "asr_text", JStr("")), DictGet(fs, "tag_text", JStr("")), DictGet(fs, "duration", JInt(0)))))
    case _ => if Truthy(data) then Raised(AttributeError) else Ok(None)
  }

  /** Two non-empty dicts that agree on the three field keys give the same record. */
  lemma IgnoresOtherKeys(a: Json, b: Json)
    requires a.JObj? && b.JObj?
    requires forall key :: key in ["asr_text", "tag_text", "duration"] ==>
      HasKey(a, key) == HasKey(b, key) && (HasKey(a, key) ==> Field(a, key) == Field(b, key))
    requires Truthy(a) && Truthy(b)
    ensures FromDict(a) == FromDict(b)
  {
    assert "asr_text" in ["asr_text", "tag_text", "duration"];
    assert "tag_text" in ["asr_text", "tag_text", "duration"];
    assert "duration" in ["asr_text", "tag_text", "duration"];
  }
}
