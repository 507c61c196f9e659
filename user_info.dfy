/** The author record attached to comments and notes (core/models/user_info.py). */
module UserInfoModel {
  import opened Wrappers
  import opened PyJson

  /** UserInfo: fields keep whatever value the API sent, without conversion. */
  datatype UserInfo = UserInfo(userId: Json, nickname: Json, avatar: Json)

  /** UserInfo() with every field at its declared default. */
  function DefaultUserInfo(): UserInfo
  {
    UserInfo(JStr(""), JStr("未知用户"), JStr(""))
  }

  /** A dict field read with get(key, default): the stored value when present, the default otherwise. */
  predicate CopiedOrDefault(data: Json, key: string, default: Json, v: Json)
  {
    (HasKey(data, key) ==> v == Field(data, key)) && (!HasKey(data, key) ==> v == default)
  }

  /**
   * UserInfo.from_dict: each present key is copied verbatim, each missing key
   * takes the field's default; anything but a dict has no get method.
   */
  function FromDict(data: Json): (r: Result<UserInfo>)
    ensures r.Ok? <==> data.JObj?
    ensures r.Raised? ==> r.error == AttributeError
    ensures r.Ok? ==>
      && CopiedOrDefault(data, "user_id", DefaultUserInfo().userId, r.value.userId)
      && CopiedOrDefault(data, "nickname", DefaultUserInfo().nickname, r.value.nickname)
      && CopiedOrDefault(data, "avatar", DefaultUserInfo().avatar, r.value.avatar)
  {
    match data
    case JObj(fs) =>
      Ok(UserInfo(DictGet(fs, "user_id", JStr("")), DictGet(fs, "nickname", JStr("未知用户")), DictGet(fs, "avatar", JStr(""))))
    case _ => Raised(AttributeError)
  }

  /** from_dict({}) is the default-constructed record. */
  lemma FromEmptyDict()
    ensures FromDict(JObj([])) == Ok(DefaultUserInfo())
  {
  }

  /** Two dicts that agree on the three field keys give the same record: other keys are ignored. */
  lemma IgnoresOtherKeys(a: Json, b: Json)
    requires a.JObj? && b.JObj?
    requires forall key :: key in ["user_id", "nickname", "avatar"] ==>
      HasKey(a, key) == HasKey(b, key) && (HasKey(a, key) ==> Field(a, key) == Field(b, key))
    ensures FromDict(a) == FromDict(b)
  {
    assert "user_id" in ["user_id", "nickname", "avatar"];
    assert "nickname" in ["user_id", "nickname", "avatar"];
    assert "avatar" in ["user_id", "nickname", "avatar"];
  }
}
