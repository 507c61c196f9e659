/** A note as the bot knows it (core/models/note_info.py). */
module NoteInfoModel {
  import opened Wrappers
  import opened PyJson
  import opened DateTimes
  import UserInfoModel

  type UserInfo = UserInfoModel.UserInfo

  /** NoteInfo: the id, title and url keep whatever value the dict held; create_time is never read from the dict. */
  datatype NoteInfo = NoteInfo(noteId: Json, title: Json, url: Json, author: Option<UserInfo>, createTime: Option<DateTime>)

  /** The author from_dict attaches: none without an `author` key, else the UserInfo built from its value. */
  function AuthorOf(data: Json): Result<Option<UserInfo>>
  {
    var hasAuthor :- In("author", data);
    if hasAuthor then
      var raw :- Index(data, "author");
      var user :- UserInfoModel.FromDict(raw);
      Ok(Some(user))
    else Ok(None)
  }

  /**
   * NoteInfo.from_dict: succeeds exactly for a dict whose `author`, if
   * present, is itself a dict; copies note_id, title and url with "" as the
   * default and leaves create_time unset.
   */
  function FromDict(data: Json): (r: Result<NoteInfo>)
    ensures r.Ok? <==> data.JObj? && (HasKey(data, "author") ==> Field(data, "author").JObj?)
    ensures data.JObj? && HasKey(data, "author") && !Field(data, "author").JObj? ==> r == Raised(AttributeError)
    ensures (data.JNull? || data.JBool? || data.JInt?) ==> r == Raised(TypeError)
    ensures r.Ok? ==>
      && UserInfoModel.CopiedOrDefault(data, "note_id", JStr(""), r.value.noteId)
      && UserInfoModel.CopiedOrDefault(data, "title", JStr(""), r.value.title)
      && UserInfoModel.CopiedOrDefault(data, "url", JStr(""), r.value.url)
      && r.value.createTime == None
      && (!HasKey(data, "author") ==> r.value.author == None)
      && (HasKey(data, "author") ==> r.value.author == Some(UserInfoModel.FromDict(Field(data, "author")).value))
  {
    var author :- AuthorOf(data);
    match data
    case JObj(fs) => Ok(NoteInfo(DictGet(fs, "note_id", JStr("")), DictGet(fs, "title", JStr("")), DictGet(fs, "url", JStr("")), author, None))
    case _ => Raised(AttributeError)
  }

  /** An explicit `"author": null` is not treated as a missing author: from_dict raises. */
  lemma NullAuthorRaises(fs: seq<(string, Json)>)
    requires forall j :: 0 <= j < |fs| ==> fs[j].0 != "author"
    ensures FromDict(JObj([("author", JNull)] + fs)) == Raised(AttributeError)
  {
    FieldAt([("author", JNull)] + fs, 0, "author");
  }

  /** A note dict with the three keys and an author dict gives the note those values, its author parsed as a UserInfo. */
  lemma FromFullDict(id: string, title: string, url: string, author: seq<(string, Json)>)
    ensures var data := JObj([("note_id", JStr(id)), ("title", JStr(title)), ("url", JStr(url)), ("author", JObj(author))]);
      FromDict(data) == Ok(NoteInfo(JStr(id), JStr(title), JStr(url), Some(UserInfoModel.FromDict(JObj(author)).value), None))
  {
    var fs := [("note_id", JStr(id)), ("title", JStr(title)), ("url", JStr(url)), ("author", JObj(author))];
    FieldAt(fs, 0, "note_id");
    FieldAt(fs, 1, "title");
    FieldAt(fs, 2, "url");
    FieldAt(fs, 3, "author");
  }
}
