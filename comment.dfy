/**
 * The comment record and its construction from one element of the comment
 * API's `comments` array (core/models/comment.py). CommentOf is the
 * specification of Comment.from_dict; FromDict is the loop-and-recurse
 * procedure itself, proved equal to it.
 */
module CommentModel {
  import opened Wrappers
  import opened PyJson
  import opened DateTimes
  import UserInfoModel
  import AudioInfoModel

  /**
   * A comment. Text fields keep the value the API sent (Python does not convert
   * them); the two counters went through int().
   */
  datatype Comment = Comment(
    commentId: Json,
    content: Json,
    userInfo: UserInfoModel.UserInfo,
    likeCount: int,
    ipLocation: Json,
    subCommentCount: int,
    createTime: Option<DateTime>,
    audioInfo: Option<AudioInfoModel.AudioInfo>,
    pictures: seq<Json>,
    subComments: seq<Comment>,
    targetComment: Option<Comment>)

  /** The first truthy value of a list, if any. */
  function FirstTruthy(vs: seq<Json>): (r: Option<Json>)
    ensures r.Some? ==> Truthy(r.value) && r.value in vs
    ensures r.None? <==> forall i :: 0 <= i < |vs| ==> !Truthy(vs[i])
  {
    if vs == [] then None else if Truthy(vs[0]) then Some(vs[0]) else FirstTruthy(vs[1..])
  }

  /**
   * The URL one entry of `pictures` contributes. A dict is probed through an
   * `or` chain of get calls that reaches into `info` only when the first three
   * probes are falsy, and contributes only a truthy result; a string is kept
   * verbatim; any other value contributes nothing.
   */
  function PictureUrl(pic: Json): (r: Result<Option<Json>>)
    ensures pic.JStr? ==> r == Ok(Some(pic))
    ensures !pic.JStr? && !pic.JObj? ==> r == Ok(None)
    ensures pic.JObj? && r.Ok? && r.value.Some? ==> Truthy(r.value.value)
  {
    match pic
    case JObj(fs) =>
      var first := FirstTruthy([DictGet(fs, "url_default", JNull), DictGet(fs, "url", JNull), DictGet(fs, "url_pre", JNull)]);
      if first.Some? then Ok(first)
      else
        (match DictGet(fs, "info", JObj([]))
         case JObj(info) =>
           Ok(FirstTruthy([DictGet(info, "url", JNull), DictGet(info, "url_default", JStr(""))]))
         case _ => Raised(AttributeError))
    case JStr(_) => Ok(Some(pic))
    case _ => Ok(None)
  }

  /** The five probes of a picture dict, in the order of the `or` chain. */
  function Probes(fs: seq<(string, Json)>, info: seq<(string, Json)>): seq<Json>
  {
    [DictGet(fs, "url_default", JNull), DictGet(fs, "url", JNull), DictGet(fs, "url_pre", JNull),
     DictGet(info, "url", JNull), DictGet(info, "url_default", JStr(""))]
  }

  /** The first truthy value of a concatenation comes from the left part when it has one. */
  lemma {:induction false} FirstTruthyAppend(a: seq<Json>, b: seq<Json>)
    ensures FirstTruthy(a + b) == if FirstTruthy(a).Some? then FirstTruthy(a) else FirstTruthy(b)
  {
    if a != [] {
      assert (a + b)[1..] == a[1..] + b;
      FirstTruthyAppend(a[1..], b);
    } else {
      assert a + b == b;
    }
  }

  /** With `info` absent or a dict, a picture dict contributes the first truthy probe, or nothing. */
  lemma PictureUrlIsFirstTruthyProbe(fs: seq<(string, Json)>)
    requires DictGet(fs, "info", JObj([])).JObj?
    ensures PictureUrl(JObj(fs)) == Ok(FirstTruthy(Probes(fs, DictGet(fs, "info", JObj([])).fields)))
  {
    var info := DictGet(fs, "info", JObj([])).fields;
    var ps := Probes(fs, info);
    assert ps == [ps[0], ps[1], ps[2]] + [ps[3], ps[4]];
    FirstTruthyAppend([ps[0], ps[1], ps[2]], [ps[3], ps[4]]);
  }

  /** A truthy url_default, url or url_pre ends the `or` chain before `info` is looked at, whatever `info` holds. */
  lemma EarlyProbeWins(fs: seq<(string, Json)>)
    requires FirstTruthy([DictGet(fs, "url_default", JNull), DictGet(fs, "url", JNull), DictGet(fs, "url_pre", JNull)]).Some?
    ensures PictureUrl(JObj(fs)) == Ok(FirstTruthy([DictGet(fs, "url_default", JNull), DictGet(fs, "url", JNull), DictGet(fs, "url_pre", JNull)]))
  {
  }

  /** A picture dict whose first three probes are falsy and whose `info` is not a dict raises AttributeError. */
  lemma PictureInfoNotDict(fs: seq<(string, Json)>)
    requires !Truthy(DictGet(fs, "url_default", JNull)) && !Truthy(DictGet(fs, "url", JNull)) && !Truthy(DictGet(fs, "url_pre", JNull))
    requires !DictGet(fs, "info", JObj([])).JObj?
    ensures PictureUrl(JObj(fs)) == Raised(AttributeError)
  {
    var vs := [DictGet(fs, "url_default", JNull), DictGet(fs, "url", JNull), DictGet(fs, "url_pre", JNull)];
    assert forall i :: 0 <= i < |vs| ==> !Truthy(vs[i]);
  }

  /** The pictures list built from the iterated entries, in order: a fold over the entries. */
  function CollectPictures(pics: seq<Json>): (r: Result<seq<Json>>)
    ensures r.Ok? ==> |r.value| <= |pics|
  {
    if pics == [] then Ok([])
    else
      var prev :- CollectPictures(pics[..|pics| - 1]);
      var url :- PictureUrl(pics[|pics| - 1]);
      Ok(prev + (if url.Some? then [url.value] else []))
  }

  /** Collection fails exactly when some entry's probe fails. */
  lemma {:induction false} CollectPicturesFails(pics: seq<Json>)
    ensures CollectPictures(pics).Raised? <==> exists i :: 0 <= i < |pics| && PictureUrl(pics[i]).Raised?
  {
    if pics != [] {
      var init := pics[..|pics| - 1];
      CollectPicturesFails(init);
      assert forall i :: 0 <= i < |init| ==> init[i] == pics[i];
    }
  }

  /** A list of string entries is kept exactly. */
  lemma {:induction false} StringPicturesKept(pics: seq<Json>)
    requires forall i :: 0 <= i < |pics| ==> pics[i].JStr?
    ensures CollectPictures(pics) == Ok(pics)
  {
    if pics != [] {
      StringPicturesKept(pics[..|pics| - 1]);
      assert pics[..|pics| - 1] + [pics[|pics| - 1]] == pics;
    }
  }

  /** One more entry extends a successful collection by what that entry contributes. */
  lemma CollectPicturesSnoc(pics: seq<Json>, x: Json, prev: seq<Json>, url: Option<Json>)
    requires CollectPictures(pics) == Ok(prev) && PictureUrl(x) == Ok(url)
    ensures CollectPictures(pics + [x]) == Ok(prev + if url.Some? then [url.value] else [])
  {
    assert (pics + [x])[..|pics|] == pics;
  }

  /** A failing prefix makes the whole collection fail with the same error. */
  lemma {:induction false} CollectPicturesPrefixFails(pics: seq<Json>, n: nat)
    requires n <= |pics| && CollectPictures(pics[..n]).Raised?
    ensures CollectPictures(pics) == Raised(CollectPictures(pics[..n]).error)
    decreases |pics|
  {
    if n < |pics| {
      var init := pics[..|pics| - 1];
      assert init[..n] == pics[..n];
      CollectPicturesPrefixFails(init, n);
    } else {
      assert pics[..n] == pics;
    }
  }

  /** `pictures`: empty unless the key holds a truthy value, otherwise the collection over its iteration. */
  function PicturesOf(fs: seq<(string, Json)>): Result<seq<Json>>
  {
    var k := KeyIndex(fs, "pictures");
    if k >= 0 && Truthy(fs[k].1) then
      var items :- Iterate(fs[k].1);
      CollectPictures(items)
    else Ok([])
  }

  /** An absent or falsy `pictures` field gives no pictures. */
  lemma NoPicturesField(fs: seq<(string, Json)>)
    requires !HasKey(JObj(fs), "pictures") || !Truthy(Field(JObj(fs), "pictures"))
    ensures PicturesOf(fs) == Ok([])
  {
  }

  /** Comment.from_dict as a function: the reference the procedure FromDict is proved against. */
  function CommentOf(data: Json): Result<Comment>
    decreases data, 3
  {
    match data
    case JObj(fs) => CommentFrom(data)
    case _ => Raised(AttributeError)
  }

  /** from_dict on a dict: each step in turn, the first that raises deciding the result. */
  function CommentFrom(data: Json): Result<Comment>
    requires data.JObj?
    decreases data, 2
  {
    var fs := data.fields;
    var user :- UserInfoModel.FromDict(DictGet(fs, "user_info", JObj([])));
    var audio :- AudioInfoModel.FromDict(DictGet(fs, "audio_info", JNull));
    var pictures :- PicturesOf(fs);
    var k := KeyIndex(fs, "sub_comments");
    var replies :- if k < 0 then Ok([]) else RepliesOf(fs[k].1);
    var t := KeyIndex(fs, "target_comment");
    var target :- if t >= 0 && Truthy(fs[t].1) then AsTarget(CommentOf(fs[t].1)) else Ok(None);
    var likes :- ToInt(DictGet(fs, "like_count", JInt(0)));
    var subCount :- ToInt(DictGet(fs, "sub_comment_count", JInt(0)));
    Ok(Comment(
      DictGet(fs, "id", JStr("")), DictGet(fs, "content", JStr("")), user, likes,
      DictGet(fs, "ip_location", JStr("未知")), subCount, None, audio, pictures, replies, target))
  }

  /** A parsed target comment, or the error its parse raised. */
  function AsTarget(r: Result<Comment>): (t: Result<Option<Comment>>)
    ensures t.Ok? <==> r.Ok?
    ensures r.Ok? ==> t.value == Some(r.value)
    ensures r.Raised? ==> t.error == r.error
  {
    match r
    case Ok(c) => Ok(Some(c))
    case Raised(e) => Raised(e)
  }

  /**
   * The replies built from the value of `sub_comments`: one comment per list
   * element. Iterating a dict or a string yields strings, which have no get
   * method, so only an empty one passes; other values are not iterable.
   */
  function RepliesOf(raw: Json): Result<seq<Comment>>
    decreases raw, 1
  {
    match raw
    case JArr(xs) => RepliesPrefix(raw, |xs|)
    case JObj(fs) => if fs == [] then Ok([]) else Raised(AttributeError)
    case JStr(s) => if s == [] then Ok([]) else Raised(AttributeError)
    case _ => Raised(TypeError)
  }

  /** The replies built from the first n elements of a list. */
  function RepliesPrefix(raw: Json, n: nat): Result<seq<Comment>>
    requires raw.JArr? && n <= |raw.items|
    decreases raw, 0, n
  {
    if n == 0 then Ok([]) else Combine(RepliesPrefix(raw, n - 1), CommentOf(raw.items[n - 1]))
  }

  /** One step of a collecting loop: an earlier failure stands, then this element's failure, else the value is appended. */
  function Combine<T>(prev: Result<seq<T>>, last: Result<T>): Result<seq<T>>
  {
    var vs :- prev;
    var v :- last;
    Ok(vs + [v])
  }

  /** The first n replies succeed exactly when each of the first n elements parses, one reply per element, in order. */
  lemma RepliesPrefixOneToOne(raw: Json, n: nat)
    requires raw.JArr? && n <= |raw.items|
    ensures RepliesPrefix(raw, n).Ok? <==> forall i :: 0 <= i < n ==> CommentOf(raw.items[i]).Ok?
    ensures RepliesPrefix(raw, n).Ok? ==>
      |RepliesPrefix(raw, n).value| == n &&
      forall i :: 0 <= i < n ==> CommentOf(raw.items[i]) == Ok(RepliesPrefix(raw, n).value[i])
  {
    var ps := Parses(raw, n);
    RepliesPrefixCollects(raw, n);
    CollectOneToOne(ps);
    assert forall i :: 0 <= i < n ==> ps[i] == CommentOf(raw.items[i]);
  }

  /** The parses of the first n elements of a list. */
  ghost function Parses(raw: Json, n: nat): (ps: seq<Result<Comment>>)
    requires raw.JArr? && n <= |raw.items|
    ensures |ps| == n && forall i :: 0 <= i < n ==> ps[i] == CommentOf(raw.items[i])
  {
    seq(n, i requires 0 <= i < n => CommentOf(raw.items[i]))
  }

  /** Results collected in order: the first failure, or every value. */
  function Collect<T>(rs: seq<Result<T>>): Result<seq<T>>
  {
    if rs == [] then Ok([]) else Combine(Collect(rs[..|rs| - 1]), rs[|rs| - 1])
  }

  /** Collecting succeeds exactly when every result does, and then keeps each value at its position. */
  lemma {:induction false} CollectOneToOne<T>(rs: seq<Result<T>>)
    ensures Collect(rs).Ok? <==> forall i :: 0 <= i < |rs| ==> rs[i].Ok?
    ensures Collect(rs).Ok? ==> |Collect(rs).value| == |rs| && forall i :: 0 <= i < |rs| ==> rs[i] == Ok(Collect(rs).value[i])
  {
    if rs != [] {
      var init := rs[..|rs| - 1];
      CollectOneToOne(init);
      assert forall i :: 0 <= i < |init| ==> init[i] == rs[i];
      if Collect(init).Ok? && rs[|rs| - 1].Ok? {
        var all := Collect(rs).value;
        assert all == Collect(init).value + [rs[|rs| - 1].value];
        forall i | 0 <= i < |rs|
          ensures rs[i] == Ok(all[i])
        {
          if i < |init| {
            assert all[i] == Collect(init).value[i];
          }
        }
      } else if Collect(init).Raised? {
        var i :| 0 <= i < |init| && !init[i].Ok?;
        assert !rs[i].Ok?;
      }
    }
  }

  /** The first n replies are the parses of the first n elements, collected. */
  lemma {:induction false} RepliesPrefixCollects(raw: Json, n: nat)
    requires raw.JArr? && n <= |raw.items|
    ensures RepliesPrefix(raw, n) == Collect(Parses(raw, n))
  {
    if n > 0 {
      RepliesPrefixCollects(raw, n - 1);
      var ps := Parses(raw, n);
      assert ps[..n - 1] == Parses(raw, n - 1);
      assert Collect(ps) == Combine(Collect(Parses(raw, n - 1)), ps[n - 1]);
    }
  }

  /**
   * `sub_comments` holds exactly one comment per element the value yields,
   * each built by the same from_dict, in order; a failure in any element fails
   * the whole list.
   */
  lemma RepliesOneToOne(raw: Json)
    ensures RepliesOf(raw).Ok? <==>
      Iterate(raw).Ok? && forall i :: 0 <= i < |Iterate(raw).value| ==> CommentOf(Iterate(raw).value[i]).Ok?
    ensures RepliesOf(raw).Ok? ==>
      |RepliesOf(raw).value| == |Iterate(raw).value| &&
      forall i :: 0 <= i < |Iterate(raw).value| ==> CommentOf(Iterate(raw).value[i]) == Ok(RepliesOf(raw).value[i])
  {
    match raw
    case JArr(xs) => RepliesPrefixOneToOne(raw, |xs|);
    case JObj(fs) =>
      if fs != [] {
        assert CommentOf(Iterate(raw).value[0]).Raised?;
      }
    case JStr(s) =>
      if s != [] {
        assert CommentOf(Iterate(raw).value[0]).Raised?;
      }
    case _ =>
  }

  /** A failing prefix of the replies makes the whole list fail with the same error. */
  lemma {:induction false} RepliesPrefixFails(raw: Json, n: nat, m: nat)
    requires raw.JArr? && n <= m <= |raw.items| && RepliesPrefix(raw, n).Raised?
    ensures RepliesPrefix(raw, m) == RepliesPrefix(raw, n)
    decreases m
  {
    if n < m {
      RepliesPrefixFails(raw, n, m - 1);
    }
  }

  /** What a successful from_dict copies, defaults and converts. */
  lemma CommentFields(data: Json)
    requires CommentOf(data).Ok?
    ensures data.JObj?
    ensures var c := CommentOf(data).value;
      && UserInfoModel.CopiedOrDefault(data, "id", JStr(""), c.commentId)
      && UserInfoModel.CopiedOrDefault(data, "content", JStr(""), c.content)
      && UserInfoModel.CopiedOrDefault(data, "ip_location", JStr("未知"), c.ipLocation)
      && ToInt(DictGet(data.fields, "like_count", JInt(0))) == Ok(c.likeCount)
      && ToInt(DictGet(data.fields, "sub_comment_count", JInt(0))) == Ok(c.subCommentCount)
      && c.createTime == None
      && UserInfoModel.FromDict(DictGet(data.fields, "user_info", JObj([]))) == Ok(c.userInfo)
      && AudioInfoModel.FromDict(DictGet(data.fields, "audio_info", JNull)) == Ok(c.audioInfo)
      && PicturesOf(data.fields) == Ok(c.pictures)
  {
    CommentScalars(data);
    CommentParts(data);
  }

  /** A successful from_dict: every step succeeds, and the comment is assembled from their values. */
  lemma CommentOfSteps(data: Json)
    requires CommentOf(data).Ok?
    ensures data.JObj?
    ensures var fs := data.fields;
      var user := UserInfoModel.FromDict(DictGet(fs, "user_info", JObj([])));
      var audio := AudioInfoModel.FromDict(DictGet(fs, "audio_info", JNull));
      var pictures := PicturesOf(fs);
      var k := KeyIndex(fs, "sub_comments");
      var replies := if k < 0 then Ok([]) else RepliesOf(fs[k].1);
      var t := KeyIndex(fs, "target_comment");
      var target := if t >= 0 && Truthy(fs[t].1) then AsTarget(CommentOf(fs[t].1)) else Ok(None);
      var likes := ToInt(DictGet(fs, "like_count", JInt(0)));
      var subCount := ToInt(DictGet(fs, "sub_comment_count", JInt(0)));
      && user.Ok? && audio.Ok? && pictures.Ok? && replies.Ok? && target.Ok? && likes.Ok? && subCount.Ok?
      && CommentOf(data) == Ok(Comment(
        DictGet(fs, "id", JStr("")), DictGet(fs, "content", JStr("")), user.value, likes.value,
        DictGet(fs, "ip_location", JStr("未知")), subCount.value, None, audio.value, pictures.value,
        replies.value, target.value))
  {
    var fs := data.fields;
    var user := UserInfoModel.FromDict(DictGet(fs, "user_info", JObj([])));
    assert user.Ok?;
    var audio := AudioInfoModel.FromDict(DictGet(fs, "audio_info", JNull));
    assert audio.Ok?;
    var pictures := PicturesOf(fs);
    assert pictures.Ok?;
    var k := KeyIndex(fs, "sub_comments");
    var replies := if k < 0 then Ok([]) else RepliesOf(fs[k].1);
    assert replies.Ok?;
    var t := KeyIndex(fs, "target_comment");
    var target := if t >= 0 && Truthy(fs[t].1) then AsTarget(CommentOf(fs[t].1)) else Ok(None);
    assert target.Ok?;
  }

  /** The copied and converted scalar fields of a successful from_dict. */
  lemma CommentScalars(data: Json)
    requires CommentOf(data).Ok?
    ensures data.JObj?
    ensures var c := CommentOf(data).value;
      && UserInfoModel.CopiedOrDefault(data, "id", JStr(""), c.commentId)
      && UserInfoModel.CopiedOrDefault(data, "content", JStr(""), c.content)
      && UserInfoModel.CopiedOrDefault(data, "ip_location", JStr("未知"), c.ipLocation)
      && ToInt(DictGet(data.fields, "like_count", JInt(0))) == Ok(c.likeCount)
      && ToInt(DictGet(data.fields, "sub_comment_count", JInt(0))) == Ok(c.subCommentCount)
      && c.createTime == None
  {
    CommentOfSteps(data);
  }

  /** The nested user, audio and picture parts of a successful from_dict. */
  lemma CommentParts(data: Json)
    requires CommentOf(data).Ok?
    ensures data.JObj?
    ensures var c := CommentOf(data).value;
      && UserInfoModel.FromDict(DictGet(data.fields, "user_info", JObj([]))) == Ok(c.userInfo)
      && AudioInfoModel.FromDict(DictGet(data.fields, "audio_info", JNull)) == Ok(c.audioInfo)
      && PicturesOf(data.fields) == Ok(c.pictures)
  {
    CommentOfSteps(data);
  }

  /** Anything but a dict raises AttributeError; an unconvertible counter raises and so drops the comment. */
  lemma CommentFailures(data: Json)
    ensures !data.JObj? ==> CommentOf(data) == Raised(AttributeError)
    ensures data.JObj? && ToInt(DictGet(data.fields, "like_count", JInt(0))).Raised? ==> CommentOf(data).Raised?
    ensures data.JObj? && ToInt(DictGet(data.fields, "sub_comment_count", JInt(0))).Raised? ==> CommentOf(data).Raised?
  {
  }

  /**
   * `sub_comments` comes from that key alone and `target_comment` from its own
   * key: the target is set exactly when its key holds a truthy value, is parsed
   * by the same from_dict, and never lands among the replies.
   */
  lemma RepliesAndTarget(data: Json)
    requires CommentOf(data).Ok?
    ensures data.JObj?
    ensures var c := CommentOf(data).value;
      && (HasKey(data, "sub_comments") ==> RepliesOf(Field(data, "sub_comments")) == Ok(c.subComments))
      && (!HasKey(data, "sub_comments") ==> c.subComments == [])
      && (c.targetComment.Some? <==> HasKey(data, "target_comment") && Truthy(Field(data, "target_comment")))
      && (c.targetComment.Some? ==> CommentOf(Field(data, "target_comment")) == Ok(c.targetComment.value))
  {
    RepliesField(data);
    TargetField(data);
  }

  /** The replies of a successful from_dict come from `sub_comments` alone. */
  lemma RepliesField(data: Json)
    requires CommentOf(data).Ok?
    ensures data.JObj?
    ensures var c := CommentOf(data).value;
      && (HasKey(data, "sub_comments") ==> RepliesOf(Field(data, "sub_comments")) == Ok(c.subComments))
      && (!HasKey(data, "sub_comments") ==> c.subComments == [])
  {
    CommentOfSteps(data);
  }

  /** The target of a successful from_dict is the parse of a truthy `target_comment`. */
  lemma TargetField(data: Json)
    requires CommentOf(data).Ok?
    ensures data.JObj?
    ensures var c := CommentOf(data).value;
      && (c.targetComment.Some? <==> HasKey(data, "target_comment") && Truthy(Field(data, "target_comment")))
      && (c.targetComment.Some? ==> CommentOf(Field(data, "target_comment")) == Ok(c.targetComment.value))
  {
    CommentOfSteps(data);
  }

  /** A failing reply fails its parent. */
  lemma ReplyFailureFailsParent(data: Json)
    requires HasKey(data, "sub_comments") && RepliesOf(Field(data, "sub_comments")).Raised?
    ensures CommentOf(data).Raised?
  {
    if CommentOf(data).Ok? {
      RepliesAndTarget(data);
    }
  }

  /** A dict with a non-empty url_default contributes it. */
  lemma UrlDefaultExample(a: string)
    requires a != []
    ensures PictureUrl(JObj([("url_default", JStr(a))])) == Ok(Some(JStr(a)))
  {
    FieldAt([("url_default", JStr(a))], 0, "url_default");
  }

  /** A dict with only a non-empty info.url contributes that. */
  lemma InfoUrlExample(b: string)
    requires b != []
    ensures PictureUrl(JObj([("info", JObj([("url", JStr(b))]))])) == Ok(Some(JStr(b)))
  {
    var fs := [("info", JObj([("url", JStr(b))]))];
    NoField(fs, "url_default");
    NoField(fs, "url");
    NoField(fs, "url_pre");
    FieldAt(fs, 0, "info");
    FieldAt([("url", JStr(b))], 0, "url");
  }

  /**
   * The worked example of the probing rules: a url_default dict and an
   * info.url dict give the two URLs, in order (for instance "http://a" and
   * "http://b").
   */
  lemma PicturesExample(a: string, b: string)
    requires a != [] && b != []
    ensures CollectPictures([JObj([("url_default", JStr(a))]), JObj([("info", JObj([("url", JStr(b))]))])]) == Ok([JStr(a), JStr(b)])
  {
    var p0 := JObj([("url_default", JStr(a))]);
    var p1 := JObj([("info", JObj([("url", JStr(b))]))]);
    UrlDefaultExample(a);
    InfoUrlExample(b);
    var none: seq<Json> := [];
    CollectPicturesSnoc(none, p0, none, Some(JStr(a)));
    assert none + [p0] == [p0] && none + [JStr(a)] == [JStr(a)];
    assert [p0] + [p1] == [p0, p1];
    CollectPicturesSnoc([p0], p1, [JStr(a)], Some(JStr(b)));
    assert [JStr(a)] + [JStr(b)] == [JStr(a), JStr(b)];
  }

  /** Comment.from_dict: builds the pictures and replies by loops, recursing into replies and the target. */
  method FromDict(data: Json) returns (r: Result<Comment>)
    ensures r == CommentOf(data)
    decreases data, 1
  {
    if !data.JObj? {
      return Raised(AttributeError);
    }
    var fs := data.fields;
    var user := UserInfoModel.FromDict(DictGet(fs, "user_info", JObj([])));
    if user.Raised? {
      return Raised(user.error);
    }
    var audio := AudioInfoModel.FromDict(DictGet(fs, "audio_info", JNull));
    if audio.Raised? {
      return Raised(audio.error);
    }

    var pictures := Pictures(fs);
    if pictures.Raised? {
      return Raised(pictures.error);
    }
    var replies := Replies(data);
    if replies.Raised? {
      return Raised(replies.error);
    }

    var target: Option<Comment> := None;
    var t := KeyIndex(fs, "target_comment");
    if t >= 0 && Truthy(fs[t].1) {
      var tc := FromDict(fs[t].1);
      if tc.Raised? {
        return Raised(tc.error);
      }
      target := Some(tc.value);
    }

    var likes := ToInt(DictGet(fs, "like_count", JInt(0)));
    if likes.Raised? {
      return Raised(likes.error);
    }
    var subCount := ToInt(DictGet(fs, "sub_comment_count", JInt(0)));
    if subCount.Raised? {
      return Raised(subCount.error);
    }
    r := Ok(Comment(
      DictGet(fs, "id", JStr("")), DictGet(fs, "content", JStr("")), user.value, likes.value,
      DictGet(fs, "ip_location", JStr("未知")), subCount.value, None, audio.value, pictures.value, replies.value, target));
  }

  /** The pictures loop of from_dict: only a truthy `pictures` value is iterated, and one failing entry fails the comment. */
  method Pictures(fs: seq<(string, Json)>) returns (r: Result<seq<Json>>)
    ensures r == PicturesOf(fs)
  {
    var p := KeyIndex(fs, "pictures");
    if p < 0 || !Truthy(fs[p].1) {
      return Ok([]);
    }
    var iterated := Iterate(fs[p].1);
    if iterated.Raised? {
      return Raised(iterated.error);
    }
    var items := iterated.value;
    var pictures: seq<Json> := [];
    var i := 0;
    while i < |items|
      invariant 0 <= i <= |items|
      invariant CollectPictures(items[..i]) == Ok(pictures)
    {
      assert items[..i + 1][..i] == items[..i];
      assert items[..i + 1][i] == items[i];
      var url := PictureUrl(items[i]);
      if url.Raised? {
        CollectPicturesPrefixFails(items, i + 1);
        return Raised(url.error);
      }
      var next := pictures + (if url.value.Some? then [url.value.value] else []);
      assert CollectPictures(items[..i + 1]) == Ok(next);
      pictures := next;
      i := i + 1;
    }
    assert items[..i] == items;
    r := Ok(pictures);
  }

  /** The replies loop of from_dict: each element of `sub_comments` parsed by from_dict itself, in order. */
  method Replies(data: Json) returns (r: Result<seq<Comment>>)
    requires data.JObj?
    ensures var k := KeyIndex(data.fields, "sub_comments"); r == if k < 0 then Ok([]) else RepliesOf(data.fields[k].1)
    decreases data, 0
  {
    var k := KeyIndex(data.fields, "sub_comments");
    if k < 0 {
      return Ok([]);
    }
    var raw := data.fields[k].1;
    assert raw < data;
    var iterated := Iterate(raw);
    if iterated.Raised? {
      return Raised(iterated.error);
    }
    if !raw.JArr? {
      if iterated.value != [] {
        // every key or character yielded is a str, which has no get method
        return Raised(AttributeError);
      }
      return Ok([]);
    }
    var replies: seq<Comment> := [];
    var i := 0;
    while i < |raw.items|
      invariant 0 <= i <= |raw.items|
      invariant RepliesPrefix(raw, i) == Ok(replies)
    {
      assert raw.items[i] < raw;
      var c := FromDict(raw.items[i]);
      if c.Raised? {
        RepliesPrefixFails(raw, i + 1, |raw.items|);
        return Raised(c.error);
      }
      replies := replies + [c.value];
      i := i + 1;
    }
    r := Ok(replies);
  }

  /** Comment.to_dict: six keys, with a nested author dict holding only the id and the nickname. */
  function ToDict(c: Comment): (d: Json)
    ensures d.JObj?
  {
    JObj([
      ("comment_id", c.commentId),
      ("content", c.content),
      ("user_info", JObj([("user_id", c.userInfo.userId), ("nickname", c.userInfo.nickname)])),
      ("like_count", JInt(c.likeCount)),
      ("ip_location", c.ipLocation),
      ("sub_comment_count", JInt(c.subCommentCount))])
  }

  /** to_dict has exactly the six keys, in this order. */
  lemma ToDictKeys(c: Comment)
    ensures Keys(ToDict(c).fields) == [JStr("comment_id"), JStr("content"), JStr("user_info"), JStr("like_count"), JStr("ip_location"), JStr("sub_comment_count")]
  {
  }

  /** Each key of to_dict holds its field unchanged; the nested author dict holds only the id and the nickname. */
  lemma ToDictFields(c: Comment)
    ensures HasKey(ToDict(c), "comment_id") && Field(ToDict(c), "comment_id") == c.commentId
    ensures HasKey(ToDict(c), "content") && Field(ToDict(c), "content") == c.content
    ensures HasKey(ToDict(c), "user_info") && Field(ToDict(c), "user_info") == JObj([("user_id", c.userInfo.userId), ("nickname", c.userInfo.nickname)])
    ensures HasKey(ToDict(c), "like_count") && Field(ToDict(c), "like_count") == JInt(c.likeCount)
    ensures HasKey(ToDict(c), "ip_location") && Field(ToDict(c), "ip_location") == c.ipLocation
    ensures HasKey(ToDict(c), "sub_comment_count") && Field(ToDict(c), "sub_comment_count") == JInt(c.subCommentCount)
  {
    var fs := ToDict(c).fields;
    FieldAt(fs, 0, "comment_id");
    FieldAt(fs, 1, "content");
    FieldAt(fs, 2, "user_info");
    FieldAt(fs, 3, "like_count");
    FieldAt(fs, 4, "ip_location");
    FieldAt(fs, 5, "sub_comment_count");
  }

  /** The lookups from_dict makes on a to_dict result. */
  lemma ToDictLookups(c: Comment)
    ensures var fs := ToDict(c).fields;
      && DictGet(fs, "user_info", JObj([])) == JObj([("user_id", c.userInfo.userId), ("nickname", c.userInfo.nickname)])
      && DictGet(fs, "content", JStr("")) == c.content
      && DictGet(fs, "like_count", JInt(0)) == JInt(c.likeCount)
      && DictGet(fs, "ip_location", JStr("未知")) == c.ipLocation
      && DictGet(fs, "sub_comment_count", JInt(0)) == JInt(c.subCommentCount)
      && DictGet(fs, "id", JStr("")) == JStr("")
      && DictGet(fs, "audio_info", JNull) == JNull
      && KeyIndex(fs, "pictures") < 0 && KeyIndex(fs, "sub_comments") < 0 && KeyIndex(fs, "target_comment") < 0
  {
    ToDictFields(c);
    ToDictLacks(c);
  }

  /** The keys from_dict reads that to_dict never writes. */
  lemma ToDictLacks(c: Comment)
    ensures var fs := ToDict(c).fields;
      && KeyIndex(fs, "id") < 0 && KeyIndex(fs, "audio_info") < 0
      && KeyIndex(fs, "pictures") < 0 && KeyIndex(fs, "sub_comments") < 0 && KeyIndex(fs, "target_comment") < 0
  {
    var fs := ToDict(c).fields;
    NoField(fs, "id");
    NoField(fs, "audio_info");
    NoField(fs, "pictures");
    NoField(fs, "sub_comments");
    NoField(fs, "target_comment");
  }

  /**
   * Reading a to_dict result back with from_dict keeps the content, the
   * author's id and nickname, both counters and the location; the id comes back
   * as "" because to_dict writes it under "comment_id" while from_dict reads "id".
   */
  lemma ToDictReadBack(c: Comment)
    ensures CommentOf(ToDict(c)) == Ok(Comment(
      JStr(""), c.content, UserInfoModel.UserInfo(c.userInfo.userId, c.userInfo.nickname, JStr("")),
      c.likeCount, c.ipLocation, c.subCommentCount, None, None, [], [], None))
  {
    ToDictLookups(c);
    AuthorReadBack(c.userInfo);
  }

  /** The nested author dict to_dict writes reads back with the avatar defaulted. */
  lemma AuthorReadBack(u: UserInfoModel.UserInfo)
    ensures UserInfoModel.FromDict(JObj([("user_id", u.userId), ("nickname", u.nickname)]))
      == Ok(UserInfoModel.UserInfo(u.userId, u.nickname, JStr("")))
  {
    var fs := [("user_id", u.userId), ("nickname", u.nickname)];
    FieldAt(fs, 0, "user_id");
    FieldAt(fs, 1, "nickname");
    NoField(fs, "avatar");
  }
}
