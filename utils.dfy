/**
 * The helpers of utils.py: the comment-API response parser and the comment
 * formatter (CommentParser), the note-id extractor (URLExtractor) and the
 * publish-content check (DataValidator).
 */
module CommentParser {
  import opened Wrappers
  import opened PyJson
  import Text
  import CommentModel

  type Comment = CommentModel.Comment

  /** The payload the parser works on: `root['data']` when the root has `data`, otherwise the root itself. */
  function Payload(root: Json): Result<Json>
  {
    var hasData :- In("data", root);
    if hasData then Index(root, "data") else Ok(root)
  }

  /** The elements the parser iterates: none when the payload lacks `comments`, else whatever `get('comments')` yields. */
  function ItemsOf(data: Json): Result<seq<Json>>
  {
    var hasComments :- In("comments", data);
    if !hasComments then Ok([])
    else
      var list :- Get(data, "comments", JArr([]));
      Iterate(list)
  }

  /** The comments built from the iterated elements, skipping each element whose from_dict raises. */
  function Harvest(items: seq<Json>): (cs: seq<Comment>)
    ensures |cs| <= |items|
  {
    if items == [] then [] else Harvest(items[..|items| - 1]) + Keep(CommentModel.CommentOf(items[|items| - 1]))
  }

  /** What one element contributes: its comment, or nothing when from_dict raised. */
  function Keep<T>(r: Result<T>): (kept: seq<T>)
    ensures |kept| <= 1
  {
    match r
    case Ok(c) => [c]
    case Raised(_) => []
  }

  /**
   * CommentParser.parse_response over the decoded body (None when the body is
   * not valid JSON): every envelope-level failure gives the empty list.
   */
  function ParsedComments(decoded: Option<Json>): seq<Comment>
  {
    match decoded
    case None => []
    case Some(root) =>
      match Payload(root)
      case Raised(_) => []
      case Ok(data) =>
        match ItemsOf(data)
        case Raised(_) => []
        case Ok(items) => Harvest(items)
  }

  /** The comments of an already selected payload. */
  function PayloadComments(data: Json): seq<Comment>
  {
    match ItemsOf(data)
    case Raised(_) => []
    case Ok(items) => Harvest(items)
  }

  /** A root with a `data` key is parsed through `root['data']` only: there is no fallback to the root. */
  lemma DataWithoutFallback(root: Json)
    requires HasKey(root, "data")
    ensures ParsedComments(Some(root)) == PayloadComments(Field(root, "data"))
  {
  }

  /**
   * The fallback really is absent: comments sitting next to an empty `data`
   * dict are not parsed.
   */
  lemma DataShadowsRootComments(elems: seq<Json>)
    ensures ParsedComments(Some(JObj([("data", JObj([])), ("comments", JArr(elems))]))) == []
  {
    var root := JObj([("data", JObj([])), ("comments", JArr(elems))]);
    FieldAt(root.fields, 0, "data");
    NoField([], "comments");
  }

  /** A payload without `comments` gives the empty list, as does text that is not JSON. */
  lemma NoCommentsKey(root: Json)
    requires Payload(root).Ok? && Payload(root).value.JObj? && !HasKey(Payload(root).value, "comments")
    ensures ParsedComments(Some(root)) == [] && ParsedComments(None) == []
  {
  }

  /** Harvesting distributes over concatenation. */
  lemma {:induction false} HarvestAppend(a: seq<Json>, b: seq<Json>)
    ensures Harvest(a + b) == Harvest(a) + Harvest(b)
    decreases |b|
  {
    if b == [] {
      assert a + b == a;
    } else {
      var init := b[..|b| - 1];
      assert (a + b)[..|a + b| - 1] == a + init;
      assert (a + b)[|a + b| - 1] == b[|b| - 1];
      HarvestAppend(a, init);
    }
  }

  /** A failing element is skipped and the elements around it are all kept. */
  lemma SkipsFailingElement(before: seq<Json>, bad: Json, after: seq<Json>)
    requires CommentModel.CommentOf(bad).Raised?
    ensures Harvest(before + [bad] + after) == Harvest(before) + Harvest(after)
  {
    HarvestAppend(before + [bad], after);
    var withBad := before + [bad];
    assert withBad[..|withBad| - 1] == before;
    assert withBad[|withBad| - 1] == bad;
    assert Harvest(withBad) == Harvest(before);
  }

  /** When every element parses, the result has one comment per element, in order. */
  lemma HarvestAllParse(items: seq<Json>)
    requires forall i :: 0 <= i < |items| ==> CommentModel.CommentOf(items[i]).Ok?
    ensures |Harvest(items)| == |items|
    ensures forall i :: 0 <= i < |items| ==> CommentModel.CommentOf(items[i]) == Ok(Harvest(items)[i])
  {
    var ps := ParseEach(items);
    HarvestKeeps(items);
    KeptAllOk(ps);
  }

  /** from_dict of each element. */
  ghost function ParseEach(items: seq<Json>): (ps: seq<Result<Comment>>)
    ensures |ps| == |items| && forall i :: 0 <= i < |items| ==> ps[i] == CommentModel.CommentOf(items[i])
  {
    seq(|items|, i requires 0 <= i < |items| => CommentModel.CommentOf(items[i]))
  }

  /** The values kept from a run of results, in order. */
  function Kept<T>(rs: seq<Result<T>>): seq<T>
  {
    if rs == [] then [] else Kept(rs[..|rs| - 1]) + Keep(rs[|rs| - 1])
  }

  /** Keeping from results that all succeeded keeps one value per result, at its position. */
  lemma {:induction false} KeptAllOk<T>(rs: seq<Result<T>>)
    requires forall i :: 0 <= i < |rs| ==> rs[i].Ok?
    ensures |Kept(rs)| == |rs| && forall i :: 0 <= i < |rs| ==> rs[i] == Ok(Kept(rs)[i])
  {
    if rs != [] {
      var init := rs[..|rs| - 1];
      assert forall i :: 0 <= i < |init| ==> init[i] == rs[i];
      KeptAllOk(init);
      var all := Kept(rs);
      assert all == Kept(init) + [rs[|rs| - 1].value];
      forall i | 0 <= i < |rs|
        ensures rs[i] == Ok(all[i])
      {
        if i < |init| {
          assert all[i] == Kept(init)[i];
        }
      }
    }
  }

  /** Harvesting keeps the parses of the elements. */
  lemma {:induction false} HarvestKeeps(items: seq<Json>)
    ensures Harvest(items) == Kept(ParseEach(items))
  {
    if items != [] {
      var init := items[..|items| - 1];
      HarvestKeeps(init);
      var ps := ParseEach(items);
      assert ps[..|ps| - 1] == ParseEach(init);
      assert Kept(ps) == Kept(ParseEach(init)) + Keep(ps[|ps| - 1]);
    }
  }

  /** Every harvested comment is the parse of some element. */
  lemma {:induction false} HarvestFromElements(items: seq<Json>)
    ensures forall c :: c in Harvest(items) ==> exists i :: 0 <= i < |items| && CommentModel.CommentOf(items[i]) == Ok(c)
  {
    if items != [] {
      var init := items[..|items| - 1];
      HarvestFromElements(init);
      forall c | c in Harvest(items)
        ensures exists i :: 0 <= i < |items| && CommentModel.CommentOf(items[i]) == Ok(c)
      {
        if c in Harvest(init) {
          var i :| 0 <= i < |init| && CommentModel.CommentOf(init[i]) == Ok(c);
          assert items[i] == init[i];
        } else {
          assert CommentModel.CommentOf(items[|items| - 1]) == Ok(c);
        }
      }
    }
  }

  /** CommentParser.parse_response: the envelope checks, then a loop that keeps each comment whose from_dict succeeds. */
  method ParseResponse(decoded: Option<Json>) returns (comments: seq<Comment>)
    ensures comments == ParsedComments(decoded)
  {
    if decoded.None? {
      return [];
    }
    var data := Payload(decoded.value);
    if data.Raised? {
      return [];
    }
    var items := ItemsOf(data.value);
    if items.Raised? {
      return [];
    }
    comments := HarvestElements(items.value);
  }

  /** The loop of parse_response: from_dict on each element, keeping the comments that parse. */
  method HarvestElements(elems: seq<Json>) returns (comments: seq<Comment>)
    ensures comments == Harvest(elems)
  {
    comments := [];
    var i := 0;
    while i < |elems|
      invariant 0 <= i <= |elems|
      invariant comments == Harvest(elems[..i])
    {
      var c := CommentModel.FromDict(elems[i]);
      assert elems[..i + 1][..i] == elems[..i];
      assert Harvest(elems[..i + 1]) == Harvest(elems[..i]) + Keep(c);
      if c.Ok? {
        comments := comments + [c.value];
      }
      i := i + 1;
    }
    assert elems[..i] == elems;
  }

  /** The indentation of one formatted comment: two spaces per level. */
  function Indentation(indent: int): string
  {
    Text.Repeat("  ", indent)
  }

  /** The audio lines: present only for a voice comment. */
  function AudioLines(c: Comment, p: string): seq<string>
  {
    match c.audioInfo
    case None => []
    case Some(a) => [p + "[语音评论] " + Str(a.tagText), p + "识别文本: " + Str(a.asrText)]
  }

  /** The numbered lines of the first n pictures, numbered from 1. */
  function PictureEntries(pics: seq<Json>, p: string, n: nat): (lines: seq<string>)
    requires n <= |pics|
    ensures |lines| == n
  {
    if n == 0 then []
    else PictureEntries(pics, p, n - 1) + [p + "  图片" + Text.IntToString(n) + ": " + Str(pics[n - 1])]
  }

  /** The picture lines: a count header and one numbered line per picture, or nothing without pictures. */
  function PictureLines(pics: seq<Json>, p: string): (lines: seq<string>)
  {
    if pics == [] then []
    else [p + "[图片] " + Text.IntToString(|pics|) + " 张图片"] + PictureEntries(pics, p, |pics|)
  }

  /** The six lines every formatted comment starts with. */
  function HeadLines(c: Comment, p: string): seq<string>
  {
    [ p + "用户: " + Str(c.userInfo.nickname),
      p + "内容: " + Str(c.content),
      p + "点赞数: " + Text.IntToString(c.likeCount),
      p + "IP归属地: " + Str(c.ipLocation),
      p + "回复数: " + Text.IntToString(c.subCommentCount),
      p + "评论ID: " + Str(c.commentId) ]
  }

  /** The lines format_comment joins. */
  function CommentLines(c: Comment, indent: int): seq<string>
  {
    var p := Indentation(indent);
    HeadLines(c, p) + AudioLines(c, p) + PictureLines(c.pictures, p)
  }

  /** format_comment's text. */
  function CommentText(c: Comment, indent: int): string
  {
    Text.Join(CommentLines(c, indent), "\n")
  }

  /** Every numbered picture line starts with the indentation. */
  lemma {:induction false} PictureEntriesIndented(pics: seq<Json>, p: string, n: nat)
    requires n <= |pics|
    ensures forall i :: 0 <= i < n ==> p <= PictureEntries(pics, p, n)[i]
  {
    if n > 0 {
      PictureEntriesIndented(pics, p, n - 1);
    }
  }

  /**
   * Every line format_comment emits starts with two spaces per indent level;
   * there are six fixed lines, two more for a voice comment, and a header plus
   * one line per picture when there are pictures.
   */
  lemma CommentLinesShape(c: Comment, indent: int)
    ensures forall i :: 0 <= i < |CommentLines(c, indent)| ==> Indentation(indent) <= CommentLines(c, indent)[i]
    ensures |CommentLines(c, indent)| ==
      6 + (if c.audioInfo.Some? then 2 else 0) + (if c.pictures == [] then 0 else 1 + |c.pictures|)
  {
    var p := Indentation(indent);
    var h, a, q := HeadLines(c, p), AudioLines(c, p), PictureLines(c.pictures, p);
    assert forall i :: 0 <= i < |h| ==> p <= h[i];
    assert forall i :: 0 <= i < |a| ==> p <= a[i];
    PictureLinesIndented(c.pictures, p);
    assert CommentLines(c, indent) == h + a + q;
  }

  /** Every picture line starts with the indentation; there is a header line only when there are pictures. */
  lemma PictureLinesIndented(pics: seq<Json>, p: string)
    ensures forall i :: 0 <= i < |PictureLines(pics, p)| ==> p <= PictureLines(pics, p)[i]
    ensures |PictureLines(pics, p)| == if pics == [] then 0 else 1 + |pics|
  {
    if pics != [] {
      var q, e := PictureLines(pics, p), PictureEntries(pics, p, |pics|);
      PictureEntriesIndented(pics, p, |pics|);
      assert forall i :: 1 <= i < |q| ==> q[i] == e[i - 1];
    }
  }

  /** CommentParser.format_comment: appends the fixed lines, the audio lines and one line per picture, then joins them. */
  method FormatComment(c: Comment, indent: int) returns (s: string)
    ensures s == CommentText(c, indent)
  {
    var p := Text.Repeat("  ", indent);
    var lines := HeadLines(c, p);
    var audio := AudioSection(c, p);
    var pictures := PictureSection(c.pictures, p);
    lines := lines + audio + pictures;
    s := Text.Join(lines, "\n");
  }

  /** The audio part of format_comment: the tag and the recognised text of a voice comment. */
  method AudioSection(c: Comment, p: string) returns (lines: seq<string>)
    ensures lines == AudioLines(c, p)
  {
    lines := [];
    if c.audioInfo.Some? {
      lines := [p + "[语音评论] " + Str(c.audioInfo.value.tagText), p + "识别文本: " + Str(c.audioInfo.value.asrText)];
    }
  }

  /** The picture part of format_comment: the count line, then one numbered line per picture. */
  method PictureSection(pics: seq<Json>, p: string) returns (lines: seq<string>)
    ensures lines == PictureLines(pics, p)
  {
    lines := [];
    if pics != [] {
      var entries := [];
      var idx := 0;
      while idx < |pics|
        invariant 0 <= idx <= |pics|
        invariant entries == PictureEntries(pics, p, idx)
      {
        var line := p + "  图片" + Text.IntToString(idx + 1) + ": " + Str(pics[idx]);
        assert PictureEntries(pics, p, idx + 1) == PictureEntries(pics, p, idx) + [line];
        entries := entries + [line];
        idx := idx + 1;
      }
      lines := [p + "[图片] " + Text.IntToString(|pics|) + " 张图片"] + entries;
    }
  }

  /** "=" * 80 */
  const DoubleRule: string := "================================================================================"

  /** "-" * 80 */
  const SingleRule: string := "--------------------------------------------------------------------------------"

  /** The three header lines of a non-empty listing. */
  function HeaderLines(count: int): seq<string>
  {
    ["\n" + DoubleRule, "共获取到 " + Text.IntToString(count) + " 条评论", DoubleRule + "\n"]
  }

  /** The reply-to line of a reply that has a target; the nickname is always available since a UserInfo is always truthy. */
  function TargetLines(reply: Comment): seq<string>
  {
    match reply.targetComment
    case None => []
    case Some(t) =>
      var targetId := if Truthy(t.commentId) then Str(t.commentId) else "未知";
      ["    回复给: @" + Str(t.userInfo.nickname) + " (ID: " + targetId + ")"]
  }

  /** The lines of one reply: its number, its text formatted at indent level 2, and its reply-to line. */
  function ReplyEntry(reply: Comment, number: int): seq<string>
  {
    ["\n  [回复 " + Text.IntToString(number) + "]", CommentText(reply, 2)] + TargetLines(reply)
  }

  /** The lines of the first n replies, numbered from 1. */
  function ReplyEntries(replies: seq<Comment>, n: nat): seq<string>
    requires n <= |replies|
  {
    if n == 0 then [] else ReplyEntries(replies, n - 1) + ReplyEntry(replies[n - 1], n)
  }

  /** The reply section of a comment: a count header and the numbered replies, or nothing without replies. */
  function ReplyLines(c: Comment): seq<string>
  {
    if c.subComments == [] then []
    else ["\n  --- 回复列表 (" + Text.IntToString(|c.subComments|) + " 条) ---"] + ReplyEntries(c.subComments, |c.subComments|)
  }

  /** The block of one comment in the listing, numbered from 1. */
  function Block(c: Comment, number: int): (lines: seq<string>)
    ensures |lines| >= 3
  {
    ["[评论 " + Text.IntToString(number) + "]", CommentText(c, 0)] + ReplyLines(c) + ["\n" + SingleRule + "\n"]
  }

  /** The blocks of the first n comments. */
  function Blocks(cs: seq<Comment>, n: nat): (lines: seq<string>)
    requires n <= |cs|
    ensures |lines| >= 3 * n
  {
    if n == 0 then [] else Blocks(cs, n - 1) + Block(cs[n - 1], n)
  }

  /** format_comments' text. */
  function FormattedComments(cs: seq<Comment>): string
  {
    if cs == [] then "暂无评论" else Text.Join(HeaderLines(|cs|) + Blocks(cs, |cs|), "\n")
  }

  /** The header of a listing of n comments: a rule, the count line, a rule and an empty line. */
  lemma HeaderText(n: int)
    ensures Text.Join(HeaderLines(n), "\n") == "\n" + DoubleRule + "\n" + ("共获取到 " + Text.IntToString(n) + " 条评论") + "\n" + (DoubleRule + "\n")
  {
    var h := HeaderLines(n);
    Text.Join3(h[0], h[1], h[2], "\n");
  }

  /**
   * A non-empty listing is the header followed by the comment blocks, each
   * comment numbered from 1; an empty one is exactly "暂无评论".
   */
  lemma FormattedCommentsShape(cs: seq<Comment>)
    ensures cs == [] ==> FormattedComments(cs) == "暂无评论"
    ensures cs != [] ==>
      FormattedComments(cs) == Text.Join(HeaderLines(|cs|), "\n") + "\n" + Text.Join(Blocks(cs, |cs|), "\n")
  {
    if cs != [] {
      Text.JoinAppend(HeaderLines(|cs|), Blocks(cs, |cs|), "\n");
    }
  }

  /** The reply part of format_comments' loop body: the count line, then per reply its number, its text and its reply-to line. */
  method ReplySection(c: Comment) returns (lines: seq<string>)
    ensures lines == ReplyLines(c)
  {
    lines := [];
    if c.subComments != [] {
      var entries := [];
      var j := 0;
      while j < |c.subComments|
        invariant 0 <= j <= |c.subComments|
        invariant entries == ReplyEntries(c.subComments, j)
      {
        var entry := ReplySectionEntry(c.subComments[j], j + 1);
        assert ReplyEntries(c.subComments, j + 1) == ReplyEntries(c.subComments, j) + entry;
        entries := entries + entry;
        j := j + 1;
      }
      lines := ["\n  --- 回复列表 (" + Text.IntToString(|c.subComments|) + " 条) ---"] + entries;
    }
  }

  /** One reply's lines in format_comments. */
  method ReplySectionEntry(reply: Comment, number: int) returns (entry: seq<string>)
    ensures entry == ReplyEntry(reply, number)
  {
    var replyText := FormatComment(reply, 2);
    var target := TargetSection(reply);
    entry := ["\n  [回复 " + Text.IntToString(number) + "]", replyText] + target;
  }

  /** The reply-to line of one reply, naming the target's nickname and id ("未知" for a falsy id). */
  method TargetSection(reply: Comment) returns (lines: seq<string>)
    ensures lines == TargetLines(reply)
  {
    lines := [];
    if reply.targetComment.Some? {
      var target := reply.targetComment.value;
      var targetId := if Truthy(target.commentId) then Str(target.commentId) else "未知";
      lines := ["    回复给: @" + Str(target.userInfo.nickname) + " (ID: " + targetId + ")"];
    }
  }

  /** CommentParser.format_comments: a header, then per comment its block with the numbered replies, joined by newlines. */
  method FormatComments(cs: seq<Comment>) returns (s: string)
    ensures s == FormattedComments(cs)
  {
    if cs == [] {
      return "暂无评论";
    }
    var blocks := [];
    var idx := 0;
    while idx < |cs|
      invariant 0 <= idx <= |cs|
      invariant blocks == Blocks(cs, idx)
    {
      var block := CommentBlock(cs[idx], idx + 1);
      assert Blocks(cs, idx + 1) == Blocks(cs, idx) + block;
      blocks := blocks + block;
      idx := idx + 1;
    }
    s := Text.Join(HeaderLines(|cs|) + blocks, "\n");
  }

  /** One comment's block in format_comments: its number, its text, its replies and a closing rule. */
  method CommentBlock(c: Comment, number: int) returns (lines: seq<string>)
    ensures lines == Block(c, number)
  {
    var text := FormatComment(c, 0);
    var replies := ReplySection(c);
    lines := ["[评论 " + Text.IntToString(number) + "]", text] + replies + ["\n" + SingleRule + "\n"];
  }
}

module UrlExtractor {
  import opened Wrappers

  const Marker: string := "/explore/"

  /** A character of the class [a-f0-9]. */
  predicate IsNoteIdChar(c: char)
  {
    ('0' <= c <= '9') || ('a' <= c <= 'f')
  }

  /** The pattern /explore/([a-f0-9]+) matches at offset i: the marker followed by at least one id character. */
  predicate MatchAt(url: string, i: int)
  {
    0 <= i && i + |Marker| < |url| && url[i..i + |Marker|] == Marker && IsNoteIdChar(url[i + |Marker|])
  }

  /** The end of the run of id characters starting at j. */
  function RunEnd(url: string, j: nat): (e: nat)
    requires j <= |url|
    ensures j <= e <= |url|
    ensures forall k :: j <= k < e ==> IsNoteIdChar(url[k])
    ensures e == |url| || !IsNoteIdChar(url[e])
    decreases |url| - j
  {
    if j < |url| && IsNoteIdChar(url[j]) then RunEnd(url, j + 1) else j
  }

  /** The first offset at or after i where the pattern matches, or -1. */
  function MatchFrom(url: string, i: nat): (k: int)
    ensures k == -1 || (i <= k && MatchAt(url, k))
    ensures forall m :: i <= m && (k == -1 || m < k) ==> !MatchAt(url, m)
    decreases |url| - i
  {
    if i + |Marker| >= |url| then -1
    else if MatchAt(url, i) then i
    else MatchFrom(url, i + 1)
  }

  /**
   * URLExtractor.extract_note_id, as re.search(r'/explore/([a-f0-9]+)', url):
   * None exactly when the pattern matches nowhere; otherwise the whole run of
   * id characters after the leftmost match.
   */
  function ExtractNoteId(url: string): (r: Option<string>)
    ensures r.None? <==> forall i :: !MatchAt(url, i)
    ensures r.Some? ==>
      exists i :: MatchAt(url, i) && (forall m :: 0 <= m < i ==> !MatchAt(url, m)) &&
        r.value == url[i + |Marker|..RunEnd(url, i + |Marker|)]
    ensures r.Some? ==> |r.value| >= 1 && forall k :: 0 <= k < |r.value| ==> IsNoteIdChar(r.value[k])
  {
    var k := MatchFrom(url, 0);
    if k < 0 then None
    else
      var e := RunEnd(url, k + |Marker|);
      var id := url[k + |Marker|..e];
      assert forall j :: 0 <= j < |id| ==> id[j] == url[k + |Marker| + j];
      Some(id)
  }

  /** A run of id characters that stops at the end or at a non-id character is the run RunEnd finds. */
  lemma {:induction false} RunEndAt(url: string, j: nat, e: nat)
    requires j <= e <= |url|
    requires forall k :: j <= k < e ==> IsNoteIdChar(url[k])
    requires e == |url| || !IsNoteIdChar(url[e])
    ensures RunEnd(url, j) == e
    decreases e - j
  {
    if j < e {
      RunEndAt(url, j + 1, e);
    }
  }

  /**
   * The id after the first "/explore/" that is followed by an id character is
   * extracted whole: all of its characters, up to the first non-id character.
   */
  lemma ExtractsFirstId(prefix: string, id: string, rest: string)
    requires forall i :: !MatchAt(prefix + Marker, i)
    requires id != [] && forall k :: 0 <= k < |id| ==> IsNoteIdChar(id[k])
    requires rest == [] || !IsNoteIdChar(rest[0])
    ensures ExtractNoteId(prefix + Marker + id + rest) == Some(id)
  {
    var url := prefix + Marker + id + rest;
    var start := |prefix| + |Marker|;
    LeftmostMatch(prefix, id, rest);
    var k := MatchFrom(url, 0);
    assert k == |prefix|;
    WholeRun(prefix, id, rest);
  }

  /** The marker after the prefix is the leftmost match. */
  lemma LeftmostMatch(prefix: string, id: string, rest: string)
    requires forall i :: !MatchAt(prefix + Marker, i)
    requires id != []
    ensures MatchAt(prefix + Marker + id + rest, |prefix|) == IsNoteIdChar(id[0])
    ensures forall j :: 0 <= j < |prefix| ==> !MatchAt(prefix + Marker + id + rest, j)
  {
    var url := prefix + Marker + id + rest;
    var pm := prefix + Marker;
    var i := |prefix|;
    var m := |Marker|;
    assert url[i..i + m] == Marker;
    assert url[i + m] == id[0];
    forall j | 0 <= j < i
      ensures !MatchAt(url, j)
    {
      assert url[j..j + m] == pm[j..j + m];
      assert url[j + m] == pm[j + m];
      assert !MatchAt(pm, j);
    }
  }

  /** The run of id characters after the marker is exactly the id. */
  lemma WholeRun(prefix: string, id: string, rest: string)
    requires forall k :: 0 <= k < |id| ==> IsNoteIdChar(id[k])
    requires rest == [] || !IsNoteIdChar(rest[0])
    ensures var url := prefix + Marker + id + rest;
      var start := |prefix| + |Marker|;
      RunEnd(url, start) == start + |id| && url[start..start + |id|] == id
  {
    var url := prefix + Marker + id + rest;
    var start := |prefix| + |Marker|;
    var stop := start + |id|;
    assert forall k :: start <= k < stop ==> url[k] == id[k - start];
    assert stop == |url| || url[stop] == rest[0];
    RunEndAt(url, start, stop);
    assert url[start..stop] == id;
  }
}

module DataValidator {
  import Text

  /** The longest title the check accepts. */
  const MaxTitleLength := 100

  /**
   * DataValidator.validate_publish_content: false exactly when the content is
   * empty or whitespace, the title is empty or whitespace, or the title is
   * longer than 100 characters.
   */
  function ValidatePublishContent(content: string, title: string): (ok: bool)
    ensures !ok <==> Text.IsBlank(content) || Text.IsBlank(title) || |title| > MaxTitleLength
  {
    if content == [] || Text.Strip(content) == [] then false
    else if title == [] || Text.Strip(title) == [] then false
    else if |title| > MaxTitleLength then false
    else true
  }
}
