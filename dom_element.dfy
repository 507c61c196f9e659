/** A cached DOM element record (core/models/dom_element.py). */
module DomElementModel {
  import opened Wrappers
  import opened PyJson
  import opened DateTimes

  /** DOMElement: the values read from the dict are kept as they were; only updated_at becomes a datetime. */
  datatype DomElement = DomElement(
    elementId: Json,
    selector: Json,
    elementType: Json,
    position: Json,
    textContent: Json,
    updatedAt: Option<DateTime>,
    pageUrl: Json,
    description: Json)

  /** The fields to_dict writes, in its order. */
  const Keys: seq<string> := ["element_id", "selector", "element_type", "position", "text_content", "updated_at", "page_url", "description"]

  /** DOMElement.to_dict: the eight fields, with updated_at as its ISO text or None. */
  function ToDict(e: DomElement): (d: Json)
    ensures d.JObj? && |d.fields| == |Keys|
    ensures forall k :: 0 <= k < |Keys| ==> d.fields[k].0 == Keys[k]
  {
    JObj([
      ("element_id", e.elementId),
      ("selector", e.selector),
      ("element_type", e.elementType),
      ("position", e.position),
      ("text_content", e.textContent),
      ("updated_at", match e.updatedAt case Some(t) => JStr(t.iso) case None => JNull),
      ("page_url", e.pageUrl),
      ("description", e.description)])
  }

  /** The timestamp from_dict attaches: none for a falsy value or text fromisoformat refuses; a truthy non-string makes it raise TypeError. */
  function UpdatedAt(raw: Json, parseIso: IsoParser): Result<Option<DateTime>>
  {
    if !Truthy(raw) then Ok(None)
    else if raw.JStr? then Ok(parseIso(raw.s))
    else Raised(TypeError)
  }

  /**
   * DOMElement.from_dict: element_id, selector and element_type are
   * required; the other fields default to None; an unparseable timestamp is
   * dropped rather than reported.
   */
  function FromDict(data: Json, parseIso: IsoParser): (r: Result<DomElement>)
    ensures !data.JObj? ==> r == Raised(AttributeError)
    ensures r.Ok? <==>
      && data.JObj?
      && HasKey(data, "element_id") && HasKey(data, "selector") && HasKey(data, "element_type")
      && UpdatedAt(DictGet(data.fields, "updated_at", JNull), parseIso).Ok?
    ensures data.JObj? && UpdatedAt(DictGet(data.fields, "updated_at", JNull), parseIso).Ok? && r.Raised? ==>
      r.error == KeyError
    ensures r.Ok? ==>
      && r.value.elementId == Field(data, "element_id")
      && r.value.selector == Field(data, "selector")
      && r.value.elementType == Field(data, "element_type")
      && r.value.position == DictGet(data.fields, "position", JNull)
      && r.value.textContent == DictGet(data.fields, "text_content", JNull)
      && r.value.pageUrl == DictGet(data.fields, "page_url", JNull)
      && r.value.description == DictGet(data.fields, "description", JNull)
  {
    match data
    case JObj(fs) =>
      var updated :- UpdatedAt(DictGet(fs, "updated_at", JNull), parseIso);
      var id :- Index(data, "element_id");
      var selector :- Index(data, "selector");
      var kind :- Index(data, "element_type");
      Ok(DomElement(id, selector, kind, DictGet(fs, "position", JNull), DictGet(fs, "text_content", JNull),
        updated, DictGet(fs, "page_url", JNull), DictGet(fs, "description", JNull)))
    case _ => Raised(AttributeError)
  }

  /** The parser reads back what isoformat writes for this element's timestamp, and that text is never empty. */
  predicate ReadsOwnTimestamp(e: DomElement, parseIso: IsoParser)
  {
    e.updatedAt.Some? ==> e.updatedAt.value.iso != "" && parseIso(e.updatedAt.value.iso) == e.updatedAt
  }

  /** from_dict(to_dict(e)) gives e back whenever fromisoformat reads back isoformat's text. */
  lemma RoundTrip(e: DomElement, parseIso: IsoParser)
    requires ReadsOwnTimestamp(e, parseIso)
    ensures FromDict(ToDict(e), parseIso) == Ok(e)
  {
    var d := ToDict(e);
    ToDictFields(e);
    TimestampReadBack(e, parseIso);
    assert Keys[0] == "element_id" && Keys[1] == "selector" && Keys[2] == "element_type";
    assert Keys[3] == "position" && Keys[4] == "text_content" && Keys[5] == "updated_at";
    assert Keys[6] == "page_url" && Keys[7] == "description";
    FromDictOf(d, parseIso, e);
  }

  /** Every key of to_dict's result is found, holding the value stored beside it. */
  lemma ToDictFields(e: DomElement)
    ensures forall k :: 0 <= k < |Keys| ==> HasKey(ToDict(e), Keys[k]) && Field(ToDict(e), Keys[k]) == ToDict(e).fields[k].1
  {
    var d := ToDict(e);
    var fs := d.fields;
    forall k | 0 <= k < |Keys|
      ensures HasKey(d, Keys[k]) && Field(d, Keys[k]) == fs[k].1
    {
      forall j | 0 <= j < k
        ensures fs[j].0 != Keys[k]
      {
        assert Keys[j] != Keys[k];
      }
      FieldAt(fs, k, Keys[k]);
    }
  }

  /** The updated_at value to_dict stores reads back as the element's timestamp. */
  lemma TimestampReadBack(e: DomElement, parseIso: IsoParser)
    requires ReadsOwnTimestamp(e, parseIso)
    ensures UpdatedAt(ToDict(e).fields[5].1, parseIso) == Ok(e.updatedAt)
  {
    match e.updatedAt
    case None =>
    case Some(t) =>
      assert ToDict(e).fields[5].1 == JStr(t.iso);
  }

  /** from_dict on a dict whose required keys and timestamp read as the element's, and whose optional keys hold its other fields. */
  lemma FromDictOf(d: Json, parseIso: IsoParser, e: DomElement)
    requires d.JObj?
    requires UpdatedAt(DictGet(d.fields, "updated_at", JNull), parseIso) == Ok(e.updatedAt)
    requires Index(d, "element_id") == Ok(e.elementId)
    requires Index(d, "selector") == Ok(e.selector)
    requires Index(d, "element_type") == Ok(e.elementType)
    requires DictGet(d.fields, "position", JNull) == e.position
    requires DictGet(d.fields, "text_content", JNull) == e.textContent
    requires DictGet(d.fields, "page_url", JNull) == e.pageUrl
    requires DictGet(d.fields, "description", JNull) == e.description
    ensures FromDict(d, parseIso) == Ok(e)
  {
  }
}
