/** The content of a note to publish (core/models/publish_content.py). */
module PublishContentModel {
  import Text
  import DataValidator
  import opened PyJson

  datatype PublishContent = PublishContent(content: string, title: string, description: string, tags: seq<string>)

  /** PublishContent(content, title) with the optional fields at their defaults. */
  function Make(content: string, title: string): (p: PublishContent)
    ensures p.content == content && p.title == title
    ensures p.description == "" && p.tags == []
  {
    PublishContent(content, title, "", [])
  }

  /** PublishContent.validate: `bool(content and title)`, the truthiness of both strings; the description and tags are not looked at. */
  predicate Validate(p: PublishContent): (ok: bool)
    ensures ok <==> p.content != [] && p.title != []
  {
    Truthy(JStr(p.content)) && Truthy(JStr(p.title))
  }

  /** validate() reads only the content and the title. */
  lemma ValidateIgnoresExtras(p: PublishContent, description: string, tags: seq<string>)
    ensures Validate(p.(description := description, tags := tags)) == Validate(p)
  {
  }

  /** Content that passes the stricter utils check also passes validate(). */
  lemma ValidatorImpliesValidate(content: string, title: string, description: string, tags: seq<string>)
    requires DataValidator.ValidatePublishContent(content, title)
    ensures Validate(PublishContent(content, title, description, tags))
  {
    assert Text.IsBlank([]);
  }

  /**
   * The converse fails: validate() accepts whitespace-only text and titles of
   * any length, which the utils check refuses.
   */
  lemma ValidateIsWeaker(title: string)
    requires |title| > DataValidator.MaxTitleLength
    ensures Validate(Make(" ", " ")) && !DataValidator.ValidatePublishContent(" ", " ")
    ensures Validate(Make("x", title)) && !DataValidator.ValidatePublishContent("x", title)
  {
    assert Text.IsSpace(" "[0]);
  }
}
