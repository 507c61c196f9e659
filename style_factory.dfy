/**
 * ContentStyleFactory of business/xhs_content_styles/style_factory.py: a
 * registry from style names to style classes. A class is a token carrying
 * what the registry needs of it: whether it derives from BaseContentStyle
 * and the description its instances report.
 */
module StyleFactory {
  import opened Wrappers
  import opened PyDicts

  /** A style class: its name, whether it derives from BaseContentStyle, and its instances' `description`. */
  datatype StyleClass = StyleClass(name: string, derivesBase: bool, description: string)

  const FairyStyle: StyleClass := StyleClass("FairyStyle", true, "小仙女风格（甜美活泼、情绪化、网络用语）")
  const ControversialStyle: StyleClass := StyleClass("ControversialStyle", true, "逆天言论风格（独特观点、挑战常识、制造话题）")
  const ProvocativeStyle: StyleClass := StyleClass("ProvocativeStyle", true, "引战风格（对比挑衅、制造站队、引发争论）")

  /** The registry as the class body defines it, given the UnreasonableStyle class. */
  function InitialStyles(unreasonable: StyleClass): Dict<StyleClass>
  {
    [("fairy", FairyStyle), ("controversial", ControversialStyle),
     ("provocative", ProvocativeStyle), ("unreasonable", unreasonable)]
  }

  class ContentStyleFactory {
    var styles: Dict<StyleClass>

    /** The registry's invariant: a dict, so distinct names. */
    predicate Valid()
      reads this
    {
      DistinctKeys(styles)
    }

    constructor (unreasonable: StyleClass)
      ensures styles == InitialStyles(unreasonable) && Valid()
      ensures Keys(styles) == ["fairy", "controversial", "provocative", "unreasonable"]
    {
      styles := InitialStyles(unreasonable);
    }

    /** create_style: an instance of the class registered under exactly that name (no case folding), or ValueError. */
    method CreateStyle(styleName: string) returns (r: Result<StyleClass>)
      ensures r.Ok? <==> styleName in Keys(styles)
      ensures r.Ok? ==> Lookup(styles, styleName) == Some(r.value)
      ensures r.Raised? ==> r.error == ValueError
    {
      var styleClass := Lookup(styles, styleName);
      if styleClass.None? {
        return Raised(ValueError);
      }
      r := Ok(styleClass.value);
    }

    /** register_style: binds the name to a class derived from BaseContentStyle, replacing any earlier binding; TypeError otherwise. */
    method RegisterStyle(name: string, styleClass: StyleClass) returns (r: Result<()>)
      requires Valid()
      modifies this
      ensures Valid()
      ensures r.Ok? <==> styleClass.derivesBase
      ensures r.Raised? ==> r.error == TypeError && styles == old(styles)
      ensures r.Ok? ==> styles == Put(old(styles), name, styleClass)
    {
      if !styleClass.derivesBase {
        return Raised(TypeError);
      }
      PutDistinct(styles, name, styleClass);
      styles := Put(styles, name, styleClass);
      r := Ok(());
    }

    /** get_available_styles: every registered name, in order, with its class's description. */
    function AvailableStyles(): (d: Dict<string>)
      reads this
      ensures Keys(d) == Keys(styles)
      ensures forall i :: 0 <= i < |d| ==> d[i].1 == styles[i].1.description
    {
      seq(|styles|, i requires 0 <= i < |styles| reads this => (styles[i].0, styles[i].1.description))
    }
  }

  /** After register_style(name, C), create_style(name) gives C whatever was bound before, and other names are unaffected. */
  lemma RegisterThenCreate(styles: Dict<StyleClass>, name: string, c: StyleClass, other: string)
    requires other != name
    ensures Lookup(Put(styles, name, c), name) == Some(c)
    ensures Lookup(Put(styles, name, c), other) == Lookup(styles, other)
  {
    PutFinds(styles, name, c);
    PutKeepsOthers(styles, name, c, other);
  }

  /** In the initial registry each built-in name gives its own description, and no name is registered twice. */
  lemma InitialDescriptions(unreasonable: StyleClass)
    ensures DistinctKeys(InitialStyles(unreasonable))
    ensures Lookup(InitialStyles(unreasonable), "fairy") == Some(FairyStyle)
    ensures Lookup(InitialStyles(unreasonable), "controversial") == Some(ControversialStyle)
    ensures Lookup(InitialStyles(unreasonable), "provocative") == Some(ProvocativeStyle)
    ensures Lookup(InitialStyles(unreasonable), "unreasonable") == Some(unreasonable)
    ensures Lookup(InitialStyles(unreasonable), "Fairy").None?
  {
    var d := InitialStyles(unreasonable);
    assert Keys(d) == ["fairy", "controversial", "provocative", "unreasonable"];
    assert forall i, j :: 0 <= i < j < 4 ==> d[i].0[0] != d[j].0[0];
    LookupItem(d, 0);
    LookupItem(d, 1);
    LookupItem(d, 2);
    LookupItem(d, 3);
    AbsentFromInitial(unreasonable, "Fairy");
  }

  /** A name whose first letter starts none of the four built-in names is not registered initially. */
  lemma AbsentFromInitial(unreasonable: StyleClass, name: string)
    requires name != [] && name[0] !in {'f', 'c', 'p', 'u'}
    ensures Lookup(InitialStyles(unreasonable), name).None?
  {
    var ks := Keys(InitialStyles(unreasonable));
    assert ks == ["fairy", "controversial", "provocative", "unreasonable"];
    forall k | 0 <= k < |ks|
      ensures ks[k] != name
    {
      assert ks[k][0] in {'f', 'c', 'p', 'u'};
    }
  }
}
