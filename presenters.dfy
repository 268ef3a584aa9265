/**
 * What the preview derives from the configuration: which of the two layout
 * presenters is shown, and the few values the presenters compute rather
 * than copy (shadow class, justification class, clamped font sizes).
 */
module Presenters {
  import opened Options
  import opened JsonValues
  import opened Schema
  import opened Numbers

  /** The two layout presenters. */
  datatype Presenter = PreviewLayout1 | PreviewLayout2

  /** `cfg.layout === "layout1" ? PreviewLayout1 : PreviewLayout2`. */
  function SelectPresenter(cfg: Config): (p: Presenter)
    ensures p == PreviewLayout1 <==> "layout" in cfg && cfg["layout"] == JStr("layout1")
    ensures p == PreviewLayout2 <==> !("layout" in cfg && cfg["layout"] == JStr("layout1"))
  {
    if "layout" in cfg && cfg["layout"] == JStr("layout1") then PreviewLayout1 else PreviewLayout2
  }

  /**
   * The presenter depends on nothing but the layout entry, which is why it
   * is recomputed only when that entry changes.
   */
  lemma SelectPresenterReadsOnlyLayout(c1: Config, c2: Config)
    requires ("layout" in c1) == ("layout" in c2)
    requires "layout" in c1 ==> c1["layout"] == c2["layout"]
    ensures SelectPresenter(c1) == SelectPresenter(c2)
  {
  }

  /** `shadowMap[shadow] || ""`: the class for a known shadow name, "" for "none" and for every other key. */
  function ShadowClass(shadow: Option<Json>): (cls: string)
    ensures JsString(shadow) in ShadowMap ==> cls == ShadowMap[JsString(shadow)]
    ensures JsString(shadow) !in ShadowMap ==> cls == ""
    ensures cls in ShadowMap.Values
  {
    var key := JsString(shadow);
    assert ShadowMap["none"] in ShadowMap.Values;
    if key in ShadowMap && ShadowMap[key] != "" then ShadowMap[key] else ""
  }

  /** The button's shadow class, read from `cfg.button.shadow` (an entry that is null would throw). */
  function ButtonShadow(cfg: Config): (cls: string)
    requires "button" in cfg && !cfg["button"].JNull?
    ensures cfg["button"].JObj? && "shadow" in cfg["button"].fields && cfg["button"].fields["shadow"].JStr?
            && cfg["button"].fields["shadow"].s in {"sm", "md", "lg"}
            ==> cls == ShadowMap[cfg["button"].fields["shadow"].s]
    ensures !(cfg["button"].JObj? && "shadow" in cfg["button"].fields) ==> cls == ""
  {
    ShadowClass(Member(cfg["button"], "shadow"))
  }

  /** The shadow names "none", "sm", "md" and "lg" give "", "shadow", "shadow-md" and "shadow-lg". */
  lemma ShadowClassOfNames()
    ensures ShadowClass(Some(JStr("none"))) == ""
    ensures ShadowClass(Some(JStr("sm"))) == "shadow"
    ensures ShadowClass(Some(JStr("md"))) == "shadow-md"
    ensures ShadowClass(Some(JStr("lg"))) == "shadow-lg"
    ensures ShadowClass(None) == ""
  {
  }

  /** A shadow stored as a one-element array, such as `["lg"]`, selects the class of its element. */
  lemma ShadowClassOfSingleton(name: string)
    requires name in ShadowMap
    ensures ShadowClass(Some(JArr([JStr(name)]))) == ShadowMap[name]
  {
    DisplayStringOfSingleton(JStr(name));
  }

  /** `justifyMap[align]`: None (undefined) for anything but "left", "center" and "right". */
  function Justify(align: Option<Json>): (cls: Option<string>)
    ensures cls.Some? <==> JsString(align) in JustifyMap
    ensures cls.Some? ==> cls.value == JustifyMap[JsString(align)]
  {
    var key := JsString(align);
    if key in JustifyMap then Some(JustifyMap[key]) else None
  }

  /** The container class `flex ${justifyMap[align]}`; undefined is written "undefined". */
  function JustifyContainerClass(align: Option<Json>): (cls: string)
    ensures JsString(align) in JustifyMap ==> cls == "flex " + JustifyMap[JsString(align)]
    ensures JsString(align) !in JustifyMap ==> cls == "flex undefined"
  {
    "flex " + match Justify(align) case Some(c) => c case None => "undefined"
  }

  /** Offsets from the base size at which the presenters set their text. */
  const Layout1HeadingOffset: int := 8
  const BodyOffset: int := 0
  const Layout2HeadingOffset: int := 6
  const Layout2MenuItemOffset: int := -2

  /** `clamp(cfg.typography.size + offset, 10, 60)`. */
  function FontSize(size: int, offset: int): (px: int)
    ensures 10 <= px <= 60
    ensures 10 <= size + offset <= 60 ==> px == size + offset
    ensures size + offset < 10 ==> px == 10
    ensures size + offset > 60 ==> px == 60
  {
    Clamp(size + offset, 10, 60)
  }

  /** A larger base size never gives a smaller font size. */
  lemma FontSizeMonotonic(s1: int, s2: int, offset: int)
    requires s1 <= s2
    ensures FontSize(s1, offset) <= FontSize(s2, offset)
  {
  }

  /** At the default base size of 20 px: headings 28 and 26, body 20, menu items 18. */
  lemma DefaultFontSizes()
    ensures DefaultConfig["typography"].fields["size"] == JNum(20)
    ensures FontSize(20, Layout1HeadingOffset) == 28
    ensures FontSize(20, BodyOffset) == 20
    ensures FontSize(20, Layout2HeadingOffset) == 26
    ensures FontSize(20, Layout2MenuItemOffset) == 18
  {
  }
}
