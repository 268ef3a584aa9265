/**
 * The built-in configuration and the fixed lookup tables of the editor.
 */
module Schema {
  import opened JsonValues

  /** The key under which the configuration is kept in browser storage. */
  const StorageKey: string := "ui-cfg"

  const DefaultTypography: map<string, Json> := map[
    "family" := JStr("Inter, system-ui, -apple-system, Segoe UI, Roboto, sans-serif"),
    "weight" := JNum(600),
    "size" := JNum(20)
  ]

  const DefaultButton: map<string, Json> := map[
    "radius" := JNum(12),
    "shadow" := JStr("md"),
    "align" := JStr("center"),
    "bg" := JStr("#111827"),
    "color" := JStr("#ffffff"),
    "strokeColor" := JStr("#111827"),
    "strokeWeight" := JNum(0)
  ]

  const DefaultGallery: map<string, Json> := map[
    "align" := JStr("center"),
    "spacing" := JNum(12),
    "radius" := JNum(12)
  ]

  const DefaultGeneral: map<string, Json> := map[
    "cardRadius" := JNum(16),
    "containerPadding" := JNum(24),
    "sectionBg" := JStr("#ffffff")
  ]

  const DefaultStroke: map<string, Json> := map[
    "color" := JStr("#e5e7eb"),
    "weight" := JNum(1)
  ]

  /** The configuration the editor starts from and resets to. */
  const DefaultConfig: Config := map[
    "layout" := JStr("layout1"),
    "typography" := JObj(DefaultTypography),
    "button" := JObj(DefaultButton),
    "gallery" := JObj(DefaultGallery),
    "general" := JObj(DefaultGeneral),
    "stroke" := JObj(DefaultStroke)
  ]

  /** The top-level keys of the built-in configuration. */
  const TopLevelKeys: set<string> := {"layout", "typography", "button", "gallery", "general", "stroke"}

  /** Button shadow name to CSS class. */
  const ShadowMap: map<string, string> := map[
    "none" := "",
    "sm" := "shadow",
    "md" := "shadow-md",
    "lg" := "shadow-lg"
  ]

  /** Alignment name to flex justification class. */
  const JustifyMap: map<string, string> := map[
    "left" := "justify-start",
    "center" := "justify-center",
    "right" := "justify-end"
  ]

  /**
   * The built-in configuration has exactly the six top-level keys, `layout`
   * is the string "layout1" and every other key holds a section object.
   */
  lemma DefaultConfigShape()
    ensures DefaultConfig.Keys == TopLevelKeys
    ensures DefaultConfig["layout"] == JStr("layout1")
    ensures forall k :: k in DefaultConfig && k != "layout" ==> DefaultConfig[k].JObj?
  {
  }
}
