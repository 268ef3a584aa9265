/**
 * Loading the saved configuration at start-up, importing a JSON document,
 * and the name and content of an exported document. Both merges are object
 * spreads: a top-level key of the overlay replaces the whole entry.
 */
module Persistence {
  import opened Options
  import opened JsonValues
  import opened Schema

  /**
   * The JSON text functions the engine calls, taken as given:
   * `JSON.parse` (None when it throws), `JSON.stringify(v)` and the
   * pretty-printed `JSON.stringify(v, null, 2)`.
   */
  datatype Codec = Codec(parse: string -> Option<Json>, stringify: Json -> string, pretty: Json -> string)

  /** What JSON guarantees of these functions: both ways of writing parse back, and an object's text is never empty. */
  ghost predicate Faithful(codec: Codec)
  {
    && (forall j :: codec.parse(codec.stringify(j)) == Some(j))
    && (forall j :: codec.parse(codec.pretty(j)) == Some(j))
    && (forall m :: codec.stringify(JObj(m)) != "")
  }

  /** `{...base, ...over}`: every key of `over` replaces that entry of `base` wholesale. */
  function Overlay(base: Config, over: map<string, Json>): (r: Config)
    ensures r.Keys == base.Keys + over.Keys
    ensures forall k :: k in over ==> r[k] == over[k]
    ensures forall k :: k in base && k !in over ==> r[k] == base[k]
  {
    base + over
  }

  /**
   * The start-up configuration from the saved entry (None when there is
   * none): `saved ? {...defaultConfig, ...JSON.parse(saved)} : defaultConfig`,
   * falling back to the default when parsing throws.
   */
  function Load(saved: Option<string>, codec: Codec): (r: Config)
    ensures saved.None? || saved.value == "" ==> r == DefaultConfig
    ensures saved.Some? && codec.parse(saved.value).None? ==> r == DefaultConfig
    ensures TopLevelKeys <= r.Keys
  {
    DefaultConfigShape();
    if saved.None? || saved.value == "" then DefaultConfig
    else
      match codec.parse(saved.value)
      case None => DefaultConfig
      case Some(doc) => Overlay(DefaultConfig, Spread(doc))
  }

  /**
   * A saved object document: each of its top-level keys is taken as saved,
   * each default key it lacks keeps its default, and nothing inside a
   * section is filled in from the default.
   */
  lemma LoadOverlaysSaved(saved: string, codec: Codec, doc: map<string, Json>)
    requires saved != "" && codec.parse(saved) == Some(JObj(doc))
    ensures var r := Load(Some(saved), codec);
      && r.Keys == DefaultConfig.Keys + doc.Keys
      && (forall k :: k in doc ==> r[k] == doc[k])
      && (forall k :: k in DefaultConfig && k !in doc ==> r[k] == DefaultConfig[k])
  {
  }

  /** A stored configuration that has every default top-level key loads back as itself. */
  lemma LoadRoundTrip(c: Config, codec: Codec)
    requires Faithful(codec)
    requires TopLevelKeys <= c.Keys
    ensures Load(Some(codec.stringify(JObj(c))), codec) == c
  {
    DefaultConfigShape();
    var s := codec.stringify(JObj(c));
    assert codec.parse(s) == Some(JObj(c));
    assert s != "";
    assert Overlay(DefaultConfig, c) == c;
  }

  /**
   * Importing a document into the current configuration: `{...prev, ...parsed}`,
   * or None when `JSON.parse` throws (the user is alerted and the
   * configuration stays as it was).
   */
  function Import(prev: Config, text: string, codec: Codec): (r: Option<Config>)
    ensures r.None? <==> codec.parse(text).None?
    ensures r.Some? ==> prev.Keys <= r.value.Keys
  {
    match codec.parse(text)
    case None => None
    case Some(doc) => Some(Overlay(prev, Spread(doc)))
  }

  /**
   * An imported object document replaces each top-level entry it names,
   * wholesale, and keeps every entry it does not name.
   */
  lemma ImportReplacesWholesale(prev: Config, text: string, codec: Codec, doc: map<string, Json>)
    requires codec.parse(text) == Some(JObj(doc))
    ensures Import(prev, text, codec).Some?
    ensures var r := Import(prev, text, codec).value;
      && r.Keys == prev.Keys + doc.Keys
      && (forall k :: k in doc ==> r[k] == doc[k])
      && (forall k :: k in prev && k !in doc ==> r[k] == prev[k])
  {
  }

  /**
   * A section given partially loses the fields it omits: they are neither
   * kept from the previous section nor filled in from the default.
   */
  lemma ImportPartialSectionLosesFields(prev: Config, text: string, codec: Codec,
                                        doc: map<string, Json>, section: string, field: string)
    requires codec.parse(text) == Some(JObj(doc))
    requires section in doc && doc[section].JObj? && field !in doc[section].fields
    ensures var r := Import(prev, text, codec).value;
      r[section].JObj? && field !in r[section].fields
  {
  }

  /** A document that is `null`, a boolean or a number adds nothing: the configuration is unchanged. */
  lemma ImportScalarDocument(prev: Config, text: string, codec: Codec)
    requires codec.parse(text).Some?
    requires var doc := codec.parse(text).value; doc.JNull? || doc.JBool? || doc.JNum?
    ensures Import(prev, text, codec) == Some(prev)
  {
    assert prev + map[] == prev;
  }

  /**
   * The export file name: the template literal `ui-config-${cfg.layout}.json`,
   * with a missing layout written "undefined".
   */
  function ExportFileName(cfg: Config): (name: string)
    ensures |name| >= 15 && name[..10] == "ui-config-" && name[|name| - 5..] == ".json"
    ensures "layout" in cfg && cfg["layout"].JStr? ==> name[10..|name| - 5] == cfg["layout"].s
  {
    var layout := if "layout" in cfg then Some(cfg["layout"]) else None;
    "ui-config-" + JsString(layout) + ".json"
  }

  /** Exports taken under two different layout names get two different file names. */
  lemma ExportFileNamesDiffer(c1: Config, c2: Config)
    requires "layout" in c1 && c1["layout"].JStr?
    requires "layout" in c2 && c2["layout"].JStr?
    requires c1["layout"] != c2["layout"]
    ensures ExportFileName(c1) != ExportFileName(c2)
  {
  }

  /** The export content: the whole current configuration, pretty-printed. */
  function ExportContent(cfg: Config, codec: Codec): (text: string)
    ensures Faithful(codec) ==> codec.parse(text) == Some(JObj(cfg))
  {
    codec.pretty(JObj(cfg))
  }

  /**
   * Importing an exported document reproduces the exported configuration
   * whenever it names every key the current one has, in particular when
   * it is imported back into the configuration it was exported from.
   */
  lemma ExportImportRoundTrip(prev: Config, c: Config, codec: Codec)
    requires Faithful(codec)
    requires prev.Keys <= c.Keys
    ensures Import(prev, ExportContent(c, codec), codec) == Some(c)
  {
    assert Overlay(prev, c) == c;
  }
}
