/**
 * The editor component: the single configuration it holds, the browser
 * storage it saves to after every change, and the operations the editor
 * panel and the toolbar invoke on it.
 */
module Editor {
  import opened Options
  import opened JsonValues
  import opened Schema
  import opened Numbers
  import opened Paths
  import opened Persistence
  import opened Presenters

  /** The number fields of the editor panel. */
  datatype NumberField =
    | Weight | Size
    | ButtonRadius | ButtonStrokeWeight
    | GallerySpacing | GalleryRadius
    | CardRadius | ContainerPadding
    | StrokeWeight

  /** The section and leaf a number field edits. */
  function FieldSection(f: NumberField): (section: string)
    ensures section in TopLevelKeys && section != "layout" && '.' !in section
  {
    match f
    case Weight | Size => "typography"
    case ButtonRadius | ButtonStrokeWeight => "button"
    case GallerySpacing | GalleryRadius => "gallery"
    case CardRadius | ContainerPadding => "general"
    case StrokeWeight => "stroke"
  }

  function FieldLeaf(f: NumberField): (leaf: string)
    ensures leaf != "" && '.' !in leaf
  {
    match f
    case Weight => "weight"
    case Size => "size"
    case ButtonRadius => "radius"
    case ButtonStrokeWeight => "strokeWeight"
    case GallerySpacing => "spacing"
    case GalleryRadius => "radius"
    case CardRadius => "cardRadius"
    case ContainerPadding => "containerPadding"
    case StrokeWeight => "weight"
  }

  /** The dotted path the field's handler passes to the mutator. */
  function FieldPath(f: NumberField): (path: string)
    ensures Split(path, '.') == [FieldSection(f), FieldLeaf(f)]
    ensures FieldSection(f) in TopLevelKeys
  {
    SplitDotted(FieldSection(f), FieldLeaf(f));
    FieldSection(f) + "." + FieldLeaf(f)
  }

  /** The `min` and `max` each field gives its number input. */
  function FieldMin(f: NumberField): (min: int)
    ensures min >= 0
  {
    match f
    case Weight => 400
    case Size => 10
    case _ => 0
  }

  function FieldMax(f: NumberField): (max: int)
    ensures FieldMin(f) <= max
  {
    match f
    case Weight => 900
    case Size => 60
    case ContainerPadding => 64
    case ButtonStrokeWeight | StrokeWeight => 6
    case _ => 48
  }

  /** Every number field's leaf holds a number of its field's range in the built-in configuration. */
  lemma DefaultFieldsInRange(f: NumberField)
    ensures FieldSection(f) in DefaultConfig && DefaultConfig[FieldSection(f)].JObj?
    ensures var sec := DefaultConfig[FieldSection(f)].fields;
      FieldLeaf(f) in sec && sec[FieldLeaf(f)].JNum?
      && FieldMin(f) <= sec[FieldLeaf(f)].n <= FieldMax(f)
  {
  }

  /**
   * The number a field stores for the text typed into it: what the number
   * input emits, clamped once more to [10, 60] by the base-size handler.
   * None when the input emits NaN.
   */
  function StoredNumber(f: NumberField, text: string): (r: Option<int>)
    ensures r.Some? ==> FieldMin(f) <= r.value <= FieldMax(f)
    ensures r.Some? <==> NumberInputEmit(text, FieldMin(f), FieldMax(f)).Some?
    ensures text == "" ==> r == Some(Clamp(0, FieldMin(f), FieldMax(f)))
  {
    match NumberInputEmit(text, FieldMin(f), FieldMax(f))
    case None => None
    case Some(n) => Some(if f == Size then Clamp(n, 10, 60) else n)
  }

  /** Typing the decimal text of `n` stores `n` clamped to the field's range; the weight is not rounded to its step of 100. */
  lemma StoredNumberOfTypedInt(f: NumberField, n: int)
    ensures StoredNumber(f, IntToString(n)) == Some(Clamp(n, FieldMin(f), FieldMax(f)))
  {
    assert IntToString(n) + "" == IntToString(n);
    NumberInputOfTypedInt(n, "", FieldMin(f), FieldMax(f));
  }

  /** A weight of 450 is stored as 450. */
  lemma WeightIsNotStepped()
    ensures StoredNumber(Weight, "450") == Some(450)
  {
    assert IntToString(450) == "450";
    StoredNumberOfTypedInt(Weight, 450);
  }

  /** A base size typed as 80 is stored as 60. */
  lemma SizeIsClamped()
    ensures StoredNumber(Size, "80") == Some(60)
  {
    assert IntToString(80) == "80";
    StoredNumberOfTypedInt(Size, 80);
  }

  /**
   * The editor's state: the configuration `cfg`, the browser storage
   * (key to text) it saves into, and the JSON functions it uses.
   */
  class EditorState {
    var cfg: Config
    var storage: map<string, string>
    const codec: Codec

    /** Every default top-level key is present and the saved entry is the current configuration. */
    ghost predicate Valid()
      reads this
    {
      && TopLevelKeys <= cfg.Keys
      && StorageKey in storage
      && storage[StorageKey] == codec.stringify(JObj(cfg))
    }

    /** Start-up: load from storage, then the save effect writes the loaded configuration back. */
    constructor (storage0: map<string, string>, codec: Codec)
      ensures Valid()
      ensures this.codec == codec
      ensures cfg == Load(if StorageKey in storage0 then Some(storage0[StorageKey]) else None, codec)
      ensures storage == storage0[StorageKey := codec.stringify(JObj(cfg))]
    {
      this.codec := codec;
      var loaded := Load(if StorageKey in storage0 then Some(storage0[StorageKey]) else None, codec);
      cfg := loaded;
      storage := storage0[StorageKey := codec.stringify(JObj(loaded))];
    }

    /** `set(path, v)`: overwrite one entry of a copy of the configuration, then save. */
    method Set(path: string, v: Json)
      requires Valid()
      requires Walkable(cfg, Split(path, '.'))
      modifies this
      ensures Valid()
      ensures cfg == SetIn(old(cfg), Split(path, '.'), v)
      ensures storage == old(storage)[StorageKey := codec.stringify(JObj(cfg))]
    {
      var next := Assign(cfg, path, v);
      cfg := next;
      storage := storage[StorageKey := codec.stringify(JObj(cfg))];
    }

    /**
     * An edit of a number field: the stored number goes to the field's leaf,
     * every other leaf of the section and every other section stay as they were.
     */
    method EditNumber(f: NumberField, text: string)
      requires Valid()
      requires StoredNumber(f, text).Some?
      requires FieldSection(f) in cfg && cfg[FieldSection(f)].JObj?
      modifies this
      ensures Valid()
      ensures cfg == SetIn(old(cfg), [FieldSection(f), FieldLeaf(f)], JNum(StoredNumber(f, text).value))
      ensures cfg[FieldSection(f)].fields[FieldLeaf(f)] == JNum(StoredNumber(f, text).value)
      ensures FieldMin(f) <= StoredNumber(f, text).value <= FieldMax(f)
      ensures storage == old(storage)[StorageKey := codec.stringify(JObj(cfg))]
    {
      var path := FieldPath(f);
      SetSectionField(cfg, FieldSection(f), FieldLeaf(f), JNum(StoredNumber(f, text).value));
      Set(path, JNum(StoredNumber(f, text).value));
    }

    /** `onReset`: back to the built-in configuration, whatever the state, then save. */
    method Reset()
      requires Valid()
      modifies this
      ensures Valid()
      ensures cfg == DefaultConfig
      ensures storage == old(storage)[StorageKey := codec.stringify(JObj(DefaultConfig))]
    {
      DefaultConfigShape();
      cfg := DefaultConfig;
      storage := storage[StorageKey := codec.stringify(JObj(cfg))];
    }

    /**
     * `onImportFile`: no file selected changes nothing; a file that does not
     * parse raises the alert and changes nothing; otherwise the document is
     * spread over the configuration and the result saved.
     */
    method ImportFile(file: Option<string>) returns (alerted: bool)
      requires Valid()
      modifies this
      ensures Valid()
      ensures alerted <==> file.Some? && codec.parse(file.value).None?
      ensures file.None? || alerted ==> cfg == old(cfg) && storage == old(storage)
      ensures file.Some? && !alerted ==>
        && cfg == Import(old(cfg), file.value, codec).value
        && storage == old(storage)[StorageKey := codec.stringify(JObj(cfg))]
    {
      alerted := false;
      if file.None? {
        return;
      }
      var imported := Import(cfg, file.value, codec);
      if imported.None? {
        alerted := true;
      } else {
        cfg := imported.value;
        storage := storage[StorageKey := codec.stringify(JObj(cfg))];
      }
    }

    /** The presenter the preview shows. */
    function Preview(): (p: Presenter)
      reads this
      ensures p == PreviewLayout1 <==> "layout" in cfg && cfg["layout"] == JStr("layout1")
    {
      SelectPresenter(cfg)
    }

    /** The name and content `onExport` hands to the download. */
    function ExportName(): (name: string)
      reads this
      ensures "layout" in cfg && cfg["layout"].JStr? ==> name == "ui-config-" + cfg["layout"].s + ".json"
    {
      ExportFileName(cfg)
    }

    function Export(): (text: string)
      reads this
      ensures Faithful(codec) ==> codec.parse(text) == Some(JObj(cfg))
    {
      ExportContent(cfg, codec)
    }
  }

  /** A session that starts with nothing saved starts from the built-in configuration. */
  method SessionStart(codec: Codec) returns (e: EditorState)
    ensures e.Valid() && e.cfg == DefaultConfig && fresh(e)
  {
    e := new EditorState(map[], codec);
  }

  /** Typing 80 into the base size stores 60 and leaves the layout as it was. */
  method SessionEditSize(e: EditorState)
    requires e.Valid() && e.cfg == DefaultConfig
    modifies e
    ensures e.Valid()
    ensures e.cfg == DefaultConfig["typography" := JObj(DefaultTypography["size" := JNum(60)])]
  {
    DefaultConfigShape();
    SizeIsClamped();
    e.EditNumber(Size, "80");
  }

  /** An export under the first layout is named "ui-config-layout1.json". */
  method SessionExport(e: EditorState) returns (name: string)
    requires e.Valid() && "layout" in e.cfg && e.cfg["layout"] == JStr("layout1")
    ensures name == "ui-config-layout1.json"
  {
    name := e.ExportName();
  }

  /** Switching to the second layout selects the second presenter and changes no other top-level entry. */
  method SessionSwitchLayout(e: EditorState)
    requires e.Valid()
    modifies e
    ensures e.Valid()
    ensures e.Preview() == PreviewLayout2
    ensures e.cfg.Keys == old(e.cfg).Keys
    ensures forall k :: k in old(e.cfg) && k != "layout" ==> e.cfg[k] == old(e.cfg)[k]
  {
    SplitPlain("layout");
    e.Set("layout", JStr("layout2"));
  }

  /** Resetting twice leaves the same state as resetting once. */
  method SessionResetTwice(e: EditorState)
    requires e.Valid()
    modifies e
    ensures e.Valid()
    ensures e.cfg == DefaultConfig
    ensures e.storage == old(e.storage)[StorageKey := e.codec.stringify(JObj(DefaultConfig))]
  {
    e.Reset();
    e.Reset();
  }
}
