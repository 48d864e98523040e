/**
 * The action-name catalog: per display slot (top and bottom line), either a
 * game data sheet (English, Japanese, German, French) or an externally
 * loaded id -> name table (Traditional Chinese), and the lookup that prefers
 * the external table. Loading is specified here as functions of the
 * configuration and of what each loader yields; the plugin's methods that
 * overwrite its fields step by step are proved against them (module CastBar).
 */
module ActionCatalog {

  import opened Wrappers
  import opened Config
  import opened Host

  /** A game Action sheet: row id -> the row's name as plain text. */
  type ActionSheet = map<uint32, string>

  /** The decoded contents of the Traditional Chinese JSON file. */
  type ExternalMap = map<uint32, string>

  /** How one loader call ended: it returned a (possibly null) value, or threw. */
  datatype Loaded<T> = Returned(value: Option<T>) | Threw

  /**
   * What each loader yields when it is called: the game's sheet per
   * supported client language, and the JSON file loader for Traditional
   * Chinese (null when the plugin directory or the file is missing, an
   * exception when the JSON is malformed).
   */
  datatype DataEnv = DataEnv(
    englishSheet: Loaded<ActionSheet>,
    japaneseSheet: Loaded<ActionSheet>,
    germanSheet: Loaded<ActionSheet>,
    frenchSheet: Loaded<ActionSheet>,
    chineseData: Loaded<ExternalMap>)

  /** The two fields that back one slot: a sheet and an external table. */
  datatype SlotData = SlotData(sheet: Option<ActionSheet>, external: Option<ExternalMap>)

  const ClearedSlot: SlotData := SlotData(None, None)

  /** The four source fields of the plugin, grouped by slot. */
  datatype SourceSlots = SourceSlots(top: SlotData, bottom: SlotData)

  /**
   * Name of an action from one slot's fields. An external table, when
   * present, answers alone; otherwise the sheet answers. A missing entry
   * gives the empty string, never a failure.
   */
  function GetActionName(actionId: uint32, sheet: Option<ActionSheet>, external: Option<ExternalMap>): (name: string)
    ensures external.Some? && actionId in external.value ==> name == external.value[actionId]
    ensures external.Some? && actionId !in external.value ==> name == ""
    ensures external.None? && sheet.Some? && actionId in sheet.value ==> name == sheet.value[actionId]
    ensures external.None? && (sheet.None? || actionId !in sheet.value) ==> name == ""
  {
    if external.Some? then
      if actionId in external.value then external.value[actionId] else ""
    else if sheet.Some? && actionId in sheet.value then
      sheet.value[actionId]
    else
      ""
  }

  /** With an external table present, the sheet is never consulted. */
  lemma ExternalTableShadowsSheet(actionId: uint32, external: ExternalMap, sheet1: Option<ActionSheet>, sheet2: Option<ActionSheet>)
    ensures GetActionName(actionId, sheet1, Some(external)) == GetActionName(actionId, sheet2, Some(external))
  {
  }

  // ----------------------------------------------------------------- loading

  /** The outcome of one `LoadLanguageData` call: the slot's fields afterwards, and whether it threw. */
  datatype SlotLoad = SlotLoad(data: SlotData, threw: bool)

  /**
   * One `LoadLanguageData` call: both of the slot's fields are cleared
   * first (they alias the plugin's own fields), then the language's loader
   * fills one of them; a loader that throws leaves both cleared.
   */
  function LoadedSlot(language: GameLanguage, env: DataEnv): (r: SlotLoad)
    ensures language == ChineseTraditional ==> r.data.sheet.None?
    ensures language != ChineseTraditional ==> r.data.external.None?
    ensures r.threw ==> r.data == ClearedSlot
  {
    match language
    case English => SheetSlot(env.englishSheet)
    case Japanese => SheetSlot(env.japaneseSheet)
    case German => SheetSlot(env.germanSheet)
    case French => SheetSlot(env.frenchSheet)
    case ChineseTraditional =>
      match env.chineseData
      case Threw => SlotLoad(ClearedSlot, true)
      case Returned(m) => SlotLoad(SlotData(None, m), false)
  }

  function SheetSlot(outcome: Loaded<ActionSheet>): SlotLoad
  {
    match outcome
    case Threw => SlotLoad(ClearedSlot, true)
    case Returned(s) => SlotLoad(SlotData(s, None), false)
  }

  /** The outcome of `ReloadDataSources`: the four fields, and whether the error notification was raised. */
  datatype Reload = Reload(slots: SourceSlots, notified: bool)

  /**
   * `ReloadDataSources`: clear all four fields, load the top slot, then the
   * bottom slot. An exception from either load is caught: the slots loaded
   * so far keep their values, the rest stay cleared, and a notification is
   * raised.
   */
  function ReloadedSlots(config: Configuration, env: DataEnv): (r: Reload)
    ensures r.notified <==> LoadedSlot(config.topLanguage, env).threw
                            || LoadedSlot(config.bottomLanguage, env).threw
    ensures LoadedSlot(config.topLanguage, env).threw ==> r.slots == SourceSlots(ClearedSlot, ClearedSlot)
    ensures !LoadedSlot(config.topLanguage, env).threw ==> r.slots.top == LoadedSlot(config.topLanguage, env).data
    ensures !LoadedSlot(config.topLanguage, env).threw ==> r.slots.bottom == LoadedSlot(config.bottomLanguage, env).data
  {
    var top := LoadedSlot(config.topLanguage, env);
    if top.threw then
      Reload(SourceSlots(ClearedSlot, ClearedSlot), true)
    else
      var bottom := LoadedSlot(config.bottomLanguage, env);
      Reload(SourceSlots(top.data, bottom.data), bottom.threw)
  }

  /** `IsChineseDataLoaded`: either external table field is non-null. */
  predicate IsChineseDataLoaded(slots: SourceSlots)
  {
    slots.top.external.Some? || slots.bottom.external.Some?
  }

  // ------------------------------------------------- reference catalog view

  /** The catalog a language stands for, as one tagged value. */
  datatype Catalog = HostTable(rows: ActionSheet) | FileTable(entries: ExternalMap) | NotAvailable

  function Lookup(catalog: Catalog, actionId: uint32): string
  {
    match catalog
    case HostTable(rows) => if actionId in rows then rows[actionId] else ""
    case FileTable(entries) => if actionId in entries then entries[actionId] else ""
    case NotAvailable => ""
  }

  /** The catalog a language's loader provides; a null or a throwing loader provides none. */
  function CatalogFor(language: GameLanguage, env: DataEnv): Catalog
  {
    var sheet := match language
      case English => env.englishSheet
      case Japanese => env.japaneseSheet
      case German => env.germanSheet
      case French => env.frenchSheet
      case ChineseTraditional => Returned(None);
    if language == ChineseTraditional then
      (if env.chineseData.Returned? && env.chineseData.value.Some? then FileTable(env.chineseData.value.value) else NotAvailable)
    else if sheet.Returned? && sheet.value.Some? then HostTable(sheet.value.value)
    else NotAvailable
  }

  /**
   * After a reload the top line answers exactly from the top language's
   * catalog; the bottom line answers from the bottom language's catalog,
   * or is empty for every id when the top load threw. Nothing from the
   * sources held before the reload survives.
   */
  lemma ReloadAnswersFromCatalogs(config: Configuration, env: DataEnv, actionId: uint32)
    ensures var s := ReloadedSlots(config, env).slots;
      GetActionName(actionId, s.top.sheet, s.top.external) == Lookup(CatalogFor(config.topLanguage, env), actionId)
    ensures var s := ReloadedSlots(config, env).slots;
      GetActionName(actionId, s.bottom.sheet, s.bottom.external)
        == if LoadedSlot(config.topLanguage, env).threw then ""
           else Lookup(CatalogFor(config.bottomLanguage, env), actionId)
  {
    LoadedSlotMatchesCatalog(config.topLanguage, env, actionId);
    LoadedSlotMatchesCatalog(config.bottomLanguage, env, actionId);
  }

  /** One load, seen through the lookup, is the language's catalog. */
  lemma LoadedSlotMatchesCatalog(language: GameLanguage, env: DataEnv, actionId: uint32)
    ensures var d := LoadedSlot(language, env).data;
      GetActionName(actionId, d.sheet, d.external) == Lookup(CatalogFor(language, env), actionId)
  {
    match language
    case English =>
    case Japanese =>
    case German =>
    case French =>
    case ChineseTraditional =>
  }

  /**
   * After a reload the Traditional Chinese table is loaded exactly when the
   * JSON loader returned a table and that language was actually loaded into
   * some slot: the top one, or the bottom one after a top load that did not throw.
   */
  lemma ChineseDataLoadedAfterReload(config: Configuration, env: DataEnv)
    ensures IsChineseDataLoaded(ReloadedSlots(config, env).slots)
      <==> env.chineseData.Returned? && env.chineseData.value.Some?
           && (config.topLanguage == ChineseTraditional
               || (config.bottomLanguage == ChineseTraditional && !LoadedSlot(config.topLanguage, env).threw))
  {
  }

  /**
   * Equal top and bottom languages give equal slots, so the two names looked
   * up for any action are equal: the record does not forbid the case, and
   * the patcher's "same name" rule absorbs it.
   */
  lemma SameLanguageSameNames(config: Configuration, env: DataEnv, actionId: uint32)
    requires config.topLanguage == config.bottomLanguage
    ensures var s := ReloadedSlots(config, env).slots;
      GetActionName(actionId, s.top.sheet, s.top.external) == GetActionName(actionId, s.bottom.sheet, s.bottom.external)
  {
  }
}
