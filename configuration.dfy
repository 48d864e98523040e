/**
 * The persisted settings record of the cast-bar translator: the closed set of
 * languages a slot can show and the defaults a fresh record starts from.
 * Saving the record is host persistence and is not modelled.
 */
module Config {

  /** The five languages a cast-bar line can be rendered in. */
  datatype GameLanguage = English | Japanese | German | French | ChineseTraditional

  /** Height the text node is raised to for a two-line rendering. */
  const DefaultCastBarHeight: int := 44

  /** The record version written into fresh settings. */
  const CurrentVersion: int := 1

  /** Lower and upper end of the height slider of the settings window. */
  const SliderMinHeight: int := 30
  const SliderMaxHeight: int := 60

  /**
   * The settings record. Nothing in the record itself forbids
   * `topLanguage == bottomLanguage` or bounds `castBarHeight`.
   */
  datatype Configuration = Configuration(
    version: int,
    topLanguage: GameLanguage,      // the language being learned, first line
    bottomLanguage: GameLanguage,   // the reference language, second line
    castBarHeight: int)

  /** The record a first start (or a missing saved record) produces. */
  function DefaultConfiguration(): (c: Configuration)
    ensures c.version == CurrentVersion
    ensures c.topLanguage == Japanese && c.bottomLanguage == English
    ensures c.castBarHeight == DefaultCastBarHeight
    ensures c.topLanguage != c.bottomLanguage
    ensures SliderMinHeight <= c.castBarHeight <= SliderMaxHeight
  {
    Configuration(CurrentVersion, Japanese, English, DefaultCastBarHeight)
  }
}
