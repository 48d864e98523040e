/**
 * The early prototype of the translator: every framework update it looks at
 * the current target and, for a player or battle NPC, shows the name of the
 * action being cast in a window as a (Japanese, English) pair, clearing the
 * pair when the target is not casting. The action sheets are parameters.
 */
module DualCasting {

  import opened Wrappers
  import opened Host
  import opened ActionCatalog

  /** `IsCasting`: a character whose status-flag byte is 0x80 or more. */
  function IsCasting(o: GameObject): (casting: bool)
    ensures casting <==> !o.entity.PlainObject? && o.entity.statusFlags & 0x80 == 0x80
  {
    match o.entity
    case PlainObject => false
    case Character(flags) => flags >= 0x80
    case BattleChara(flags, _, _) => flags >= 0x80
  }

  /** `GetCastingActionId`: the cast action of a battle character, 0 for anything else. */
  function GetCastingActionId(o: GameObject): (actionId: uint32)
    ensures !o.entity.BattleChara? ==> actionId == 0
    ensures o.entity.BattleChara? ==> actionId == o.entity.castActionId
  {
    if o.entity.BattleChara? then o.entity.castActionId else 0
  }

  /** The window's pair; a `None` English name is a null string. */
  datatype SpellNames = SpellNames(japanese: string, english: Option<string>)

  const ClearedNames: SpellNames := SpellNames("", Some(""))

  /**
   * The game's Action sheet in the client's default language (null if
   * unavailable) and in English.
   */
  datatype Sheets = Sheets(defaultSheet: Option<ActionSheet>, englishSheet: Option<ActionSheet>)

  /** The pair `DisplaySpellName` shows, or `None` when the default-language row is missing. */
  function SpellNamesFor(actionId: uint32, sheets: Sheets): Option<SpellNames>
  {
    if sheets.defaultSheet.Some? && actionId in sheets.defaultSheet.value then
      var english :=
        if sheets.englishSheet.Some? && actionId in sheets.englishSheet.value
        then Some(sheets.englishSheet.value[actionId]) else None;
      Some(SpellNames(sheets.defaultSheet.value[actionId], english))
    else
      None
  }

  /** Only a player or a battle NPC is looked at. */
  predicate IsProcessed(target: Option<GameObject>)
  {
    target.Some? && (target.value.kind == Player || target.value.kind == BattleNpc)
  }

  /** The pair after one update with `target` as the current target. */
  function NextNames(current: SpellNames, target: Option<GameObject>, sheets: Sheets): SpellNames
  {
    if !IsProcessed(target) then current
    else if !IsCasting(target.value) then ClearedNames
    else
      var actionId := GetCastingActionId(target.value);
      if actionId == 0 then current
      else
        match SpellNamesFor(actionId, sheets)
        case None => current
        case Some(names) => names
  }

  /** The window holding the displayed pair. */
  class MainWindow {
    var japaneseName: string
    var englishName: Option<string>

    constructor ()
      ensures Names() == ClearedNames
    {
      japaneseName, englishName := "", Some("");
    }

    function Names(): SpellNames
      reads this
    {
      SpellNames(japaneseName, englishName)
    }

    method SetSpellNames(japanese: string, english: Option<string>)
      modifies this
      ensures Names() == SpellNames(japanese, english)
    {
      japaneseName := japanese;
      englishName := english;
    }
  }

  class Plugin {
    const mainWindow: MainWindow

    constructor ()
      ensures fresh(mainWindow) && mainWindow.Names() == ClearedNames
    {
      mainWindow := new MainWindow();
    }

    /** One framework update. */
    method OnUpdateEvent(target: Option<GameObject>, sheets: Sheets)
      modifies mainWindow
      ensures mainWindow.Names() == NextNames(old(mainWindow.Names()), target, sheets)
    {
      if target.Some? && (target.value.kind == Player || target.value.kind == BattleNpc) {
        HandleCasting(target.value, sheets);
      }
    }

    method HandleCasting(o: GameObject, sheets: Sheets)
      modifies mainWindow
      ensures !IsCasting(o) ==> mainWindow.Names() == ClearedNames
      ensures IsCasting(o) && GetCastingActionId(o) == 0 ==> mainWindow.Names() == old(mainWindow.Names())
      ensures IsCasting(o) && GetCastingActionId(o) != 0 ==>
        mainWindow.Names() == match SpellNamesFor(GetCastingActionId(o), sheets)
                              case None => old(mainWindow.Names())
                              case Some(names) => names
    {
      if IsCasting(o) {
        var actionId := GetCastingActionId(o);
        if actionId != 0 {
          DisplaySpellName(actionId, sheets);
        }
      } else {
        mainWindow.SetSpellNames("", Some(""));
      }
    }

    /** Shows the row's names; a missing default-language row changes nothing. */
    method DisplaySpellName(actionId: uint32, sheets: Sheets)
      modifies mainWindow
      ensures SpellNamesFor(actionId, sheets).None? ==> mainWindow.Names() == old(mainWindow.Names())
      ensures SpellNamesFor(actionId, sheets).Some? ==> mainWindow.Names() == SpellNamesFor(actionId, sheets).value
    {
      var action: Option<string> := None;
      if sheets.defaultSheet.Some? && actionId in sheets.defaultSheet.value {
        action := Some(sheets.defaultSheet.value[actionId]);
      }
      if action.Some? {
        var japaneseName := action.value;
        var englishName: Option<string> := None;
        if sheets.englishSheet.Some? && actionId in sheets.englishSheet.value {
          englishName := Some(sheets.englishSheet.value[actionId]);
        }
        mainWindow.SetSpellNames(japaneseName, englishName);
      }
    }
  }

  // ------------------------------------------------------------- properties

  /** A null target, or one that is neither a player nor a battle NPC, leaves the pair alone. */
  lemma UnprocessedTargetKeepsNames(current: SpellNames, target: Option<GameObject>, sheets: Sheets)
    requires !IsProcessed(target)
    ensures NextNames(current, target, sheets) == current
  {
  }

  /** A processed target that is not casting clears the pair. */
  lemma StoppedCastingClears(current: SpellNames, target: Option<GameObject>, sheets: Sheets)
    requires IsProcessed(target) && !IsCasting(target.value)
    ensures NextNames(current, target, sheets) == ClearedNames
  {
  }

  /**
   * A casting target without a battle-character cast id (action id 0)
   * leaves the pair alone; so does an action missing from the default sheet.
   */
  lemma NoActionKeepsNames(current: SpellNames, target: Option<GameObject>, sheets: Sheets)
    requires IsProcessed(target) && IsCasting(target.value)
    requires GetCastingActionId(target.value) == 0
             || SpellNamesFor(GetCastingActionId(target.value), sheets).None?
    ensures NextNames(current, target, sheets) == current
  {
  }

  /**
   * Whatever the update, the pair afterwards is the old pair, the cleared
   * pair, or the sheets' names for the target's cast action.
   */
  lemma NextNamesCases(current: SpellNames, target: Option<GameObject>, sheets: Sheets)
    ensures var next := NextNames(current, target, sheets);
      next == current || next == ClearedNames
      || (target.Some? && target.value.entity.BattleChara?
          && SpellNamesFor(target.value.entity.castActionId, sheets) == Some(next))
  {
  }
}
