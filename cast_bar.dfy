/**
 * The cast-bar translator plugin: per drawn frame of one of three target
 * panels, it finds the casting target's action, looks the action's name up
 * in the top and bottom language, and rewrites the panel's cast text node
 * to "top name, line break, bottom name", raising the node's height for the
 * second line. The written string lives in one unmanaged buffer that the
 * plugin tracks in a single slot.
 *
 * `PostDrawAction` says, as a function of what the frame reads, whether a
 * frame writes and what; `Plugin.OnAddonPostDraw` performs the frame on the
 * live objects and is proved against it.
 */
module CastBar {

  import opened Wrappers
  import opened Config
  import opened Host
  import opened Strings
  import opened ActionCatalog
  import opened NativeHeap

  // Addon names the frame hook is registered for.
  const AddonTargetInfo: string := "_TargetInfo"
  const AddonTargetInfoCastBar: string := "_TargetInfoCastBar"
  const AddonFocusTargetInfo: string := "_FocusTargetInfo"

  // Cast text node id inside each of those addons.
  const NodeIdTargetInfo: uint32 := 12
  const NodeIdTargetInfoCastBar: uint32 := 4
  const NodeIdFocusTargetInfo: uint32 := 5

  /** The target a frame is about and the id of the node to rewrite. */
  datatype Route = Route(target: Option<GameObject>, textNodeId: uint32)

  /** The addon-name switch: an unknown name leaves the target null and the id 0. */
  function RouteAddon(addonName: string, targets: Targets): Route
  {
    if addonName == AddonTargetInfo then Route(targets.target, NodeIdTargetInfo)
    else if addonName == AddonTargetInfoCastBar then Route(targets.target, NodeIdTargetInfoCastBar)
    else if addonName == AddonFocusTargetInfo then Route(targets.focusTarget, NodeIdFocusTargetInfo)
    else Route(None, 0)
  }

  /** The routed target exists, is a battle character, and is casting. */
  predicate IsCastingBattleChara(target: Option<GameObject>)
  {
    target.Some? && target.value.entity.BattleChara? && target.value.entity.isCasting
  }

  /**
   * The node with id `nodeId`, provided the id is below the addon's node
   * count and the node exists and is a text node.
   */
  function GetTextNodeById(addon: AddonView, nodeId: uint32): (r: Option<AtkNode>)
    ensures r.Some? <==> nodeId < addon.nodeListCount && nodeId in addon.nodes && addon.nodes[nodeId].kind == Text
    ensures r.Some? ==> r.value == addon.nodes[nodeId]
  {
    if addon.nodeListCount <= nodeId then None
    else if nodeId !in addon.nodes || addon.nodes[nodeId].kind != Text then None
    else Some(addon.nodes[nodeId])
  }

  /** The SeString the builder produces: top text, a new-line payload, bottom text. */
  function BilingualText(top: string, bottom: string): SeString
  {
    [TextPayload(top), NewLinePayload, TextPayload(bottom)]
  }

  /** What one frame does. */
  datatype FrameAction = Skip | Write(nodeId: uint32, top: string, bottom: string)

  /**
   * The decision `OnAddonPostDraw` takes from the addon (null or its state),
   * its name, the current targets and the four name sources.
   */
  function PostDrawAction(addon: Option<AddonView>, addonName: string, targets: Targets, slots: SourceSlots): FrameAction
  {
    if addon.None? || !addon.value.isVisible then Skip
    else
      var route := RouteAddon(addonName, targets);
      if !IsCastingBattleChara(route.target) then Skip
      else
        match GetTextNodeById(addon.value, route.textNodeId)
        case None => Skip
        case Some(node) =>
          var actionId := route.target.value.entity.castActionId;
          var top := GetActionName(actionId, slots.top.sheet, slots.top.external);
          var bottom := GetActionName(actionId, slots.bottom.sheet, slots.bottom.external);
          if top == "" || bottom == "" then Skip
          else if top == bottom then Skip
          else if Contains(node.text, bottom) then Skip
          else Write(route.textNodeId, top, bottom)
  }

  /** Height fix-up after a write: raise to the configured height (cast to ushort) if lower. */
  function HeightAfterWrite(height: ushort, castBarHeight: int): ushort
  {
    if height < castBarHeight then ToUShort(castBarHeight) else height
  }

  /** A text node after a write: it shows the bilingual text and has its height fixed up. */
  function RewrittenNode(node: AtkNode, top: string, bottom: string, castBarHeight: int): AtkNode
  {
    node.(text := PlainText(BilingualText(top, bottom)), height := HeightAfterWrite(node.height, castBarHeight))
  }

  /**
   * The buffer handed to the host: the encoded bytes copied into a fresh
   * array one longer, with a zero byte written at the end.
   */
  method NullTerminated(encoded: seq<byte>) returns (bytes: seq<byte>)
    ensures bytes == encoded + [0]
  {
    var buffer := new byte[|encoded| + 1];
    var i := 0;
    while i < |encoded|
      invariant 0 <= i <= |encoded|
      invariant buffer[..i] == encoded[..i]
    {
      buffer[i] := encoded[i];
      i := i + 1;
    }
    buffer[|encoded|] := 0;
    bytes := buffer[..];
  }

  /** Which slot a `LoadLanguageData` call fills. */
  datatype Slot = TopSlot | BottomSlot

  class Plugin {
    var configuration: Configuration

    // The one tracked unmanaged string (0 when none).
    var lastAllocatedStringPtr: nat

    // Name sources for the top line (learning target) and the bottom line (reference).
    var topLuminaSheet: Option<ActionSheet>
    var topExternalMap: Option<ExternalMap>
    var bottomLuminaSheet: Option<ActionSheet>
    var bottomExternalMap: Option<ExternalMap>

    // The host's unmanaged heap, seen through the plugin's own allocations.
    const heap: HGlobalHeap

    /** At most one allocation is live, and it is the tracked one. */
    ghost predicate Valid()
      reads this, heap
    {
      heap.Valid()
      && heap.blocks.Keys == (if lastAllocatedStringPtr == 0 then {} else {lastAllocatedStringPtr})
    }

    function Slots(): SourceSlots
      reads this
    {
      SourceSlots(SlotData(topLuminaSheet, topExternalMap), SlotData(bottomLuminaSheet, bottomExternalMap))
    }

    function SlotFields(slot: Slot): SlotData
      reads this
    {
      match slot
      case TopSlot => Slots().top
      case BottomSlot => Slots().bottom
    }

    /** Either external table field is non-null. */
    predicate IsChineseDataLoaded()
      reads this
    {
      ActionCatalog.IsChineseDataLoaded(Slots())
    }

    /** Start-up: the saved record or a default one, nothing allocated, sources loaded. */
    constructor (saved: Option<Configuration>, env: DataEnv)
      ensures Valid() && fresh(heap)
      ensures configuration == if saved.Some? then saved.value else DefaultConfiguration()
      ensures lastAllocatedStringPtr == 0
      ensures Slots() == ReloadedSlots(configuration, env).slots
    {
      configuration := if saved.Some? then saved.value else DefaultConfiguration();
      lastAllocatedStringPtr := 0;
      topLuminaSheet, topExternalMap := None, None;
      bottomLuminaSheet, bottomExternalMap := None, None;
      heap := new HGlobalHeap();
      new;
      var _ := ReloadDataSources(env);
    }

    /** Teardown, as far as the plugin's memory goes: the tracked buffer is released. */
    method Dispose()
      requires Valid()
      modifies this`lastAllocatedStringPtr, heap
      ensures Valid()
      ensures lastAllocatedStringPtr == 0 && heap.blocks == map[]
    {
      FreeLastString();
    }

    /** Frees the tracked buffer, if any; with none tracked it touches nothing. */
    method FreeLastString()
      requires Valid()
      modifies this`lastAllocatedStringPtr, heap
      ensures Valid()
      ensures lastAllocatedStringPtr == 0 && heap.blocks == map[]
      ensures old(lastAllocatedStringPtr) == 0 ==> unchanged(heap)
    {
      if lastAllocatedStringPtr != 0 {
        heap.FreeHGlobal(lastAllocatedStringPtr);
        lastAllocatedStringPtr := 0;
      }
    }

    /**
     * Releases the old buffer, builds and allocates the new null-terminated
     * one, tracks it, and makes the node show the string.
     */
    method SetNodeText(addon: AtkUnitBase, nodeId: uint32, seString: SeString, encode: SeString -> seq<byte>)
      requires Valid() && nodeId in addon.nodes
      modifies this`lastAllocatedStringPtr, heap, addon`nodes
      ensures Valid()
      ensures lastAllocatedStringPtr != 0
      ensures heap.liveAtLastAlloc == 0  // the old buffer was freed before the new one was allocated
      ensures heap.blocks == map[lastAllocatedStringPtr := encode(seString) + [0]]
      ensures addon.nodes == old(addon.nodes)[nodeId := old(addon.nodes)[nodeId].(text := PlainText(seString))]
    {
      FreeLastString();
      var encoded := encode(seString);
      var bytes := NullTerminated(encoded);
      var p := heap.AllocHGlobal(|bytes|);
      heap.Copy(bytes, p);
      lastAllocatedStringPtr := p;
      addon.nodes := addon.nodes[nodeId := addon.nodes[nodeId].(text := PlainText(seString))];
    }

    /**
     * One frame of a monitored addon. Nothing changes unless the frame
     * qualifies for a write; a write installs exactly the encoded bilingual
     * string plus its terminator as the only live buffer, and changes only
     * the text and height of the one routed node.
     */
    method OnAddonPostDraw(addon: AtkUnitBase?, addonName: string, targets: Targets, encode: SeString -> seq<byte>)
      requires Valid()
      modifies this`lastAllocatedStringPtr, heap, addon
      ensures Valid()
      ensures addon != null ==> addon.isVisible == old(addon.isVisible) && addon.nodeListCount == old(addon.nodeListCount)
      ensures var action := PostDrawAction(if addon == null then None else Some(old(addon.View())), addonName, targets, Slots());
        match action
        case Skip =>
          && lastAllocatedStringPtr == old(lastAllocatedStringPtr)
          && heap.blocks == old(heap.blocks)
          && (addon != null ==> addon.nodes == old(addon.nodes))
        case Write(nodeId, top, bottom) =>
          && addon != null
          && nodeId in old(addon.nodes)
          && addon.nodes == old(addon.nodes)[nodeId := RewrittenNode(old(addon.nodes)[nodeId], top, bottom, configuration.castBarHeight)]
          && heap.liveAtLastAlloc == 0
          && heap.blocks == map[lastAllocatedStringPtr := encode(BilingualText(top, bottom)) + [0]]
    {
      if addon == null || !addon.isVisible {
        return;
      }

      var target: Option<GameObject> := None;
      var textNodeId: uint32 := 0;
      if addonName == AddonTargetInfo {
        target, textNodeId := targets.target, NodeIdTargetInfo;
      } else if addonName == AddonTargetInfoCastBar {
        target, textNodeId := targets.target, NodeIdTargetInfoCastBar;
      } else if addonName == AddonFocusTargetInfo {
        target, textNodeId := targets.focusTarget, NodeIdFocusTargetInfo;
      }

      if !(target.Some? && target.value.entity.BattleChara? && target.value.entity.isCasting) {
        return;
      }

      var textNode := GetTextNodeById(addon.View(), textNodeId);
      if textNode.None? {
        return;
      }

      var actionId := target.value.entity.castActionId;
      var topName := GetActionName(actionId, topLuminaSheet, topExternalMap);
      var bottomName := GetActionName(actionId, bottomLuminaSheet, bottomExternalMap);

      if topName == "" || bottomName == "" {
        return;
      }
      if topName == bottomName {
        return;
      }

      var currentText := textNode.value.text;
      if Contains(currentText, bottomName) {
        return;
      }

      var seString := BilingualText(topName, bottomName);
      SetNodeText(addon, textNodeId, seString, encode);

      var castBarHeight := configuration.castBarHeight;
      var node := addon.nodes[textNodeId];
      if node.height < castBarHeight {
        addon.nodes := addon.nodes[textNodeId := node.(height := ToUShort(castBarHeight))];
      }
    }

    /**
     * Clears all four source fields, then loads the top slot and, if that
     * did not throw, the bottom slot; a thrown load is caught and notified.
     */
    method ReloadDataSources(env: DataEnv) returns (notified: bool)
      modifies this`topLuminaSheet, this`topExternalMap, this`bottomLuminaSheet, this`bottomExternalMap
      ensures Slots() == ReloadedSlots(configuration, env).slots
      ensures notified == ReloadedSlots(configuration, env).notified
      ensures IsChineseDataLoaded() <==>
        && env.chineseData.Returned? && env.chineseData.value.Some?
        && (configuration.topLanguage == ChineseTraditional
            || (configuration.bottomLanguage == ChineseTraditional && !LoadedSlot(configuration.topLanguage, env).threw))
    {
      topLuminaSheet := None;
      topExternalMap := None;
      bottomLuminaSheet := None;
      bottomExternalMap := None;

      var threw := LoadLanguageData(configuration.topLanguage, TopSlot, env);
      if !threw {
        threw := LoadLanguageData(configuration.bottomLanguage, BottomSlot, env);
      }
      notified := threw;
      ChineseDataLoadedAfterReload(configuration, env);
    }

    /**
     * Loads one language into one slot's two fields: both are cleared, then
     * the language's loader fills the sheet or the external table. A loader
     * that throws leaves them cleared and the exception propagates.
     */
    method LoadLanguageData(language: GameLanguage, slot: Slot, env: DataEnv) returns (threw: bool)
      modifies this`topLuminaSheet, this`topExternalMap, this`bottomLuminaSheet, this`bottomExternalMap
      ensures threw == LoadedSlot(language, env).threw
      ensures SlotFields(slot) == LoadedSlot(language, env).data
      ensures slot == TopSlot ==> Slots().bottom == old(Slots().bottom)
      ensures slot == BottomSlot ==> Slots().top == old(Slots().top)
    {
      SetSheet(slot, None);
      SetExternal(slot, None);

      var sheet: Loaded<ActionSheet>;
      match language {
        case English => sheet := env.englishSheet;
        case Japanese => sheet := env.japaneseSheet;
        case German => sheet := env.germanSheet;
        case French => sheet := env.frenchSheet;
        case ChineseTraditional =>
          match env.chineseData {
            case Threw => threw := true;
            case Returned(m) => SetExternal(slot, m); threw := false;
          }
          return;
      }
      match sheet {
        case Threw => threw := true;
        case Returned(s) => SetSheet(slot, s); threw := false;
      }
    }

    /** Writes the slot's sheet field (the source writes it through an output-parameter alias). */
    method SetSheet(slot: Slot, s: Option<ActionSheet>)
      modifies this`topLuminaSheet, this`bottomLuminaSheet
      ensures SlotFields(slot) == old(SlotFields(slot)).(sheet := s)
      ensures slot == TopSlot ==> Slots().bottom == old(Slots().bottom)
      ensures slot == BottomSlot ==> Slots().top == old(Slots().top)
    {
      if slot == TopSlot {
        topLuminaSheet := s;
      } else {
        bottomLuminaSheet := s;
      }
    }

    /** Writes the slot's external-table field (the source writes it through an output-parameter alias). */
    method SetExternal(slot: Slot, m: Option<ExternalMap>)
      modifies this`topExternalMap, this`bottomExternalMap
      ensures SlotFields(slot) == old(SlotFields(slot)).(external := m)
      ensures slot == TopSlot ==> Slots().bottom == old(Slots().bottom)
      ensures slot == BottomSlot ==> Slots().top == old(Slots().top)
    {
      if slot == TopSlot {
        topExternalMap := m;
      } else {
        bottomExternalMap := m;
      }
    }
  }
}
