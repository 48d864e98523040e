/**
 * What the cast-bar decision and its height fix-up promise, stated over
 * `CastBar.PostDrawAction` and `CastBar.HeightAfterWrite`.
 */
module CastBarProperties {

  import opened Wrappers
  import opened Config
  import opened Host
  import opened Strings
  import opened ActionCatalog
  import opened CastBar

  /** The three monitored addons and their (target, node id) pairs; any other name routes nowhere. */
  lemma RoutingTable(addonName: string, targets: Targets)
    ensures addonName == "_TargetInfo" ==> RouteAddon(addonName, targets) == Route(targets.target, 12)
    ensures addonName == "_TargetInfoCastBar" ==> RouteAddon(addonName, targets) == Route(targets.target, 4)
    ensures addonName == "_FocusTargetInfo" ==> RouteAddon(addonName, targets) == Route(targets.focusTarget, 5)
    ensures addonName !in {"_TargetInfo", "_TargetInfoCastBar", "_FocusTargetInfo"} ==>
      RouteAddon(addonName, targets).target == None
  {
  }

  /** A frame for any other addon never writes. */
  lemma UnknownAddonNeverWrites(addon: Option<AddonView>, addonName: string, targets: Targets, slots: SourceSlots)
    requires addonName !in {"_TargetInfo", "_TargetInfoCastBar", "_FocusTargetInfo"}
    ensures PostDrawAction(addon, addonName, targets, slots) == Skip
  {
  }

  /**
   * A frame writes only when every guard holds: a visible addon, a casting
   * battle character as the routed target, a text node under the routed id
   * within the node count, two non-empty, different names looked up for the
   * cast action, and current node text that does not already contain the
   * bottom name.
   */
  lemma WriteOnlyWhenGuardsHold(addon: Option<AddonView>, addonName: string, targets: Targets, slots: SourceSlots)
    requires PostDrawAction(addon, addonName, targets, slots).Write?
    ensures var w := PostDrawAction(addon, addonName, targets, slots);
      var route := RouteAddon(addonName, targets);
      && addon.Some? && addon.value.isVisible
      && IsCastingBattleChara(route.target)
      && w.nodeId == route.textNodeId
      && w.nodeId < addon.value.nodeListCount
      && w.nodeId in addon.value.nodes
      && addon.value.nodes[w.nodeId].kind == Text
      && w.top == GetActionName(route.target.value.entity.castActionId, slots.top.sheet, slots.top.external)
      && w.bottom == GetActionName(route.target.value.entity.castActionId, slots.bottom.sheet, slots.bottom.external)
      && w.top != "" && w.bottom != "" && w.top != w.bottom
      && !Contains(addon.value.nodes[w.nodeId].text, w.bottom)
  {
  }

  /** The rewritten node shows the top name, a line break and the bottom name. */
  lemma {:induction false} RewrittenText(node: AtkNode, top: string, bottom: string, castBarHeight: int)
    ensures RewrittenNode(node, top, bottom, castBarHeight).text == top + "\n" + bottom
    ensures RewrittenNode(node, top, bottom, castBarHeight).kind == node.kind
  {
    var s := BilingualText(top, bottom);
    assert s[1..][1..][1..] == [];
    assert PlainText(s[1..][1..]) == bottom + PlainText(s[1..][1..][1..]);
    assert PlainText(s[1..]) == "\n" + PlainText(s[1..][1..]);
  }

  /**
   * Anti-flicker: right after a write, the same frame again (same addon
   * state apart from the rewritten node, same targets, same sources) does
   * nothing, because the node's text now contains the bottom name.
   */
  lemma {:induction false} RepeatedFrameIsNoOp(a: AddonView, addonName: string, targets: Targets, slots: SourceSlots, castBarHeight: int)
    requires PostDrawAction(Some(a), addonName, targets, slots).Write?
    ensures var w := PostDrawAction(Some(a), addonName, targets, slots);
      var a' := a.(nodes := a.nodes[w.nodeId := RewrittenNode(a.nodes[w.nodeId], w.top, w.bottom, castBarHeight)]);
      PostDrawAction(Some(a'), addonName, targets, slots) == Skip
  {
    var w := PostDrawAction(Some(a), addonName, targets, slots);
    var node' := RewrittenNode(a.nodes[w.nodeId], w.top, w.bottom, castBarHeight);
    RewrittenText(a.nodes[w.nodeId], w.top, w.bottom, castBarHeight);
    assert node'.text == (w.top + "\n") + w.bottom;
    ContainsSuffix(w.top + "\n", w.bottom);
  }

  /**
   * The height fix-up for a configured height that fits a ushort: the node
   * ends at least as tall as before and at least the configured height, and
   * becomes exactly the configured height when it was lower.
   */
  lemma HeightNeverLowered(height: ushort, castBarHeight: int)
    requires castBarHeight < 0x1_0000
    ensures HeightAfterWrite(height, castBarHeight) >= height
    ensures HeightAfterWrite(height, castBarHeight) >= castBarHeight
    ensures height < castBarHeight ==> HeightAfterWrite(height, castBarHeight) == castBarHeight
    ensures height >= castBarHeight ==> HeightAfterWrite(height, castBarHeight) == height
  {
  }

  /**
   * The record bounds no height: above the ushort range the `(ushort)` cast
   * wraps, so the node gets the configured height modulo 65536; a node of
   * height 44 configured to 65566 is lowered to 30.
   */
  lemma HeightWrapsAboveUShortRange(height: ushort, castBarHeight: int)
    requires castBarHeight >= 0x1_0000
    ensures HeightAfterWrite(height, castBarHeight) == castBarHeight % 0x1_0000
    ensures HeightAfterWrite(44, 0x1_0000 + 30) == 30
  {
  }

  /**
   * Equal top and bottom languages never produce a write after a reload:
   * the two names looked up are equal (or empty), whatever is cast.
   */
  lemma SameLanguageNeverWrites(config: Configuration, env: DataEnv, addon: Option<AddonView>, addonName: string, targets: Targets)
    requires config.topLanguage == config.bottomLanguage
    ensures PostDrawAction(addon, addonName, targets, ReloadedSlots(config, env).slots) == Skip
  {
    var route := RouteAddon(addonName, targets);
    if route.target.Some? && route.target.value.entity.BattleChara? {
      SameLanguageSameNames(config, env, route.target.value.entity.castActionId);
    }
  }
}
