/**
 * What the plugin reads from and writes to in the game client, reduced to
 * plain values: fixed-width integers, UI nodes of an addon (a named UI
 * panel), game objects with their casting state, and the game's rich-text
 * strings (SeString).
 */
module Host {

  import opened Wrappers

  type byte = b: int | 0 <= b < 0x100
  type ushort = h: int | 0 <= h < 0x1_0000
  type uint32 = n: int | 0 <= n < 0x1_0000_0000

  /** C#'s unchecked `(ushort)` cast of an `int`: keep the low 16 bits. */
  function ToUShort(x: int): ushort
  {
    x % 0x1_0000
  }

  // ---------------------------------------------------------------- UI nodes

  /** Kinds of UI nodes; only `Text` nodes carry a rendered string. */
  datatype NodeType = Res | Image | Text | NineGrid | Counter | Collision | ClippingMask | Component

  /** One UI node: its kind, the text it currently shows and its height. */
  datatype AtkNode = AtkNode(kind: NodeType, text: string, height: ushort)

  /** The readable state of an addon at one instant. */
  datatype AddonView = AddonView(isVisible: bool, nodeListCount: nat, nodes: map<uint32, AtkNode>)

  /**
   * A live addon owned by the game. Its node map is updated in place when the
   * plugin rewrites a text node.
   */
  class AtkUnitBase {
    var isVisible: bool
    var nodeListCount: nat
    var nodes: map<uint32, AtkNode>  // node id -> node

    constructor (isVisible: bool, nodeListCount: nat, nodes: map<uint32, AtkNode>)
      ensures View() == AddonView(isVisible, nodeListCount, nodes)
    {
      this.isVisible := isVisible;
      this.nodeListCount := nodeListCount;
      this.nodes := nodes;
    }

    function View(): AddonView
      reads this
    {
      AddonView(isVisible, nodeListCount, nodes)
    }
  }

  // ------------------------------------------------------------ game objects

  /** Kind tag of a game object. */
  datatype ObjectKind = Player | BattleNpc | EventNpc | Treasure | Aetheryte | GatheringPoint
                      | EventObj | MountType | Companion | Retainer | Area | Housing
                      | Cutscene | CardStand | Ornament

  /**
   * How much of the character interface hierarchy an object implements:
   * a plain object, a character (with its status-flag byte), or a battle
   * character (a character that can cast, with its current cast action id).
   */
  datatype EntityClass =
    | PlainObject
    | Character(statusFlags: bv8)
    | BattleChara(statusFlags: bv8, isCasting: bool, castActionId: uint32)

  datatype GameObject = GameObject(kind: ObjectKind, entity: EntityClass)

  /** The target manager's two selections; `None` is a null target. */
  datatype Targets = Targets(target: Option<GameObject>, focusTarget: Option<GameObject>)

  // -------------------------------------------------------------- SeStrings

  /** The two payload kinds the plugin builds. */
  datatype Payload = TextPayload(text: string) | NewLinePayload

  type SeString = seq<Payload>

  /** The text a node shows for a SeString: a line break renders as "\n". */
  function PlainText(s: SeString): string
  {
    if s == [] then ""
    else
      (match s[0]
       case TextPayload(t) => t
       case NewLinePayload => "\n") + PlainText(s[1..])
  }
}
