# Cast Bar Translator — a Dafny model

This project models the core of a game-client plugin that shows the name of
the action a target is casting in two languages. Every drawn frame of three
target panels ("addons") is handled the same way. The plugin finds the
panel's cast-text node and the casting battle character. It looks the cast
action up in a top language and a bottom language. It then rewrites the node
to "top name, line break, bottom name" and raises the node's height for the
second line. The rewritten string lives in one unmanaged buffer that the
plugin tracks in a single slot.

The model also covers:

- the settings record with its language enum and defaults;
- the name catalog: a game data sheet per built-in language, or an external
  id → name table for Traditional Chinese;
- the two Python generators of that table from the Chinese-server CSV;
- the earlier prototype that showed a (Japanese, English) name pair in a window.

Modules, one per file:

| file | module | models |
|---|---|---|
| `wrappers.dfy` | `Wrappers` | `Option`, standing for C# `null` |
| `configuration.dfy` | `Config` | `GameLanguage`, `Configuration` and its defaults |
| `host.dfy` | `Host` | fixed-width integers, UI nodes and addons, game objects, SeString payloads |
| `native_heap.dfy` | `NativeHeap` | `AllocHGlobal` / `Copy` / `FreeHGlobal` as a map of live blocks |
| `strings.dfy` | `Strings` | ordinal `string.Contains` |
| `action_catalog.dfy` | `ActionCatalog` | `GetActionName`, and loading and reloading as functions |
| `cast_bar.dfy` | `CastBar` | the plugin class: frame handler, buffer slot, source fields |
| `cast_bar_properties.dfy` | `CastBarProperties` | lemmas about the frame decision and the height fix-up |
| `translation_table.dfy` | `TranslationTable` | both table generators and their lemmas |
| `dual_casting.dfy` | `DualCasting` | the prototype plugin and its window's name pair |

State that the source changes in place is modelled as classes:

- `CastBar.Plugin` holds the configuration, the four source fields and the
  tracked buffer pointer. Its `Valid()` says that the heap's live blocks are
  exactly the tracked one, or none when the pointer is zero.
- `Host.AtkUnitBase` is the addon, whose node map the frame updates.
- `NativeHeap.HGlobalHeap` is the unmanaged heap, restricted to the plugin's
  own allocations.
- `DualCasting.MainWindow` holds the displayed name pair.

Each state-changing method is proved against a pure function:

- `OnAddonPostDraw` against `PostDrawAction`;
- `ReloadDataSources` against `ReloadedSlots`, and `LoadLanguageData` against `LoadedSlot`;
- `OnUpdateEvent` against `NextNames`;
- each generator against `ActionMap`.

The lemmas are stated about these functions.

Inputs that come from the host are parameters:

- the current and focus targets;
- what each sheet loader and the JSON loader yield (`DataEnv`: a table,
  null, or an exception);
- the SeString encoder (`SeString -> seq<byte>`);
- the simplified-to-traditional converter (`string -> string`).

Three behaviours of the code are kept as written:

- The height fix-up runs only when the text is written, not on every
  qualifying frame.
- The anti-flicker rule is substring containment of the bottom name. It is
  not an exact cache of the last string written.
- There is one buffer slot for the whole plugin, not one per node.

## Model

| member | source | states |
|---|---|---|
| `Config.DefaultConfiguration` | CastBarTranslator/Configuration.cs:25-42 | A fresh record has version 1, top Japanese, bottom English and height 44. The two languages differ and 44 lies in the 30–60 slider range. |
| `ActionCatalog.GetActionName` | CastBarTranslator/Plugin.cs:280-298 | An external table, when present, answers alone: the stored name, or "" for a missing id. Otherwise a present sheet row gives its name, and a missing sheet or row gives "". Nothing fails. |
| `ActionCatalog.ExternalTableShadowsSheet` | CastBarTranslator/Plugin.cs:285-289 | With an external table present, the result does not depend on the sheet. |
| `ActionCatalog.LoadedSlot` | CastBarTranslator/Plugin.cs:132-158 | Traditional Chinese fills only the external table field. The other four languages fill only the sheet field. A throwing loader leaves both fields cleared. |
| `ActionCatalog.ReloadedSlots` | CastBarTranslator/Plugin.cs:102-130 | The notification is raised iff a load threw. A throwing top load leaves all four fields cleared. Otherwise the top slot holds the top language's load and the bottom slot the bottom language's load. |
| `ActionCatalog.LoadedSlotMatchesCatalog` | CastBarTranslator/Plugin.cs:132-158 | A loaded slot, read through `GetActionName`, equals the language's catalog as one tagged value (host table, file table or none). |
| `ActionCatalog.ReloadAnswersFromCatalogs` | CastBarTranslator/Plugin.cs:102-116 | After a reload the top line answers exactly from the top language's catalog. The bottom line answers from its catalog, or "" for every id when the top load threw. Nothing loaded earlier survives. |
| `ActionCatalog.ChineseDataLoadedAfterReload` | CastBarTranslator/Plugin.cs:65 | After a reload, `IsChineseDataLoaded` holds iff the JSON loader returned a table and Traditional Chinese was loaded into a slot. That slot is the top one, or the bottom one when the top load did not throw. |
| `ActionCatalog.SameLanguageSameNames` | CastBarTranslator/Plugin.cs:110-116 | Equal top and bottom languages give equal names for every action. |
| `Strings.ContainsIffOccurs` | CastBarTranslator/Plugin.cs:259-260 | The recursive `Contains` holds iff the substring occurs at some index (both directions). |
| `Strings.ContainsSuffix` | CastBarTranslator/Plugin.cs:259-261 | A string that ends in `sub` contains `sub`. |
| `CastBar.GetTextNodeById` | CastBarTranslator/Plugin.cs:300-310 | Gives a node iff the id is below the node count, the node exists and it is a Text node; the node given is the one stored under the id. |
| `CastBar.NullTerminated` | CastBarTranslator/Plugin.cs:316-319 | The buffer built by the copy loop and the final index write is exactly the encoded bytes followed by one zero byte. |
| `CastBar.Plugin.constructor` | CastBarTranslator/Plugin.cs:68-77 | The plugin uses the saved record, or the default record when none is saved. Nothing is allocated. The source fields are those of a reload. |
| `CastBar.Plugin.Dispose` | CastBarTranslator/Plugin.cs:91-97 | Teardown leaves the slot at zero and no live buffer. |
| `CastBar.Plugin.FreeLastString` | CastBarTranslator/Plugin.cs:327-334 | Afterwards the slot is zero and no buffer is live. With no buffer tracked, the heap is untouched, so a second call frees nothing. |
| `CastBar.Plugin.SetNodeText` | CastBarTranslator/Plugin.cs:312-325 | The previous buffer is freed before the allocation: no block was live when the new one was allocated. The only live block is then the new tracked one, holding encode(s) + [0]. Only that node's text changes. |
| `CastBar.Plugin.OnAddonPostDraw` | CastBarTranslator/Plugin.cs:211-278 | When `PostDrawAction` is Skip, the nodes, the heap and the slot are all unchanged. When it is a write, only the routed node changes: it gets the bilingual text and the height fix-up. The heap then holds exactly one block, the tracked one, equal to encode(top, newline, bottom) + [0]. |
| `CastBar.Plugin.ReloadDataSources` | CastBarTranslator/Plugin.cs:102-130 | The four fields afterwards depend only on the configuration and on what the loaders yield: first clear, then top, then bottom if top did not throw. Chinese data counts as loaded iff the Chinese table was returned and a slot set to Chinese Traditional was loaded. |
| `CastBar.Plugin.LoadLanguageData` | CastBarTranslator/Plugin.cs:132-158 | The chosen slot's two fields become the language's load, and the other slot keeps its fields. Whether the call threw is returned. |
| `CastBarProperties.RoutingTable` | CastBarTranslator/Plugin.cs:221-235 | `_TargetInfo` routes to (target, 12), `_TargetInfoCastBar` to (target, 4) and `_FocusTargetInfo` to (focus target, 5). Any other name routes to a null target. |
| `CastBarProperties.UnknownAddonNeverWrites` | CastBarTranslator/Plugin.cs:218-238 | A frame for any other addon name never writes. |
| `CastBarProperties.WriteOnlyWhenGuardsHold` | CastBarTranslator/Plugin.cs:213-261 | A write needs all of: a visible addon; a routed target that is a casting battle character; a routed id below the node count naming a Text node; two non-empty, different names for the cast action; node text that does not already contain the bottom name. |
| `CastBarProperties.RewrittenText` | CastBarTranslator/Plugin.cs:264-270 | After a write the node shows top + "\n" + bottom and keeps its kind. |
| `CastBarProperties.RepeatedFrameIsNoOp` | CastBarTranslator/Plugin.cs:258-261 | Repeating the same frame right after a write does nothing: the text contains the bottom name, so the anti-flicker rule skips. |
| `CastBarProperties.HeightNeverLowered` | CastBarTranslator/Plugin.cs:273-277 | For a configured height that fits a ushort, the node becomes that height iff it was lower, and is otherwise unchanged. It is never lowered. |
| `CastBarProperties.HeightWrapsAboveUShortRange` | CastBarTranslator/Plugin.cs:273-277 | A configured height above 65535 wraps in the `(ushort)` cast: any node ends at the configured height modulo 65536, so a node of height 44 set to 65566 ends at 30. |
| `CastBarProperties.SameLanguageNeverWrites` | CastBarTranslator/Plugin.cs:250-256 | With equal top and bottom languages, no frame writes after a reload. The record does not forbid the case; the patcher absorbs it. |
| `TranslationTable.GenerateActionMap` | scripts/generate_translations.py:28-44 | The loop builds exactly `ActionMap(rows)`. It reports the number of distinct ids stored. |
| `TranslationTable.GenerateActionMapCounted` | SamplePlugin/generate_translations.py:31-63 | The loop builds exactly `ActionMap(rows)`. `row_count` starts at 0 and ends at the number of accepted rows, repeats included. |
| `TranslationTable.AcceptedIdsMembership` | SamplePlugin/generate_translations.py:41-61 | An id is among the stored rows' ids iff some row passing all filters carries it. |
| `TranslationTable.KeysAreAcceptedIds` | scripts/generate_translations.py:30-42 | The table's keys are exactly the ids of accepted rows. |
| `TranslationTable.ActionMapKeys` | scripts/generate_translations.py:30-42 | An id is stored iff some row has at least 2 columns, an all-digit non-empty raw id (not normalised) and a non-empty name. Every key is a digit string. |
| `TranslationTable.LastRowWins` | scripts/generate_translations.py:40-42 | The value stored under an id is the converted name of the last accepted row with that id. |
| `TranslationTable.RowCountBoundsTableSize` | SamplePlugin/generate_translations.py:39-63 | `row_count >= len(action_map)`, with equality iff no id repeats among accepted rows. |
| `DualCasting.IsCasting` | SamplePlugin/Plugin.cs:126-133 | True iff the object is a character whose status-flag byte has its top bit set; false for a plain object. |
| `DualCasting.GetCastingActionId` | SamplePlugin/Plugin.cs:135-142 | 0 for anything but a battle character, else its cast action id. |
| `DualCasting.MainWindow.SetSpellNames` | SamplePlugin/Windows/MainWindow.cs:30-34 | The window's pair becomes the given pair. |
| `DualCasting.Plugin.OnUpdateEvent` | SamplePlugin/Plugin.cs:100-107 | The pair afterwards is `NextNames` of the old pair, the target and the sheets. |
| `DualCasting.Plugin.HandleCasting` | SamplePlugin/Plugin.cs:109-124 | Not casting clears the pair to ("", ""). A casting target with id 0 keeps the pair. Otherwise the pair is the sheet names when the row exists, else unchanged. |
| `DualCasting.Plugin.DisplaySpellName` | SamplePlugin/Plugin.cs:144-158 | The pair changes only when the default-language row exists. It then becomes (that row's name, the English row's name or null). |
| `DualCasting.UnprocessedTargetKeepsNames` | SamplePlugin/Plugin.cs:100-107 | A null target, or one that is neither a player nor a battle NPC, leaves the pair unchanged. |
| `DualCasting.StoppedCastingClears` | SamplePlugin/Plugin.cs:119-122 | A processed target that is not casting resets the pair to ("", ""). |
| `DualCasting.NoActionKeepsNames` | SamplePlugin/Plugin.cs:114-118 | A casting target whose action id is 0, or whose row is missing, leaves the pair unchanged. |
| `DualCasting.NextNamesCases` | SamplePlugin/Plugin.cs:109-158 | After an update the pair is the old pair, the cleared pair, or the sheet names for the target's cast action. |

## Left out

- Host registration and teardown plumbing is not modelled: service injection, `RegisterListener`/`UnregisterListener`, UI builder hooks, the window system, logging and notifications. The error notification appears only as the boolean that `ReloadDataSources` returns.
- `LoadChineseData`, `GetChineseDataPath` and JSON parsing are not modelled. What the file loader yields (a table, null, or an exception) is the input `DataEnv.chineseData`.
- `CheckAndDownloadChineseData` is a reload plus a notification, so only the reload is modelled.
- A JSON entry whose value is null is not modelled. The patcher would treat it like a missing entry.
- Game sheets are abstract maps from row id to the row's plain-text name. Lumina and `ExtractText` are not modelled.
- The SeString encoder is a parameter. The text a node shows after `SetText` is modelled as the payloads' plain text, with the new-line payload read as "\n". Only its containing the bottom name matters to the model.
- Whether the host copies the buffer in `SetText` is not modelled. Only the plugin's own slot accounting is.
- `NativeHeap.HGlobalHeap`: allocation failure (an out-of-memory exception) is not modelled.
- `_lastActionId` is declared and never used, so it has no counterpart.
- The settings windows are not modelled, including the way they change the record and trigger reloads. The record's `castBarHeight` is unbounded in the model, as in the source. The 30–60 slider range appears only in `DefaultConfiguration`.
- `Configuration.Save` (persistence) is not modelled.
- `GameLanguage` is a closed datatype. A saved record holding an out-of-range enum number is not modelled; it would make `LoadLanguageData` leave both fields null.
- In the generators, the HTTP download, the exit on failure, CSV parsing and the JSON output are not modelled. The rows are the input, and the OpenCC conversion is a parameter.
- `TranslationTable.IsDigits`: Python's `str.isdigit` also accepts non-ASCII digit characters. The model accepts only '0'–'9'.
- The prototype's commands, window drawing, fonts and `Dispose` are not modelled. Its default-language sheet is an input.
- Object kinds: the model gives the host's `ObjectKind` a fixed list of constructors.
