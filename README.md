# mc-chestui `GUIItem` in Dafny

This project models the item builder of mc-chestui: a `GUIItem` owns one
Bukkit item stack and lets a caller configure the display name, lore,
stack size, skull owner and profile, a glow effect and the custom model
data. The setters for name, lore, skull owner, player profile, glow and
custom model data prepare a value and commit it to the item's metadata as
one snapshot-and-replace edit (`meta { }`, which is `stack.editMeta`).
The `amount` setter writes only the stack's count. The `glowing` setter
also records the new value in the builder's own `glowing` field.

Layout:

- `kotlin_types.dfy`, module `KotlinTypes`: nullable values (`Option`) and Kotlin's 32-bit `Int` (`int32`).
- `adventure.dfy`, module `Adventure`: a text component reduced to its text and its italic state.
  `DecorationIfAbsent` fills in a default italic. `RemoveNewlines` is the literal `"\n"` → `""` text replacement.
- `bukkit.dfy`, module `Bukkit`: materials, enchantments, item flags, and the opaque player and profile identities.
  It also has the `Meta` datatype with its `PlainMeta` and `SkullMeta` variants, the item stack, and the four metadata edits the builder uses.
- `gui_item.dfy`, module `MCChestUI`: the pure edits each setter commits, lemmas about them, and the class `GUIItem`.
  In the class, the metadata edit and every setter are methods with `modifies this`, and the getters are functions.
  Three client methods at the end walk through typical uses.

Host behaviour is abstracted as follows:

- The metadata snapshot is a value. Taking it already gives a detached copy, and committing assigns the stack's `meta`.
- Which metadata class a material gets is decided by the host's item factory. The model records it in the material (`Material.metaClass`).
  The class invariant `GUIItem.Valid` says the metadata variant always fits the material.
- `customModelData` is `None` while unset. Bukkit's getter raises an error in that state instead of returning a value.
- Other code can add or remove the glow enchantment through a raw `EditMeta`, and the builder's `glowing` value does not follow.
  This is the known desync between the flag and the metadata; `RawGlintClient` shows it.

Behaviour worth noting:

- Glow round trip: turning glow on and then off restores the enchantments and flags only when neither `ARROW_INFINITE` nor `HIDE_ENCHANTS` was present before. `GlowRoundTrip` proves both directions.
- Amount: the builder does not keep the amount positive. Any Kotlin `Int` is stored.
- Custom model data: a fresh item has no custom model data, not a value of zero. It stays absent until it is set.

## Model

| member | source | states |
|---|---|---|
| `Adventure.DecorationIfAbsent` | src/main/kotlin/me/tech/mcchestui/GUIItem.kt:71 | text content is kept; an explicit italic is kept unchanged; an unset italic becomes the given state |
| `Adventure.DecorationIfAbsentIdempotent` | src/main/kotlin/me/tech/mcchestui/GUIItem.kt:71 | filling in the italic default twice equals filling it in once |
| `Adventure.RemoveNewlines` | src/main/kotlin/me/tech/mcchestui/GUIItem.kt:172-176 | the result has no newline; every other character keeps its count; a newline-free text is returned unchanged |
| `Adventure.RemoveNewlinesConcat` | src/main/kotlin/me/tech/mcchestui/GUIItem.kt:172-176 | removal distributes over concatenation, so the kept characters stay in their order |
| `Bukkit.EmptyMeta` | src/main/kotlin/me/tech/mcchestui/GUIItem.kt:35 | a fresh item's metadata has the variant of its material and has no name, lore, enchantments, flags, custom model data, owner or profile |
| `MCChestUI.PrepareName` | src/main/kotlin/me/tech/mcchestui/GUIItem.kt:70-74 | null stays null; policy off keeps the name as given; policy on keeps the text, sets an unset italic to false and keeps an explicit one |
| `MCChestUI.PrepareLore` | src/main/kotlin/me/tech/mcchestui/GUIItem.kt:87-91 | null stays null; policy off keeps the lore as given; policy on keeps the line count and order and gives each line the same italic treatment as a name |
| `MCChestUI.SanitizeLore` | src/main/kotlin/me/tech/mcchestui/GUIItem.kt:171-177 | null stays null; the line count is kept; each line keeps its italic state and loses exactly its newlines |
| `MCChestUI.SanitizeLoreText` | src/main/kotlin/me/tech/mcchestui/GUIItem.kt:171-177 | the whole lore's text after sanitising is its text before with the newlines removed, so no character moves between lines or changes place |
| `MCChestUI.StoredLore` | src/main/kotlin/me/tech/mcchestui/GUIItem.kt:86-95 | the lore the setter commits has one line per given line; each line has its newlines removed and italic false exactly where the policy is on and italic was unset |
| `MCChestUI.AddGlow` | src/main/kotlin/me/tech/mcchestui/GUIItem.kt:140-143 | `ARROW_INFINITE` is mapped to level 0 (overwriting any level); `HIDE_ENCHANTS` is added; nothing else changes |
| `MCChestUI.RemoveGlow` | src/main/kotlin/me/tech/mcchestui/GUIItem.kt:146-149 | `ARROW_INFINITE` and `HIDE_ENCHANTS` are absent afterwards; all other enchantments, flags and fields are kept |
| `MCChestUI.GlowTwice` | src/main/kotlin/me/tech/mcchestui/GUIItem.kt:138-143 | turning glow on twice gives the same metadata as turning it on once |
| `MCChestUI.UnglowTwice` | src/main/kotlin/me/tech/mcchestui/GUIItem.kt:144-149 | turning glow off twice gives the same metadata as turning it off once |
| `MCChestUI.GlowLastWriteWins` | src/main/kotlin/me/tech/mcchestui/GUIItem.kt:137-150 | the last glow edit alone decides the result: off-then-on equals on, on-then-off equals off |
| `MCChestUI.GlowRoundTrip` | src/main/kotlin/me/tech/mcchestui/GUIItem.kt:137-150 | on-then-off restores the metadata if and only if neither `ARROW_INFINITE` nor `HIDE_ENCHANTS` was present before |
| `MCChestUI.WithSkullOwner` | src/main/kotlin/me/tech/mcchestui/GUIItem.kt:112-117 | on skull metadata the owner read back is the one written; on any other variant the metadata is unchanged and the owner reads null; the profile and all shared fields are kept |
| `MCChestUI.WithPlayerProfile` | src/main/kotlin/me/tech/mcchestui/GUIItem.kt:125-130 | on skull metadata the profile read back is the one written; on any other variant the metadata is unchanged and the profile reads null; the owner and all shared fields are kept |
| `MCChestUI.GUIItem.constructor` | src/main/kotlin/me/tech/mcchestui/GUIItem.kt:29-46 | a fresh item has amount 1, empty metadata fitting its material, the italics policy on, and is not glowing |
| `MCChestUI.GUIItem.EditMeta` | src/main/kotlin/me/tech/mcchestui/GUIItem.kt:60-62 | the stack's metadata becomes the edit applied to the old snapshot; nothing else changes; the variant invariant is kept |
| `MCChestUI.GUIItem.ItemMeta` | src/main/kotlin/me/tech/mcchestui/GUIItem.kt:40-41 | the snapshot returned is the metadata currently committed to the stack |
| `MCChestUI.GUIItem.GetName` | src/main/kotlin/me/tech/mcchestui/GUIItem.kt:68 | returns the snapshot's stored display name, or null when none is set |
| `MCChestUI.GUIItem.GetLore` | src/main/kotlin/me/tech/mcchestui/GUIItem.kt:85 | returns the snapshot's stored lore lines, or null when none are set |
| `MCChestUI.GUIItem.GetAmount` | src/main/kotlin/me/tech/mcchestui/GUIItem.kt:102 | returns the stack's current count |
| `MCChestUI.GUIItem.GetGlowing` | src/main/kotlin/me/tech/mcchestui/GUIItem.kt:136 | returns the builder's own glow field, not anything derived from the enchantments |
| `MCChestUI.GUIItem.GetCustomModelData` | src/main/kotlin/me/tech/mcchestui/GUIItem.kt:159 | returns the snapshot's custom model data; `None` stands for the unset state, in which the host getter throws |
| `MCChestUI.GUIItem.SetName` | src/main/kotlin/me/tech/mcchestui/GUIItem.kt:67-79 | the display name read back is the prepared name under the policy in force; only the display name changes |
| `MCChestUI.GUIItem.SetLore` | src/main/kotlin/me/tech/mcchestui/GUIItem.kt:84-96 | the lore read back is the prepared and then sanitised lore under the policy in force; only the lore changes |
| `MCChestUI.GUIItem.SetAmount` | src/main/kotlin/me/tech/mcchestui/GUIItem.kt:101-105 | the amount read back is the value written; the metadata and the builder state are unchanged |
| `MCChestUI.GUIItem.GetSkullOwner` | src/main/kotlin/me/tech/mcchestui/GUIItem.kt:113 | reads null on any metadata that is not the skull variant |
| `MCChestUI.GUIItem.SetSkullOwner` | src/main/kotlin/me/tech/mcchestui/GUIItem.kt:114-117 | on a skull the owner read back is the value written; on any other item the stack is unchanged |
| `MCChestUI.GUIItem.GetPlayerProfile` | src/main/kotlin/me/tech/mcchestui/GUIItem.kt:126 | reads null on any metadata that is not the skull variant |
| `MCChestUI.GUIItem.SetPlayerProfile` | src/main/kotlin/me/tech/mcchestui/GUIItem.kt:127-130 | on a skull the profile read back is the value written; on any other item the stack is unchanged |
| `MCChestUI.GUIItem.SetGlowing` | src/main/kotlin/me/tech/mcchestui/GUIItem.kt:136-153 | the glow edit for the value is committed, and the getter returns the value last assigned, whatever the enchantments hold |
| `MCChestUI.GUIItem.SetCustomModelData` | src/main/kotlin/me/tech/mcchestui/GUIItem.kt:158-164 | the custom model data read back is the value written; no other field changes |

## Left out

- `GUI.Slot.item` (`GUIItem.kt:26-27`): it depends on the `GUI` type, which is not part of this model. It only builds a `GUIItem` and applies a caller lambda to it.
- `stack(builder)` (`GUIItem.kt:52-54`): it applies an arbitrary caller lambda to the host `ItemStack`, whose other fields are not modelled.
- `EditMeta`: the caller lambda is modelled as a total function `Meta -> Meta` that keeps the metadata variant. A lambda that throws, and the host's promise that nothing is committed when it does, are not modelled.
- The air material: the host gives items of air no metadata. Air is also the default material of `GUI.Slot.item` (`GUIItem.kt:26`).
  On air, the `name`, `lore` and `customModelData` getters (`GUIItem.kt:68`, `85`, `159`) fail because they use the missing metadata directly.
  The `skullOwner` and `playerProfile` getters return null. Every metadata edit is skipped, since `editMeta` does nothing when there is no metadata.
  The `glowing` setter still records the value in the builder's field (`GUIItem.kt:152`), so `glowing` can read true on air.
  The model gives every material metadata.
- Materials that cannot be items: `Material` stands only for materials the host can build an item of. The host's `ItemStack(type, 1)` (`GUIItem.kt:35`) rejects any other material, and that rejection is not modelled.
- GetCustomModelData: the host's getter throws while custom model data is unset. The model returns `None` in that state instead of raising an error.
- Skull identity: the host keeps the owning player and the player profile in one underlying game profile, so writing one also rewrites the other.
  The model stores them as two independent fields (`WithSkullOwner`, `WithPlayerProfile`). The model also takes the owner read back to be the very value written.
- Text components: child components, styles other than italic, and the general `replaceText` engine are left out. Only a flat text with a literal-newline replacement is modelled.
- Enchantment level restrictions: `addEnchant` is modelled only with restrictions ignored, the one form the builder uses. The registries of enchantments, flags and materials are opaque identifiers.
- Range limits: the host's own range limits on the amount and on custom model data are left out. The builder performs no validation itself.
