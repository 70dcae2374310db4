/**
 * The host item platform (Bukkit/Paper) as far as the builder uses it:
 * materials, item metadata with its plain and skull variants, the item
 * stack, and the metadata edits the builder performs. Registries are
 * replaced by opaque identifiers.
 */
module Bukkit {
  import opened KotlinTypes
  import opened Adventure

  /** Which metadata class the host's item factory gives items of a material. */
  datatype MetaClass = PlainMetaClass | SkullMetaClass

  /** A material identifier, carrying the metadata class the host assigns it. */
  datatype Material = Material(key: string, metaClass: MetaClass)

  /** An enchantment identifier; `ArrowInfinite` is the one the builder uses for glow. */
  datatype Enchantment = ArrowInfinite | OtherEnchantment(key: string)

  /** An item flag; `HideEnchants` is the one the builder uses for glow. */
  datatype ItemFlag = HideEnchants | OtherItemFlag(key: string)

  /** Opaque identities stored in skull metadata. */
  datatype OfflinePlayer = OfflinePlayer(uuid: nat)
  datatype PlayerProfile = PlayerProfile(uuid: nat, name: string)

  /**
   * An `ItemMeta` snapshot. The fields shared by both variants carry the same
   * names; only `SkullMeta` has an owning player and a player profile.
   * `customModelData` is `None` while unset (the host's getter refuses to
   * answer then).
   */
  datatype Meta =
    | PlainMeta(
        displayName: Option<Component>,
        lore: Option<seq<Component>>,
        enchants: map<Enchantment, int>,
        flags: set<ItemFlag>,
        customModelData: Option<int32>)
    | SkullMeta(
        displayName: Option<Component>,
        lore: Option<seq<Component>>,
        enchants: map<Enchantment, int>,
        flags: set<ItemFlag>,
        customModelData: Option<int32>,
        owningPlayer: Option<OfflinePlayer>,
        playerProfile: Option<PlayerProfile>)

  /** The metadata variant fits the material. */
  predicate MetaFor(t: Material, m: Meta) {
    m.SkullMeta? <==> t.metaClass == SkullMetaClass
  }

  /** The metadata of a freshly created item: nothing set. */
  function EmptyMeta(t: Material): (m: Meta)
    ensures MetaFor(t, m)
    ensures m.displayName == None && m.lore == None && m.customModelData == None
    ensures m.enchants == map[] && m.flags == {}
    ensures m.SkullMeta? ==> m.owningPlayer == None && m.playerProfile == None
  {
    match t.metaClass
    case PlainMetaClass => PlainMeta(None, None, map[], {}, None)
    case SkullMetaClass => SkullMeta(None, None, map[], {}, None, None, None)
  }

  /** An item stack: a material, a count and a metadata snapshot. */
  datatype ItemStack = ItemStack(material: Material, amount: int32, meta: Meta)

  /** `addEnchant(e, level, true)`: with level restrictions ignored the entry is always written. */
  function AddEnchant(m: Meta, e: Enchantment, level: int): Meta {
    m.(enchants := m.enchants[e := level])
  }

  /** `removeEnchant(e)`. */
  function RemoveEnchant(m: Meta, e: Enchantment): Meta {
    m.(enchants := m.enchants - {e})
  }

  /** `addItemFlags(f)`. */
  function AddItemFlag(m: Meta, f: ItemFlag): Meta {
    m.(flags := m.flags + {f})
  }

  /** `removeItemFlags(f)`. */
  function RemoveItemFlag(m: Meta, f: ItemFlag): Meta {
    m.(flags := m.flags - {f})
  }
}
