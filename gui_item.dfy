/**
 * The `GUIItem` builder of mc-chestui: one item stack configured through
 * setters, each of which prepares a value, then commits it to the stack's
 * metadata through a snapshot-and-replace edit.
 */
module MCChestUI {
  import opened KotlinTypes
  import opened Adventure
  import opened Bukkit

  // ---------------------------------------------------------------------
  // Name and lore preparation
  // ---------------------------------------------------------------------

  /** The italic default the builder fills in: off, unless the caller chose. */
  function NoParentItalic(c: Component): Component {
    DecorationIfAbsent(c, False)
  }

  /** The display name the `name` setter commits, under the given italics policy. */
  function PrepareName(removeParentItalics: bool, value: Option<Component>): (r: Option<Component>)
    ensures r.None? <==> value.None?
    ensures !removeParentItalics ==> r == value
    ensures removeParentItalics && value.Some? ==>
      && r.value.content == value.value.content
      && r.value.italic == (if value.value.italic == NotSet then False else value.value.italic)
  {
    if removeParentItalics then value.Map(NoParentItalic) else value
  }

  /** The lore the `lore` setter hands to sanitising, under the given italics policy. */
  function PrepareLore(removeParentItalics: bool, value: Option<seq<Component>>): (r: Option<seq<Component>>)
    ensures r.None? <==> value.None?
    ensures !removeParentItalics ==> r == value
    ensures removeParentItalics && value.Some? ==>
      && |r.value| == |value.value|
      && forall i :: 0 <= i < |value.value| ==>
           && r.value[i].content == value.value[i].content
           && r.value[i].italic == (if value.value[i].italic == NotSet then False else value.value[i].italic)
  {
    if !removeParentItalics then value
    else match value
      case None => None
      case Some(lines) => Some(seq(|lines|, i requires 0 <= i < |lines| => NoParentItalic(lines[i])))
  }

  /** `sanitizeLore`: every line loses its newlines and keeps everything else. */
  function SanitizeLore(lore: Option<seq<Component>>): (r: Option<seq<Component>>)
    ensures r.None? <==> lore.None?
    ensures lore.Some? ==>
      && |r.value| == |lore.value|
      && forall i :: 0 <= i < |lore.value| ==>
           && r.value[i].italic == lore.value[i].italic
           && r.value[i].content == RemoveNewlines(lore.value[i].content)
           && NEWLINE !in r.value[i].content
  {
    match lore
    case None => None
    case Some(lines) =>
      Some(seq(|lines|, i requires 0 <= i < |lines| => lines[i].(content := RemoveNewlines(lines[i].content))))
  }

  /** The text of a lore, all lines run together. */
  function Text(lines: seq<Component>): string {
    if lines == [] then [] else lines[0].content + Text(lines[1..])
  }

  /**
   * Sanitising moves no character from one line to another and reorders
   * none: the lore's text afterwards is its text before with the newlines
   * taken out.
   */
  lemma {:induction false} SanitizeLoreText(lines: seq<Component>)
    ensures SanitizeLore(Some(lines)).Some?
    ensures Text(SanitizeLore(Some(lines)).value) == RemoveNewlines(Text(lines))
  {
    var r := SanitizeLore(Some(lines)).value;
    if lines != [] {
      var rest := SanitizeLore(Some(lines[1..])).value;
      assert r[1..] == rest;
      SanitizeLoreText(lines[1..]);
      RemoveNewlinesConcat(lines[0].content, Text(lines[1..]));
    }
  }

  /** The lore the `lore` setter commits: prepared, then sanitised. */
  lemma StoredLore(removeParentItalics: bool, lines: seq<Component>, i: nat)
    requires i < |lines|
    ensures SanitizeLore(PrepareLore(removeParentItalics, Some(lines))).Some?
    ensures |SanitizeLore(PrepareLore(removeParentItalics, Some(lines))).value| == |lines|
    ensures
      var line := SanitizeLore(PrepareLore(removeParentItalics, Some(lines))).value[i];
      && line.content == RemoveNewlines(lines[i].content)
      && line.italic == (if removeParentItalics && lines[i].italic == NotSet then False else lines[i].italic)
  {
  }

  // ---------------------------------------------------------------------
  // Glow
  // ---------------------------------------------------------------------

  /** Everything except the enchantments and the flags. */
  predicate SameApartFromGlow(a: Meta, b: Meta) {
    b == a.(enchants := b.enchants, flags := b.flags)
  }

  /** The edit `glowing = true` commits: the inert enchantment at level 0, and enchantments hidden. */
  function AddGlow(m: Meta): (r: Meta)
    ensures r.enchants == m.enchants[ArrowInfinite := 0]
    ensures r.flags == m.flags + {HideEnchants}
    ensures SameApartFromGlow(m, r)
  {
    AddItemFlag(AddEnchant(m, ArrowInfinite, 0), HideEnchants)
  }

  /** The edit `glowing = false` commits: both taken away, all other enchantments and flags kept. */
  function RemoveGlow(m: Meta): (r: Meta)
    ensures r.enchants == m.enchants - {ArrowInfinite}
    ensures r.flags == m.flags - {HideEnchants}
    ensures SameApartFromGlow(m, r)
  {
    RemoveItemFlag(RemoveEnchant(m, ArrowInfinite), HideEnchants)
  }

  lemma GlowTwice(m: Meta)
    ensures AddGlow(AddGlow(m)) == AddGlow(m)
  {
  }

  lemma UnglowTwice(m: Meta)
    ensures RemoveGlow(RemoveGlow(m)) == RemoveGlow(m)
  {
  }

  /** The last glow edit decides: what came before it does not matter. */
  lemma GlowLastWriteWins(m: Meta)
    ensures AddGlow(RemoveGlow(m)) == AddGlow(m)
    ensures RemoveGlow(AddGlow(m)) == RemoveGlow(m)
  {
  }

  /** Glowing on, then off, gives back the metadata exactly when neither part of the glow was there before. */
  lemma GlowRoundTrip(m: Meta)
    ensures RemoveGlow(AddGlow(m)) == m <==> ArrowInfinite !in m.enchants && HideEnchants !in m.flags
  {
  }

  // ---------------------------------------------------------------------
  // Skull identity
  // ---------------------------------------------------------------------

  /** Everything except the skull identity fields. */
  predicate SameApartFromSkull(a: Meta, b: Meta) {
    && a.SkullMeta? == b.SkullMeta?
    && a.displayName == b.displayName
    && a.lore == b.lore
    && a.enchants == b.enchants
    && a.flags == b.flags
    && a.customModelData == b.customModelData
  }

  /** `(meta as? SkullMeta)?.owningPlayer`. */
  function SkullOwnerOf(m: Meta): Option<OfflinePlayer> {
    if m.SkullMeta? then m.owningPlayer else None
  }

  /** `(meta as? SkullMeta)?.playerProfile`. */
  function PlayerProfileOf(m: Meta): Option<PlayerProfile> {
    if m.SkullMeta? then m.playerProfile else None
  }

  /** The edit the `skullOwner` setter commits: written on skull metadata, ignored on any other. */
  function WithSkullOwner(m: Meta, value: Option<OfflinePlayer>): (r: Meta)
    ensures SameApartFromSkull(m, r)
    ensures SkullOwnerOf(r) == (if m.SkullMeta? then value else None)
    ensures PlayerProfileOf(r) == PlayerProfileOf(m)
    ensures !m.SkullMeta? ==> r == m
  {
    if m.SkullMeta? then m.(owningPlayer := value) else m
  }

  /** The edit the `playerProfile` setter commits: written on skull metadata, ignored on any other. */
  function WithPlayerProfile(m: Meta, value: Option<PlayerProfile>): (r: Meta)
    ensures SameApartFromSkull(m, r)
    ensures PlayerProfileOf(r) == (if m.SkullMeta? then value else None)
    ensures SkullOwnerOf(r) == SkullOwnerOf(m)
    ensures !m.SkullMeta? ==> r == m
  {
    if m.SkullMeta? then m.(playerProfile := value) else m
  }

  // ---------------------------------------------------------------------
  // The builder
  // ---------------------------------------------------------------------

  class GUIItem {
    /** The item being configured. */
    var stack: ItemStack
    /** Whether names and lore lines get italic switched off where the caller left it unset. */
    var removeParentItalics: bool
    /** The glow state last assigned through the builder. */
    var glowing: bool

    /** The metadata always has the variant the host gives the stack's material. */
    ghost predicate Valid()
      reads this
    {
      MetaFor(stack.material, stack.meta)
    }

    /** `GUIItem(type)`: one item of `type`, empty metadata, italics policy on, not glowing. */
    constructor (t: Material)
      ensures Valid()
      ensures stack == ItemStack(t, 1, EmptyMeta(t))
      ensures removeParentItalics && !glowing
    {
      stack := ItemStack(t, 1, EmptyMeta(t));
      removeParentItalics := true;
      glowing := false;
    }

    /** `itemMeta`: a detached snapshot of the metadata. */
    function ItemMeta(): (m: Meta)
      reads this
      ensures m == stack.meta
    {
      stack.meta
    }

    /**
     * `meta { }` / `stack.editMeta`: take a snapshot, transform it, commit
     * the result. An edit cannot change the metadata's variant.
     */
    method EditMeta(f: Meta -> Meta)
      requires Valid()
      requires f(stack.meta).SkullMeta? == stack.meta.SkullMeta?
      modifies this
      ensures Valid()
      ensures stack == old(stack).(meta := f(old(stack.meta)))
      ensures removeParentItalics == old(removeParentItalics) && glowing == old(glowing)
    {
      var snapshot := ItemMeta();
      var edited := f(snapshot);
      stack := stack.(meta := edited);
    }

    /** `name`: the snapshot's display name, or null. */
    function GetName(): (r: Option<Component>)
      reads this
      ensures r == stack.meta.displayName
    {
      ItemMeta().displayName
    }

    method SetName(value: Option<Component>)
      requires Valid()
      modifies this
      ensures Valid()
      ensures GetName() == PrepareName(old(removeParentItalics), value)
      ensures stack == old(stack).(meta := old(stack.meta).(displayName := GetName()))
      ensures removeParentItalics == old(removeParentItalics) && glowing == old(glowing)
    {
      var name := PrepareName(removeParentItalics, value);
      EditMeta((m: Meta) => m.(displayName := name));
    }

    /** `lore`: the snapshot's lore, or null. */
    function GetLore(): (r: Option<seq<Component>>)
      reads this
      ensures r == stack.meta.lore
    {
      ItemMeta().lore
    }

    method SetLore(value: Option<seq<Component>>)
      requires Valid()
      modifies this
      ensures Valid()
      ensures GetLore() == SanitizeLore(PrepareLore(old(removeParentItalics), value))
      ensures stack == old(stack).(meta := old(stack.meta).(lore := GetLore()))
      ensures removeParentItalics == old(removeParentItalics) && glowing == old(glowing)
    {
      var lore := PrepareLore(removeParentItalics, value);
      var sanitized := SanitizeLore(lore);
      EditMeta((m: Meta) => m.(lore := sanitized));
    }

    /** `amount`: the stack's count. */
    function GetAmount(): (r: int32)
      reads this
      ensures r == stack.amount
    {
      stack.amount
    }

    /** Only the count changes; the metadata is not touched. */
    method SetAmount(value: int32)
      requires Valid()
      modifies this
      ensures Valid()
      ensures GetAmount() == value
      ensures stack == old(stack).(amount := value)
      ensures removeParentItalics == old(removeParentItalics) && glowing == old(glowing)
    {
      stack := stack.(amount := value);
    }

    function GetSkullOwner(): (r: Option<OfflinePlayer>)
      reads this
      ensures !stack.meta.SkullMeta? ==> r == None
    {
      SkullOwnerOf(stack.meta)
    }

    method SetSkullOwner(value: Option<OfflinePlayer>)
      requires Valid()
      modifies this
      ensures Valid()
      ensures GetSkullOwner() == (if old(stack.meta).SkullMeta? then value else None)
      ensures !old(stack.meta).SkullMeta? ==> stack == old(stack)
      ensures stack == old(stack).(meta := WithSkullOwner(old(stack.meta), value))
      ensures removeParentItalics == old(removeParentItalics) && glowing == old(glowing)
    {
      EditMeta(m => WithSkullOwner(m, value));
    }

    function GetPlayerProfile(): (r: Option<PlayerProfile>)
      reads this
      ensures !stack.meta.SkullMeta? ==> r == None
    {
      PlayerProfileOf(stack.meta)
    }

    method SetPlayerProfile(value: Option<PlayerProfile>)
      requires Valid()
      modifies this
      ensures Valid()
      ensures GetPlayerProfile() == (if old(stack.meta).SkullMeta? then value else None)
      ensures !old(stack.meta).SkullMeta? ==> stack == old(stack)
      ensures stack == old(stack).(meta := WithPlayerProfile(old(stack.meta), value))
      ensures removeParentItalics == old(removeParentItalics) && glowing == old(glowing)
    {
      EditMeta(m => WithPlayerProfile(m, value));
    }

    /** The builder's own record, not read back from the enchantments. */
    function GetGlowing(): (r: bool)
      reads this
      ensures r == glowing
    {
      glowing
    }

    method SetGlowing(value: bool)
      requires Valid()
      modifies this
      ensures Valid()
      ensures GetGlowing() == value
      ensures stack == old(stack).(meta := if value then AddGlow(old(stack.meta)) else RemoveGlow(old(stack.meta)))
      ensures removeParentItalics == old(removeParentItalics)
    {
      if value {
        EditMeta(AddGlow);
      } else {
        EditMeta(RemoveGlow);
      }
      glowing := value;
    }

    /** `None` while unset: the host's getter has no value to give then. */
    function GetCustomModelData(): (r: Option<int32>)
      reads this
      ensures r == stack.meta.customModelData
    {
      ItemMeta().customModelData
    }

    method SetCustomModelData(value: int32)
      requires Valid()
      modifies this
      ensures Valid()
      ensures GetCustomModelData() == Some(value)
      ensures stack == old(stack).(meta := old(stack.meta).(customModelData := Some(value)))
      ensures removeParentItalics == old(removeParentItalics) && glowing == old(glowing)
    {
      EditMeta((m: Meta) => m.(customModelData := Some(value)));
    }
  }

  // ---------------------------------------------------------------------
  // Clients
  // ---------------------------------------------------------------------

  /** A stone named "Cobble" under the default policy shows the name with italic explicitly off. */
  method CobbleClient() {
    var item := new GUIItem(Material("stone", PlainMetaClass));
    assert item.GetAmount() == 1;
    item.SetName(Some(Component("Cobble", NotSet)));
    assert item.GetName() == Some(Component("Cobble", False));
    item.SetSkullOwner(Some(OfflinePlayer(7)));
    assert item.GetSkullOwner() == None;
    assert item.GetName() == Some(Component("Cobble", False));
  }

  /** A player head keeps the owner it is given; glowing adds one enchantment and one flag. */
  method PlayerHeadClient(x: OfflinePlayer) {
    var item := new GUIItem(Material("player_head", SkullMetaClass));
    item.SetSkullOwner(Some(x));
    assert item.GetSkullOwner() == Some(x);
    item.SetGlowing(true);
    assert item.ItemMeta().enchants == map[ArrowInfinite := 0];
    assert item.ItemMeta().flags == {HideEnchants};
    assert item.GetSkullOwner() == Some(x);
    assert item.GetGlowing();
  }

  /** A glint added through a raw metadata edit is not reported as glowing. */
  method RawGlintClient() {
    var item := new GUIItem(Material("stone", PlainMetaClass));
    item.EditMeta(AddGlow);
    assert ArrowInfinite in item.ItemMeta().enchants;
    assert !item.GetGlowing();
  }
}
