/** Blocks that come in one variant per wood species: the species is kept in
    the block's metadata as its ordinal, listed once per species in the creative
    inventory, and given one inventory model per species. */
module WoodBlocks {

  /** The wood species, in the order of their ordinals. */
  datatype WoodMetadata = Oak | Spruce | Birch | Jungle | Acacia | DarkOak

  /** Number of wood species. */
  const WoodTypeCount := 6

  /** The namespace the mod's models are registered under. */
  const ModId := "morematerials"

  /** The species' position in the declaration order. */
  function Ordinal(v: WoodMetadata): (n: nat)
    ensures n < WoodTypeCount
  {
    match v
    case Oak => 0
    case Spruce => 1
    case Birch => 2
    case Jungle => 3
    case Acacia => 4
    case DarkOak => 5
  }

  /** The species whose ordinal is meta. */
  function FromMetadata(meta: int): (v: WoodMetadata)
    requires 0 <= meta < WoodTypeCount
    ensures Ordinal(v) == meta
  {
    if meta == 0 then Oak
    else if meta == 1 then Spruce
    else if meta == 2 then Birch
    else if meta == 3 then Jungle
    else if meta == 4 then Acacia
    else DarkOak
  }

  /** Decoding the ordinal gives the species back, so the ordinal is a bijection
      between the species and 0 .. WoodTypeCount - 1. */
  lemma FromMetadataOrdinal(v: WoodMetadata)
    ensures FromMetadata(Ordinal(v)) == v
  {
  }

  /** The block state of a wood block: its species. */
  datatype WoodState = WoodState(variant: WoodMetadata)

  /** The state with its variant property set to value. */
  function AddVariant(baseState: WoodState, value: WoodMetadata): (r: WoodState)
    ensures r.variant == value
  {
    baseState.(variant := value)
  }

  /** The metadata stored for a state: a code in range that decodes to the state's species. */
  function GetMetaFromState(state: WoodState): (meta: nat)
    ensures meta < WoodTypeCount
    ensures FromMetadata(meta) == state.variant
  {
    var value := state.variant;
    Ordinal(value)
  }

  /** The damage of the item the block drops: the same code as its metadata. */
  function DamageDropped(state: WoodState): (damage: nat)
    ensures damage == GetMetaFromState(state)
  {
    var value := state.variant;
    Ordinal(value)
  }

  /** An item type, known by its registry name. */
  datatype Item = Item(registryName: string)

  /** A stack of items: its item, its size and its damage (metadata) value. */
  datatype ItemStack = ItemStack(item: Item, stackSize: nat, itemDamage: int)

  /** The stacks the creative inventory lists for a wood block's item: one
      single item for each species, in ordinal order. */
  function SubItems(item: Item): (stacks: seq<ItemStack>)
    ensures |stacks| == WoodTypeCount
    ensures forall i :: 0 <= i < |stacks| ==>
      stacks[i].item == item && stacks[i].stackSize == 1 && stacks[i].itemDamage == i
  {
    seq(WoodTypeCount, i requires 0 <= i < WoodTypeCount => ItemStack(item, 1, i))
  }

  /** Every species is listed exactly once: the stack at its ordinal decodes to
      it and no other stack does. */
  lemma SubItemsListEachVariantOnce(item: Item, v: WoodMetadata)
    ensures 0 <= SubItems(item)[Ordinal(v)].itemDamage < WoodTypeCount
    ensures FromMetadata(SubItems(item)[Ordinal(v)].itemDamage) == v
    ensures forall i :: 0 <= i < WoodTypeCount && FromMetadata(SubItems(item)[i].itemDamage) == v ==> i == Ordinal(v)
  {
    var stacks := SubItems(item);
    forall i | 0 <= i < WoodTypeCount && FromMetadata(stacks[i].itemDamage) == v
      ensures i == Ordinal(v)
    {
      assert Ordinal(FromMetadata(stacks[i].itemDamage)) == i;
    }
  }

  /** A model registered for an item: the model's name and the metadata it is shown for. */
  datatype InventoryModel = InventoryModel(item: Item, name: string, meta: nat)

  /** The full model names of an item's variants. */
  datatype ItemVariants = ItemVariants(item: Item, names: seq<string>)

  /** The full name of the model for species woodId of block id. */
  function VariantName(id: string, woodId: string): string {
    ModId + ":" + id + "_" + woodId
  }

  /** The full model names of block id, one per species, in ordinal order. */
  function VariantNames(id: string, woodTypeIds: seq<string>): (names: seq<string>)
    requires |woodTypeIds| >= WoodTypeCount
    ensures |names| == WoodTypeCount
    ensures forall i :: 0 <= i < WoodTypeCount ==> names[i] == VariantName(id, woodTypeIds[i])
  {
    seq(WoodTypeCount, i requires 0 <= i < WoodTypeCount => VariantName(id, woodTypeIds[i]))
  }

  /** The inventory models of block id, one per species, each for the metadata of its species. */
  function InventoryModels(item: Item, id: string, woodTypeIds: seq<string>): (models: seq<InventoryModel>)
    requires |woodTypeIds| >= WoodTypeCount
    ensures |models| == WoodTypeCount
    ensures forall i :: 0 <= i < WoodTypeCount ==>
      models[i] == InventoryModel(item, id + "_" + woodTypeIds[i], i)
  {
    seq(WoodTypeCount, i requires 0 <= i < WoodTypeCount => InventoryModel(item, id + "_" + woodTypeIds[i], i))
  }

  /** The inventory model for each metadata value is the full variant name
      without the mod's namespace, and it is registered for the damage value of
      the creative stack of the same species. */
  lemma InventoryModelsMatchVariantNames(item: Item, id: string, woodTypeIds: seq<string>, i: nat)
    requires |woodTypeIds| >= WoodTypeCount
    requires i < WoodTypeCount
    ensures VariantNames(id, woodTypeIds)[i] == ModId + ":" + InventoryModels(item, id, woodTypeIds)[i].name
    ensures InventoryModels(item, id, woodTypeIds)[i].meta == SubItems(item)[i].itemDamage
  {
    var full := VariantNames(id, woodTypeIds)[i];
    var short := InventoryModels(item, id, woodTypeIds)[i].name;
    assert full == ModId + ":" + id + "_" + woodTypeIds[i];
    assert short == id + "_" + woodTypeIds[i];
    assert ModId + ":" + id + "_" + woodTypeIds[i] == ModId + ":" + (id + "_" + woodTypeIds[i]);
  }

  /** A call received by the model proxy. */
  datatype ProxyCall = InventoryModelCall(model: InventoryModel) | ItemVariantsCall(variants: ItemVariants)

  /** The calls registering the models of block id: first the inventory model of
      every species in ordinal order, last the full names of all variants at once. */
  function RegistrationCalls(item: Item, id: string, woodTypeIds: seq<string>): (calls: seq<ProxyCall>)
    requires |woodTypeIds| >= WoodTypeCount
    ensures |calls| == WoodTypeCount + 1
    ensures forall i :: 0 <= i < WoodTypeCount ==>
      calls[i] == InventoryModelCall(InventoryModels(item, id, woodTypeIds)[i])
    ensures calls[WoodTypeCount] == ItemVariantsCall(ItemVariants(item, VariantNames(id, woodTypeIds)))
  {
    var models := InventoryModels(item, id, woodTypeIds);
    seq(WoodTypeCount, i requires 0 <= i < WoodTypeCount => InventoryModelCall(models[i]))
      + [ItemVariantsCall(ItemVariants(item, VariantNames(id, woodTypeIds)))]
  }

  /** Different species ids give different model names. */
  lemma VariantNamesDistinct(id: string, woodTypeIds: seq<string>, i: nat, j: nat)
    requires |woodTypeIds| >= WoodTypeCount
    requires i < WoodTypeCount && j < WoodTypeCount
    requires woodTypeIds[i] != woodTypeIds[j]
    ensures VariantNames(id, woodTypeIds)[i] != VariantNames(id, woodTypeIds)[j]
  {
    var prefix := ModId + ":" + id + "_";
    var a := VariantNames(id, woodTypeIds)[i];
    var b := VariantNames(id, woodTypeIds)[j];
    assert a == prefix + woodTypeIds[i];
    assert b == prefix + woodTypeIds[j];
    assert a[|prefix|..] == woodTypeIds[i];
    assert b[|prefix|..] == woodTypeIds[j];
  }

  /** The caller-owned list the creative inventory collects stacks in. */
  class ItemStackList {
    var contents: seq<ItemStack>

    constructor ()
      ensures contents == []
    {
      contents := [];
    }

    method Add(stack: ItemStack)
      modifies this
      ensures contents == old(contents) + [stack]
    {
      contents := contents + [stack];
    }
  }

  /** The client-side proxy models are registered with: the calls it received, in order. */
  class ModelProxy {
    var calls: seq<ProxyCall>

    constructor ()
      ensures calls == []
    {
      calls := [];
    }

    method RegisterInventoryModel(item: Item, name: string, meta: nat)
      modifies this
      ensures calls == old(calls) + [InventoryModelCall(InventoryModel(item, name, meta))]
    {
      calls := calls + [InventoryModelCall(InventoryModel(item, name, meta))];
    }

    method RegisterItemVariants(item: Item, names: array<string>)
      modifies this
      ensures calls == old(calls) + [ItemVariantsCall(ItemVariants(item, names[..]))]
    {
      calls := calls + [ItemVariantsCall(ItemVariants(item, names[..]))];
    }
  }

  /** A block with one variant per wood species. */
  class WoodBlock {
    /** The state a newly placed block starts in. */
    const defaultState: WoodState

    /** A new wood block; its default state is the base state with the oak variant. */
    constructor (baseState: WoodState)
      ensures defaultState == AddVariant(baseState, Oak)
      ensures defaultState.variant == Oak && GetMetaFromState(defaultState) == 0
    {
      defaultState := AddVariant(baseState, Oak);
    }

    /** The state stored under metadata meta: the default state with the variant
        decoded from meta, which encodes back to meta. */
    function GetStateFromMeta(meta: int): (state: WoodState)
      requires 0 <= meta < WoodTypeCount
      ensures state == AddVariant(defaultState, FromMetadata(meta))
      ensures GetMetaFromState(state) == meta && DamageDropped(state) == meta
    {
      AddVariant(defaultState, FromMetadata(meta))
    }

    /** Appends the creative stacks, one per species, to the caller's list,
        keeping what the list already held. */
    method GetSubBlocks(item: Item, subItems: ItemStackList)
      modifies subItems
      ensures subItems.contents == old(subItems.contents) + SubItems(item)
    {
      var ix := 0;
      while ix < WoodTypeCount
        invariant 0 <= ix <= WoodTypeCount
        invariant subItems.contents == old(subItems.contents) + SubItems(item)[..ix]
      {
        subItems.Add(ItemStack(item, 1, ix));
        ix := ix + 1;
      }
    }

    /** Registers one inventory model per species with the proxy, then the full
        names of all variants at once. The item is the one the registry holds
        for block id. */
    method RegisterModels(proxy: ModelProxy, itemBlock: Item, id: string, woodTypeIds: seq<string>)
      requires |woodTypeIds| >= WoodTypeCount
      modifies proxy
      ensures proxy.calls == old(proxy.calls) + RegistrationCalls(itemBlock, id, woodTypeIds)
    {
      var names := new string[WoodTypeCount];
      for i := 0 to WoodTypeCount
        invariant forall j :: 0 <= j < i ==> names[j] == VariantName(id, woodTypeIds[j])
        invariant proxy.calls == old(proxy.calls) + RegistrationCalls(itemBlock, id, woodTypeIds)[..i]
      {
        var name := ModId + ":" + id + "_" + woodTypeIds[i];
        names[i] := name;
        proxy.RegisterInventoryModel(itemBlock, id + "_" + woodTypeIds[i], i);
      }
      assert names[..] == VariantNames(id, woodTypeIds);
      proxy.RegisterItemVariants(itemBlock, names);
      assert RegistrationCalls(itemBlock, id, woodTypeIds)
        == RegistrationCalls(itemBlock, id, woodTypeIds)[..WoodTypeCount]
           + [ItemVariantsCall(ItemVariants(itemBlock, VariantNames(id, woodTypeIds)))];
    }
  }

  /** Placing a block from a creative stack and breaking it again drops an item
      with the stack's damage value. */
  lemma PlaceThenDropKeepsDamage(b: WoodBlock, item: Item, i: nat)
    requires i < WoodTypeCount
    ensures DamageDropped(b.GetStateFromMeta(SubItems(item)[i].itemDamage)) == SubItems(item)[i].itemDamage
  {
  }

  /** Storing a species and reading it back gives the same species and the same code. */
  lemma MetaRoundTrip(b: WoodBlock, v: WoodMetadata)
    ensures b.GetStateFromMeta(Ordinal(v)).variant == v
    ensures GetMetaFromState(b.GetStateFromMeta(Ordinal(v))) == Ordinal(v)
  {
    FromMetadataOrdinal(v);
  }

  /** Every state survives being written to metadata and read back. */
  lemma StateRoundTrip(b: WoodBlock, state: WoodState)
    ensures b.GetStateFromMeta(GetMetaFromState(state)) == state
  {
  }
}
