# More Materials: wall shape and wood variants

This project models the two pieces of logic in the More Materials mod that
are not engine plumbing, and proves properties about them.

- **The generic wall block** (`BlockGenericWall`). A wall joins each of its
  four horizontal neighbours that is another wall, a fence gate, or an opaque
  full cube that is not a gourd. It shows a full-height centre post unless it
  is a straight north–south or east–west run with nothing connectable (and no
  torch) above. It packs its four connections into a 4-bit index: the bit for
  a facing sits at the facing's horizontal index (south 0, west 1, north 2,
  east 3). The index selects a collision box from a fixed 16-entry table. It
  also selects a selection-outline box from a second table, which holds the
  same boxes with their top raised to one and a half blocks. Coordinates are
  whole sixteenths of a block: 0.25 is 4, 0.3125 is 5, 0.6875 is 11, 0.75 is
  12, 0.875 is 14, 1.0 is 16 and 1.5 is 24. Both box getters recompute the
  wall's state from the world and ignore the stored state. The box depends on
  the four connections only. So a straight run with a torch on top shows its
  post but keeps the lowered, narrow box (`LoweredBoxExactlyWithoutPost`).
- **Wood-variant blocks** (`WoodBlock`). The block's species is stored as
  metadata, which is the species' ordinal. The dropped item's damage is that
  same code. A new block defaults to oak. The creative inventory lists one
  single-item stack per species, in ordinal order, after what the list
  already held. One inventory model is registered per species, named
  `id + "_" + species id`. All full names `"morematerials:" + id + "_" +
  species id` are then registered at once.

Files:

- `world.dfy` (module `World`) stands in for the engine's world access. It
  holds positions, the four horizontal facings with their horizontal
  indices, and a read-only view of the world. The view is a map from
  position to a record of what the wall rule asks about a block. A position
  the map does not hold reads as air, which is not a wall, gate or torch and
  is not opaque.
- `generic_wall.dfy` (module `GenericWall`) models
  `src/main/java/de/shittyco/morematerials/BlockGenericWall.java`.
  `GetBoundingBoxIndex` is a method that ORs one bit per joined side into a
  32-bit value, as the source does. It is proved equal to `ConnectionMask`,
  a reference definition that adds up the weights of the joined sides. The
  lemmas and the box getters work with that reference definition.
- `wood_block.dfy` (module `WoodBlocks`) models
  `src/main/java/de/shittyco/morematerials/WoodBlock.java`. The caller's
  sub-item list and the model-registration proxy are classes whose fields
  the methods append to.

## Model

| member | source | states |
|---|---|---|
| World.BlockAt | src/main/java/de/shittyco/morematerials/BlockGenericWall.java:150-151 | looking up a position gives the block stored there; a position with nothing stored reads as air, every one of whose flags is false |
| World.Up | src/main/java/de/shittyco/morematerials/BlockGenericWall.java:259 | the position above keeps x and z and is one block higher, so it is none of the wall's four horizontal neighbours |
| World.Offset | src/main/java/de/shittyco/morematerials/BlockGenericWall.java:179-182 | each neighbour is at the same height and exactly one block away: north at z - 1, south at z + 1, west at x - 1, east at x + 1 |
| World.HorizontalIndex | src/main/java/de/shittyco/morematerials/BlockGenericWall.java:227-241 | each facing's horizontal index is below 4 (south 0, west 1, north 2, east 3), so its shifted bit fits the 4-bit index |
| GenericWall.CanConnectTo | src/main/java/de/shittyco/morematerials/BlockGenericWall.java:147-164 | a wall or fence gate is always connectable; any other block is connectable exactly when it is opaque, a full cube and not a gourd; a position with nothing stored is never connectable |
| GenericWall.CanConnectUp | src/main/java/de/shittyco/morematerials/BlockGenericWall.java:253-264 | a torch above always gives true; otherwise the result is whether the block above is connectable |
| GenericWall.HasPost | src/main/java/de/shittyco/morematerials/BlockGenericWall.java:183-185 | the post is present whenever something above asks for it; otherwise it is missing exactly when two sides are joined and they are opposite (north with south, or east with west); with 0, 1, 3 or 4 joined sides the post is always present |
| GenericWall.ActualState | src/main/java/de/shittyco/morematerials/BlockGenericWall.java:174-200 | each side of the shown state is joined exactly when the neighbour on that side is connectable; the post comes from the post rule applied to the up-connection and those four sides |
| GenericWall.ActualStateIgnoresStoredState | src/main/java/de/shittyco/morematerials/BlockGenericWall.java:174-200 | the shown state does not depend on the stored state passed in, only on the world and the position; it is the one shown for a wall in its default (all-false) state |
| GenericWall.ActualStatePost | src/main/java/de/shittyco/morematerials/BlockGenericWall.java:178-185 | a torch on top always gives a post; the post is missing exactly when there is no torch or connectable block above and the wall is a straight north-south or east-west run |
| GenericWall.ConnectionMask | src/main/java/de/shittyco/morematerials/BlockGenericWall.java:223-244 | reference definition of the index: the sum of 1 shifted by the horizontal index of each joined side; it is always below 16 |
| GenericWall.ConnectionMaskBits | src/main/java/de/shittyco/morematerials/BlockGenericWall.java:225-243 | bit k of the index is set exactly when the side whose horizontal index is k is joined |
| GenericWall.ConnectionMaskInjective | src/main/java/de/shittyco/morematerials/BlockGenericWall.java:225-243 | two states get the same index exactly when they agree on all four sides: distinct patterns give distinct indices, and the post flag never changes the index |
| GenericWall.DecodeMaskRoundTrip | src/main/java/de/shittyco/morematerials/BlockGenericWall.java:225-243 | every index 0..15 is the index of the pattern read from its bits, so every table entry is reachable |
| GenericWall.MaskDecodeRoundTrip | src/main/java/de/shittyco/morematerials/BlockGenericWall.java:225-243 | reading the bits of a state's index gives back exactly its four side connections |
| GenericWall.GetBoundingBoxIndex | src/main/java/de/shittyco/morematerials/BlockGenericWall.java:223-244 | the 32-bit index ORed together one side at a time is below 16 and equals the reference index; its bit for each facing is set exactly when that side is joined |
| GenericWall.BoundingBoxes | src/main/java/de/shittyco/morematerials/BlockGenericWall.java:38-55 | the collision table: sixteen boxes in sixteenths, entry i being source entry i; each stands on the floor (minY 0) and lies within the unit block |
| GenericWall.SetMaxY | src/main/java/de/shittyco/morematerials/BlockGenericWall.java:61-76 | the box keeps its x/z extents and bottom and takes the given top |
| GenericWall.SelectedBoundingBoxes | src/main/java/de/shittyco/morematerials/BlockGenericWall.java:60-76 | the selection table has sixteen entries; entry i has the footprint and bottom of collision box i and a top of 1.5 blocks |
| GenericWall.BoundingBoxReachesFace | src/main/java/de/shittyco/morematerials/BlockGenericWall.java:38-55 | collision box i touches the block face on side d exactly when bit d of i is set (south 0, west 1, north 2, east 3) |
| GenericWall.SelectedBoxRaisesTop | src/main/java/de/shittyco/morematerials/BlockGenericWall.java:60-76 | selection box i has the same x/z extents and bottom as collision box i, a top of 1.5 blocks that is strictly higher than the collision box's top, and it lies within 1.5 blocks of height |
| GenericWall.ReachesFaceTowardNeighbour | src/main/java/de/shittyco/morematerials/BlockGenericWall.java:38-55 | a box reaches the face named by a facing exactly when it reaches toward the neighbour that facing's offset gives, so the table's face names match where the neighbours are |
| GenericWall.LoweredBoxExactlyWithoutPost | src/main/java/de/shittyco/morematerials/BlockGenericWall.java:38-55 | the collision box is below full height (7/8) exactly for the two straight-run patterns, that is, where the post rule leaves out the post when nothing is above |
| GenericWall.GetBoundingBox | src/main/java/de/shittyco/morematerials/BlockGenericWall.java:116-122 | the collision box comes from the index of the recomputed state; it stands on the floor, lies within the block, and touches exactly the faces whose neighbours are connectable; measured geometrically, it extends toward a neighbour exactly when that neighbour is connectable |
| GenericWall.GetSelectedBoundingBox | src/main/java/de/shittyco/morematerials/BlockGenericWall.java:132-138 | the selection box comes from the same index as the collision box; it has that box's footprint and bottom, a top of 1.5 blocks, and it touches exactly the faces whose neighbours are connectable, extending toward exactly those neighbours |
| WoodBlocks.Ordinal | src/main/java/de/shittyco/morematerials/WoodBlock.java:54-56 | every species' ordinal is below the species count |
| WoodBlocks.FromMetadata | src/main/java/de/shittyco/morematerials/WoodBlock.java:41-45 | decoding a code in range gives the species whose ordinal is that code |
| WoodBlocks.FromMetadataOrdinal | src/main/java/de/shittyco/morematerials/WoodBlock.java:36-45 | decoding a species' ordinal gives the species back, so the encoding is a bijection onto 0..5 |
| WoodBlocks.AddVariant | src/main/java/de/shittyco/morematerials/WoodBlock.java:137-141 | the resulting state has the given variant |
| WoodBlocks.GetMetaFromState | src/main/java/de/shittyco/morematerials/WoodBlock.java:53-57 | the metadata is below the species count and decodes to the state's species |
| WoodBlocks.DamageDropped | src/main/java/de/shittyco/morematerials/WoodBlock.java:65-69 | for every state, the dropped item's damage equals the block's metadata |
| WoodBlocks.SubItems | src/main/java/de/shittyco/morematerials/WoodBlock.java:91-93 | the creative stacks are exactly one per species; stack i holds one of the block's items with damage i |
| WoodBlocks.SubItemsListEachVariantOnce | src/main/java/de/shittyco/morematerials/WoodBlock.java:87-94 | every species is listed exactly once: the stack at its ordinal decodes to it and no other stack does |
| WoodBlocks.VariantNames | src/main/java/de/shittyco/morematerials/WoodBlock.java:118-121 | the name array has exactly one entry per species; entry i is "morematerials:" + id + "_" + the i-th species id |
| WoodBlocks.InventoryModels | src/main/java/de/shittyco/morematerials/WoodBlock.java:122-125 | there is one inventory model per species; model i is named id + "_" + the i-th species id and is registered for metadata i |
| WoodBlocks.InventoryModelsMatchVariantNames | src/main/java/de/shittyco/morematerials/WoodBlock.java:118-128 | full name i is the inventory model name i prefixed by the mod's namespace, and model i is shown for the damage of creative stack i |
| WoodBlocks.VariantNamesDistinct | src/main/java/de/shittyco/morematerials/WoodBlock.java:120 | species with different ids get different full model names |
| WoodBlocks.ItemStackList.Add | src/main/java/de/shittyco/morematerials/WoodBlock.java:92 | adding a stack appends it to the end of the list and keeps the rest |
| WoodBlocks.ModelProxy.RegisterInventoryModel | src/main/java/de/shittyco/morematerials/WoodBlock.java:122-125 | the proxy's call log gains exactly this inventory-model call at its end |
| WoodBlocks.ModelProxy.RegisterItemVariants | src/main/java/de/shittyco/morematerials/WoodBlock.java:128 | the proxy's call log gains exactly one call at its end, carrying the item and the current contents of the name array |
| WoodBlocks.RegistrationCalls | src/main/java/de/shittyco/morematerials/WoodBlock.java:118-128 | the model registration consists of one inventory-model call per species, in ordinal order, and last one call carrying all full variant names |
| WoodBlocks.WoodBlock.constructor | src/main/java/de/shittyco/morematerials/WoodBlock.java:100-107 | the default state is the base state with the oak variant, whose metadata is 0 |
| WoodBlocks.WoodBlock.GetStateFromMeta | src/main/java/de/shittyco/morematerials/WoodBlock.java:41-45 | the state is the default state with only the variant replaced by the decoded species; its metadata and its dropped damage are the code it was read from |
| WoodBlocks.WoodBlock.GetSubBlocks | src/main/java/de/shittyco/morematerials/WoodBlock.java:87-94 | the list keeps its previous contents, followed by exactly the creative stacks of every species in ordinal order |
| WoodBlocks.WoodBlock.RegisterModels | src/main/java/de/shittyco/morematerials/WoodBlock.java:114-129 | the proxy's call log gains exactly the inventory models of every species, in ordinal order, followed by one registration of all full variant names; nothing else is appended |
| WoodBlocks.PlaceThenDropKeepsDamage | src/main/java/de/shittyco/morematerials/WoodBlock.java:41-69 | a block placed from creative stack i drops an item with damage i |
| WoodBlocks.MetaRoundTrip | src/main/java/de/shittyco/morematerials/WoodBlock.java:36-57 | reading a species' ordinal as metadata gives a state of that species, whose metadata is that ordinal again |
| WoodBlocks.StateRoundTrip | src/main/java/de/shittyco/morematerials/WoodBlock.java:36-57 | every state survives being written to metadata and read back |

## Left out

- `main/java/de/shittyco/morematerials/MoreMaterialsMod.java` is left out. It holds the host lifecycle handlers, the item and block registration, and the recipe calls forwarded to the engine's registries.
- `main/java/de/shittyco/morematerials/BlockStainedBricks.java` is left out. Its constructor only passes parameters to the engine, and its model registration only forwards to the proxy.
- `GameUtility.getItemFromBlock` is a lookup in the engine's registry. `RegisterModels` takes the item it returns as the parameter `itemBlock`.
- `WoodMetadata`, `WoodUtility` and `EnumFacing` are not part of this model. The species are taken to be the six vanilla plank species in vanilla order, with oak first. `WOOD_TYPE_COUNT` is 6. `WOOD_TYPE_IDS` is the parameter `woodTypeIds`. The horizontal indices are south 0, west 1, north 2, east 3, which is the order the collision table is laid out in.
- FromMetadata: defined only for codes 0..5, and so is WoodBlocks.WoodBlock.GetStateFromMeta, which decodes with it. What the unseen `WoodMetadata.fromMetadata` does with a code out of range is not modelled. Such a code is outside the host's own metadata format.
- The `BlockGenericWall` constructor is left out. It takes the material, map colour and step sound from the engine, sets the two source fields (which nothing here reads), and sets a default state with every property false. That all-false state is `GenericWall.DefaultState`.
- `createBlockState` in both classes is left out, because it only sets up the engine's container. The wall state is a record of its five booleans and the wood state is a record of its variant.
- Engine types are plain records: `IBlockState`, `BlockPos`, `AxisAlignedBB` and `IBlockAccess`. The box coordinates are exact sixteenths instead of doubles. `setMaxY` is a field replacement.
- A `ResourceLocation` is its name string. How the engine parses that name is not modelled.
- The model proxy is a log of the calls it receives, in order, and the caller's item list is the sequence of its stacks. No rendering or UI is modelled.
- The `CreativeTabs` argument of `getSubBlocks` is left out, because the method never reads it. The `@SideOnly` client/server split is left out.
