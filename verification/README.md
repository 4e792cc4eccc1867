# Sculpt brush machine, image engine shader flags, and anonymous attribute handles

This project models three pieces of Blender in Dafny and proves properties of the models.

1. **The sculpt brush machine's tables and instruction format** (`sculpt_brush_machine.c`), module `BrushTables` in `brush_tables.dfy`:
   - the builtin brush channel types and their enum definition, both as the "Cloth Deform Type" initializer builds it (one item) and as its rows are meant to build it (eight items);
   - the "Draw" command preset with its `.type = -1` terminator row;
   - the sizing constants.

   The same source file gives module `SculptOpcodes` in `sculpt_opcodes.dfy`:
   - the `SculptReg` cell;
   - the `SOP_*` opcode set with the operand roles the enum's comments give (two of them are assumptions, listed under "Left out");
   - the `.i = -1`-terminated operand array of `SculptOpCode` and the `OP_*` macros that build it;
   - the shipped `preset` program.

   The model decodes an instruction back into its operand list and defines when an instruction is well formed. Over a program it computes which registers each instruction writes and reads.
2. **The image editor draw engine's decision tables** (`image_engine.cc`), module `ImageEngine` in `image_engine.dfy`:
   - how the image editor and the node editor turn their space flags into draw flags, a channel shuffle and alpha handling;
   - how a draw context picks its space accessor;
   - how a UDIM tile number becomes a grid position, with C's truncating `/` and `%` written out.
3. **`OwnedAnonymousAttributeID`** (`BKE_anonymous_attribute.hh`), module `AnonymousAttribute` in `anonymous_attribute.dfy`. This is a strong or weak owning handle to an anonymous attribute id.
   - Each id's two reference counters are a map from id to `(strong, weak)`.
   - Memory is a sequence of slots, one per handle object.
   - References owned outside any handle are a multiset. These are a pointer about to be adopted, or one returned by `extract`.
   - Every constructor, the destructor, both assignments and `extract` are pure functions on this world.
   - Each is proved to keep the counters *balanced*: an id's strong (weak) counter always equals the number of live strong (weak) handles holding it plus the strong (weak) references owned outside handles.

`wrappers.dfy` holds the `Option` type the modules share.

Modelling choices:
- C `float` is `real`.
- A C string literal stored in a `char[n]` buffer is a `string` that must fit with its NUL (`FitsBuffer`).
- A union cell an initializer leaves out is the constructor `Zeroed`.
- A space's flag word is the set of its flags that are on. `sima->flag & mask` is set intersection, OR-ing a draw flag in adds it to the set, and masking it out removes it. `ImageEngine.BitIndex` records the bit each draw flag occupies.

What the model makes visible in the source as written:
- `OP_I(op, i1, i2)` discards `i2`.
- `OP(op)` writes no terminator at all.
- An int literal equal to `-1` cannot be told apart from the terminator, so `SOP_LOADI r, -1` would decode as the single operand `r`.
- The builtin types "Radius" and "Radius Scale" share the id `BRUSH_CHANNEL_RADIUS`. No builtin type carries `BRUSH_CHANNEL_RADIUS_SCALE`, although two "Draw" slots are typed with it.
- The "Cloth Deform Type" enum definition is initialized with a single brace level, so as written it declares only "DRAG" (see "Findings").
- In `preset`, the load of "Radius" into `REG_AUTOSMOOTH` (the fourth instruction) is overwritten by the next load before anything reads it.
- Below 1001, C's truncating `/` and `%` mirror the UDIM grid instead of extending it. For a tile number t < 1001 the column is `-((1001 - t) % 10)`. It lies in (-10, 0] and is 0 exactly when 10 divides 1001 - t, so 1000 lands at (-1, 0) and 991 at (0, -1).

All four copy and move operations of `OwnedAnonymousAttributeID` are templates over the other handle's kind. A template body reads the other specialization's private `data_`, so a cross-kind use does not compile. The model still states the templates for arbitrary kinds.

A constructor template is never a copy constructor, and an `operator=` template is never a copy assignment. The class therefore still gets the implicit copy constructor and copy assignment. Both copy `data_` member by member and touch no counter. For an lvalue of the same kind they win overload resolution over the templates. So copying a handle never increments, and assigning one never releases the target's old id (see "Findings"). The model has both:
- the implicit operations, `MemberwiseCopy` and `MemberwiseAssign`, with lemmas that show the imbalance;
- the converting copy constructor's template body, `CopyConstruct`, and the intended copy assignment, `CopyAssign`, both proved balanced;
- the copy assignment template's own body, `AssignTemplateBody`. Where it can be instantiated (same kind) it destroys the target and rebuilds it with placement `new`, which again selects the implicit member-wise copy constructor. So it releases the old reference and takes none, and `AssignTemplateBodyUnbalanced` shows the imbalance. The template body therefore computes neither `CopyAssign` nor `MemberwiseAssign`.

The move templates do run: an rvalue binds `&&` better than `const &`, and the user-declared destructor suppresses the implicit move operations. For same-kind handles, `MoveConstruct` and `MoveAssign` are exactly the source's behaviour.

## Model

| member | source | states |
|---|---|---|
| BrushTables.SlotTerminator | source/blender/editors/sculpt_paint/sculpt_brush_machine.c:107-119 | the first slot whose type is -1, if any: every earlier slot has another type, and there is none exactly when no slot has type -1 |
| BrushTables.EnumTerminator | source/blender/editors/sculpt_paint/sculpt_brush_machine.c:153-168 | the first all-zero row of an enum definition, if any: every earlier row is a real item, and there is none exactly when no row is zero |
| BrushTables.FindChannelType | source/blender/editors/sculpt_paint/sculpt_brush_machine.c:57-64 | a query over the `name` field of the row struct, which exists only in the model (the source has no lookup function) and serves `BuiltinLookupByName`: a hit is the first entry with that name, and a miss happens exactly when no entry has that name |
| BrushTables.FindChannelTypeExact | source/blender/editors/sculpt_paint/sculpt_brush_machine.c:57-64 | for the model-only name query: in a table whose names are distinct, looking up any entry's name returns that very entry |
| BrushTables.BuiltinChannelsWellFormed | source/blender/editors/sculpt_paint/sculpt_brush_machine.c:132-176 | the builtin table has four entries with distinct names; each name fits `char[32]`, each enum definition is terminated, and min <= softmin <= softmax <= max |
| BrushTables.BuiltinLookupByName | source/blender/editors/sculpt_paint/sculpt_brush_machine.c:132-176 | "Radius" and "Radius Scale" carry the same channel id, so the id does not identify a type, while lookup by name finds each builtin entry |
| BrushTables.RadiusScaleIdUnused | source/blender/editors/sculpt_paint/sculpt_brush_machine.c:107-176 | no builtin type has `BRUSH_CHANNEL_RADIUS_SCALE`, although "Draw" slots 3 and 5 are typed with it |
| BrushTables.ClothDeformEnum | source/blender/editors/sculpt_paint/sculpt_brush_machine.c:149-168 | with the rows fully braced, as they are evidently meant to be, "Cloth Deform Type" declares exactly the eight written deform items before its null row, fewer than `MAX_BRUSH_ENUM_DEF` |
| BrushTables.ClothDeformEnumAsWritten | source/blender/editors/sculpt_paint/sculpt_brush_machine.c:153-168 | with the single brace level as written, the "Cloth Deform Type" array declares "DRAG" alone and is terminated at index 1, so it is not the eight-item list |
| BrushTables.SingleBracedDeclaresFirstOnly | source/blender/editors/sculpt_paint/sculpt_brush_machine.c:53-55 | `{ {row}, ... }` for a `BrushEnumDef` (`SingleBracedEnumDef`) puts the first row in element 0 and zeros the rest: for any written rows starting with an item, exactly that first row is declared, terminated at index 1 |
| BrushTables.DoubleBracedDeclaresWritten | source/blender/editors/sculpt_paint/sculpt_brush_machine.c:53-55 | `{{ {row}, ... }}` for a `BrushEnumDef` (`DoubleBracedEnumDef`) keeps every row in place: for any written rows that fit, exactly the rows before the written null row are declared, or all rows when there is none and room remains |
| BrushTables.EnumTerminatorAppend | source/blender/editors/sculpt_paint/sculpt_brush_machine.c:153-168 | the terminator of a concatenation is the first part's if it has one, otherwise the second part's, shifted by the first part's length |
| BrushTables.ClothDeformDistinct | source/blender/editors/sculpt_paint/sculpt_brush_machine.c:155-166 | the eight cloth deform items have distinct values and distinct identifiers |
| BrushTables.DrawBrushSlots | source/blender/editors/sculpt_paint/sculpt_brush_machine.c:107-119 | "Draw" has its terminator at slot 6 and declares the six named slots with defaults 50, 1, 0, 1, 0, 1 |
| BrushTables.DrawBrushWellFormed | source/blender/editors/sculpt_paint/sculpt_brush_machine.c:94-130 | "Draw" is a well-formed preset: slot names are distinct and fit `char[32]`, and its six slots fit both the 32-row preset and the 16-parameter command |
| SculptOpcodes.OpCode | source/blender/editors/sculpt_paint/sculpt_brush_machine.c:219-238 | every opcode's enumerator value lies in [0, 16) |
| SculptOpcodes.DecodeOp | source/blender/editors/sculpt_paint/sculpt_brush_machine.c:219-238 | a code names an opcode exactly when it lies in [0, 16), and the opcode it names has that code |
| SculptOpcodes.OpCodeRoundTrip | source/blender/editors/sculpt_paint/sculpt_brush_machine.c:219-238 | enumerator values and opcodes are in bijection: decoding an opcode's value gives it back, and a code decodes to an opcode exactly when it is that opcode's value |
| SculptOpcodes.OperandTerminator | source/blender/editors/sculpt_paint/sculpt_brush_machine.c:248-253 | the first `.i = -1` cell: no earlier cell is a terminator, and there is none exactly when no cell is |
| SculptOpcodes.TerminatorUnique | source/blender/editors/sculpt_paint/sculpt_brush_machine.c:248-253 | a terminator cell with no terminator before it is the one the scan finds |
| SculptOpcodes.TerminatorAfter | source/blender/editors/sculpt_paint/sculpt_brush_machine.c:249-253 | after an operand list free of terminator values, the terminator is found exactly at the list's end, whatever follows |
| SculptOpcodes.DecodeEncode | source/blender/editors/sculpt_paint/sculpt_brush_machine.c:249-253 | reading back the operands of an encoded list gives the list, when no operand equals the terminator value |
| SculptOpcodes.EncodeDecode | source/blender/editors/sculpt_paint/sculpt_brush_machine.c:206-209 | an instruction whose cells after the terminator are zero is rebuilt exactly by encoding its decoded operands |
| SculptOpcodes.WellFormedBounds | source/blender/editors/sculpt_paint/sculpt_brush_machine.c:206-238 | a well-formed instruction has fewer than 16 operands, and every register operand names one of the 32 registers |
| SculptOpcodes.EncodeWellFormed | source/blender/editors/sculpt_paint/sculpt_brush_machine.c:219-253 | an operand list that matches its opcode's documented roles and contains no terminator value encodes to a well-formed instruction |
| SculptOpcodes.LiteralTerminatorAmbiguous | source/blender/editors/sculpt_paint/sculpt_brush_machine.c:220-221 | `SOP_LOADI r, -1` matches its roles, yet reads back as the single operand `r` and is not well formed |
| SculptOpcodes.FindTerminator | source/blender/editors/sculpt_paint/sculpt_brush_machine.c:206-209 | an in-order scan returns the first terminator's index, or -1 exactly when there is none |
| SculptOpcodes.CheckInstruction | source/blender/editors/sculpt_paint/sculpt_brush_machine.c:206-238 | answers true exactly when the instruction is well formed: 16 cells, a valid opcode, a terminator, and operands matching the opcode's roles |
| SculptOpcodes.ValidateProgram | source/blender/editors/sculpt_paint/sculpt_brush_machine.c:213-238 | reports no index exactly when every instruction is well formed; otherwise reports the first malformed instruction, all before it being well formed |
| SculptOpcodes.Op | source/blender/editors/sculpt_paint/sculpt_brush_machine.c:248 | `OP(op)` leaves all 16 cells zero, so it carries no terminator, has no operand list and is never well formed |
| SculptOpcodes.OpICh | source/blender/editors/sculpt_paint/sculpt_brush_machine.c:249 | `OP_I_CH` puts the terminator in cell 2 and reads back as `[i1, ch1]` when `i1` is not -1 |
| SculptOpcodes.OpI | source/blender/editors/sculpt_paint/sculpt_brush_machine.c:250 | `OP_I` puts the terminator in cell 1 and reads back as `[i1]` alone when `i1` is not -1 |
| SculptOpcodes.OpIDiscardsSecond | source/blender/editors/sculpt_paint/sculpt_brush_machine.c:250 | the instruction `OP_I` builds does not depend on its second argument |
| SculptOpcodes.OpInts | source/blender/editors/sculpt_paint/sculpt_brush_machine.c:251-253 | k ints occupy cells 0..k-1, the terminator cell k, and zeros the rest; they read back as the k ints when none is -1 |
| SculptOpcodes.OpI2 | source/blender/editors/sculpt_paint/sculpt_brush_machine.c:251 | `OP_I2` lays out two ints as `OpInts` does and reads back as `[i1, i2]` when neither is -1 |
| SculptOpcodes.OpI3 | source/blender/editors/sculpt_paint/sculpt_brush_machine.c:252 | `OP_I3` lays out three ints as `OpInts` does and reads back as `[i1, i2, i3]` when none is -1 |
| SculptOpcodes.OpI4 | source/blender/editors/sculpt_paint/sculpt_brush_machine.c:253 | `OP_I4` lays out four ints as `OpInts` does and reads back as the four ints when none is -1 |
| SculptOpcodes.LoadChannelInstruction | source/blender/editors/sculpt_paint/sculpt_brush_machine.c:235 | `OP_I_CH(SOP_LOAD_CHANNEL_F, reg, name)` is well formed, writes `reg`, reads nothing and loads `name` |
| SculptOpcodes.ArithmeticInstruction | source/blender/editors/sculpt_paint/sculpt_brush_machine.c:230-233 | `OP_I3(op, dst, a, b)` for `SOP_MUL`/`ADD`/`SUB`/`DIV` is well formed, writes `dst` and reads `a` and `b` |
| SculptOpcodes.ToolExecInstruction | source/blender/editors/sculpt_paint/sculpt_brush_machine.c:237 | `OP_I3(SOP_TOOL_EXEC, tool, a, b)` is well formed, writes nothing and reads `a` and `b` |
| SculptOpcodes.PresetProgramWellFormed | source/blender/editors/sculpt_paint/sculpt_brush_machine.c:255-263 | with any valid, pairwise distinct registers, all six instructions of the preset are well formed |
| SculptOpcodes.PresetProgramLoads | source/blender/editors/sculpt_paint/sculpt_brush_machine.c:255-263 | the four channel loads of the preset write their register, read nothing, and load "Radius", "Strength", "Radius", "Autosmooth Radius Scale" |
| SculptOpcodes.PresetProgramCompute | source/blender/editors/sculpt_paint/sculpt_brush_machine.c:258-262 | the tool execution reads radius and strength and writes nothing; the multiplication reads autosmooth and radius and writes autosmooth |
| SculptOpcodes.PresetProgramDefinedBeforeUse | source/blender/editors/sculpt_paint/sculpt_brush_machine.c:255-263 | every register an instruction of the preset reads was written by an earlier instruction |
| SculptOpcodes.PresetProgramReachingLoads | source/blender/editors/sculpt_paint/sculpt_brush_machine.c:260-262 | the multiplication reads the radius loaded by instruction 0 and the scale loaded by instruction 4; the load at instruction 3 is overwritten before any read |
| SculptOpcodes.PresetProperties | source/blender/editors/sculpt_paint/sculpt_brush_machine.c:243-263 | the shipped `preset` (registers 10, 11, 12, the draw tool) is well formed and defines before use; every channel it loads is a slot of "Draw"; its instruction-3 load is a dead store |
| ImageEngine.DrawFlagBits | source/blender/draw/engines/image/image_engine.cc:54-59 | the six draw flags are the bits 1, 2, 4, 8, 16, 32, and distinct flags occupy distinct bits |
| ImageEngine.SetFlagFromTest | source/blender/draw/engines/image/image_engine.cc:132-133 | the bit is set exactly when the test holds, and no other bit changes |
| ImageEngine.ImageDisplayModeIsFirstSet | source/blender/draw/engines/image/image_engine.cc:134-171 | the image chain picks the branch of the first flag that is on, in the order use-alpha, show-alpha, depth, R, G, B |
| ImageEngine.ImageDisplayModeExactlyOne | source/blender/draw/engines/image/image_engine.cc:134-171 | a branch fires exactly when its flag is on and every earlier flag is off, and plain RGB fires exactly when all are off |
| ImageEngine.ApplyDisplay | source/blender/draw/engines/image/image_engine.cc:134-171 | a branch only adds display bits: show-alpha for RGBA, depth for Z, the shuffling bit exactly for the channel branches, and apply-alpha for RGBA, or for R/G/B/RGB when alpha affects RGB. A channel branch selects its own channel: R, G, B give the unit vector at 0, 1, 2, alpha at 3, and Z at 0. RGBA and RGB keep the incoming shuffle; far/near and premultiplied alpha are untouched |
| ImageEngine.ImageShaderParameters | source/blender/draw/engines/image/image_engine.cc:126-172 | repeat is on exactly for an untiled image with tile drawing on the raw flags; world-position is on exactly for tiled images; other incoming bits are kept and only declared bits are added. Each display bit, and the channel the shuffle selects, follows the branch picked from the masked flags |
| ImageEngine.NodeShaderParameters | source/blender/draw/engines/image/image_engine.cc:212-250 | the node editor only adds display bits and never touches depth, repeat or world-position. Each display bit, and the channel the shuffle selects, follows the branch picked from its own flags |
| ImageEngine.NodeIsImageWithoutDepth | source/blender/draw/engines/image/image_engine.cc:212-250 | for incoming parameters with neither the repeat nor the world-position bit set, the node editor gives exactly what the image editor gives for the same flags untiled and unmasked; and its answer does not depend on `is_tiled` |
| ImageEngine.AccessorShaderParameters | source/blender/draw/engines/image/image_engine.cc:253-265 | `space_accessor_from_context` gives no accessor exactly when the space is neither image nor node (`SpaceAccessorFromContext`), and along the path to shader parameters: An image space gives the image editor's parameters over that space's flags. A node space leaves depth, repeat and world-position as they were, follows its own flags' branch, and gives the same answer for either `is_tiled` |
| ImageEngine.DefaultsThroughAccessor | source/blender/draw/engines/image/image_engine.cc:61-80 | starting from a freshly constructed `ShaderParameters` (lines 507-517), each accessor sets exactly the declared bits whose condition holds. The identity shuffle survives exactly when no channel branch fires, and premultiplied alpha is the caller's. Far/near stays (100, 0); this is the path without a camera, since `set_far_near` (lines 512-515) is left out |
| ImageEngine.GetShaderParameters | source/blender/draw/engines/image/image_engine.cc:86-90 | virtual dispatch: through the node accessor the depth bit is unchanged, through the image accessor world-position follows `is_tiled`, and either accessor's shuffle selects the channel of the branch its flags pick |
| ImageEngine.CDiv | source/blender/draw/engines/image/image_engine.cc:386 | C's truncating division by a positive divisor: the quotient is the floor for non-negative dividends and the ceiling for negative ones |
| ImageEngine.CMod | source/blender/draw/engines/image/image_engine.cc:385 | C's remainder: dividend = divisor * quotient + remainder, and the remainder has the dividend's sign and magnitude below the divisor |
| ImageEngine.UdimTile | source/blender/draw/engines/image/image_engine.cc:383-391 | every tile number n equals 1001 + 10 * row + column; from 1001 on, the column is in [0, 10) and the row is non-negative |
| ImageEngine.UdimTileRoundTrip | source/blender/draw/engines/image/image_engine.cc:385-388 | every grid position with column in [0, 10) and row >= 0 comes back from its tile number |
| ImageEngine.UdimTileBelowRange | source/blender/draw/engines/image/image_engine.cc:385-386 | for every tile number t below 1001, the column is `-((1001 - t) % 10)`, in (-10, 0] and 0 exactly when 10 divides 1001 - t, and the row is `-((1001 - t) / 10)`; 1000 gives (-1, 0) and 991 gives (0, -1) |
| AnonymousAttribute.Incref | source/blender/blenkernel/BKE_anonymous_attribute.hh:119-130 | a null handle changes no counter; otherwise exactly the counter of the handle's kind for its id goes up by one |
| AnonymousAttribute.Decref | source/blender/blenkernel/BKE_anonymous_attribute.hh:132-143 | a null handle changes no counter; otherwise exactly the counter of the handle's kind for its id goes down by one |
| AnonymousAttribute.BalancedCountersNonNegative | source/blender/blenkernel/BKE_anonymous_attribute.hh:132-143 | in a balanced world no counter is negative, so a decrement from a live owner never underflows |
| AnonymousAttribute.DefaultConstruct | source/blender/blenkernel/BKE_anonymous_attribute.hh:30-33 | a default handle holds null, converts to false and moves no counter |
| AnonymousAttribute.NamedConstruct | source/blender/blenkernel/BKE_anonymous_attribute.hh:35-43 | the new handle holds a new id, converts to true (`operator bool`, lines 93-96), and the id's counter of the handle's kind is 1; no other counter moves |
| AnonymousAttribute.Adopt | source/blender/blenkernel/BKE_anonymous_attribute.hh:45-48 | adopting a pointer moves no counter; the caller's owned reference passes into the handle |
| AnonymousAttribute.CopyConstruct | source/blender/blenkernel/BKE_anonymous_attribute.hh:50-55 | the body of the copy constructor template, which is what a copy is meant to do: the copy shares the source's pointer and adds one reference of its own kind; the source is untouched |
| AnonymousAttribute.MemberwiseCopy | source/blender/blenkernel/BKE_anonymous_attribute.hh:28-33 | the implicit copy constructor the class gets beside its templates: the new handle copies the source's slot, and no counter or outside reference moves |
| AnonymousAttribute.MoveConstruct | source/blender/blenkernel/BKE_anonymous_attribute.hh:57-64 | the new handle takes the pointer and one reference of its kind, and converts to true exactly when the source did. The source drops one reference of its kind and is left null; no other handle changes |
| AnonymousAttribute.Destroy | source/blender/blenkernel/BKE_anonymous_attribute.hh:66-69 | destroying a handle drops exactly one reference of its kind to its id, and nothing when it is null |
| AnonymousAttribute.Extract | source/blender/blenkernel/BKE_anonymous_attribute.hh:110-116 | returns the held pointer, which is non-null exactly when the handle converted to true. The handle is left null and no counter moves; the reference becomes the caller's |
| AnonymousAttribute.CopyAssign | source/blender/blenkernel/BKE_anonymous_attribute.hh:71-80 | the intended copy assignment, which neither the implicit assignment nor the template body computes: self-assignment changes nothing; otherwise the target drops its old reference and takes one of its kind to the source's id |
| AnonymousAttribute.MemberwiseAssign | source/blender/blenkernel/BKE_anonymous_attribute.hh:28-33 | the implicit copy assignment between handles of one kind: the target's slot becomes the source's, and no counter or outside reference moves, self-assignment included |
| AnonymousAttribute.MoveAssign | source/blender/blenkernel/BKE_anonymous_attribute.hh:82-91 | self-assignment changes nothing; otherwise the target drops its old reference, takes the source's pointer with one reference of its kind, and the source drops its own and becomes null |
| AnonymousAttribute.DefaultConstructBalanced | source/blender/blenkernel/BKE_anonymous_attribute.hh:33 | default construction keeps every counter equal to its holders plus outside owners |
| AnonymousAttribute.NamedConstructBalanced | source/blender/blenkernel/BKE_anonymous_attribute.hh:35-43 | construction from a debug name keeps the counters balanced |
| AnonymousAttribute.AdoptBalanced | source/blender/blenkernel/BKE_anonymous_attribute.hh:45-48 | adopting an owned pointer keeps the counters balanced |
| AnonymousAttribute.CopyConstructBalanced | source/blender/blenkernel/BKE_anonymous_attribute.hh:50-55 | copy construction as the template body does it keeps the counters balanced |
| AnonymousAttribute.MoveConstructBalanced | source/blender/blenkernel/BKE_anonymous_attribute.hh:57-64 | move construction keeps the counters balanced |
| AnonymousAttribute.DestroyBalanced | source/blender/blenkernel/BKE_anonymous_attribute.hh:66-69 | destruction keeps the counters balanced |
| AnonymousAttribute.ExtractBalanced | source/blender/blenkernel/BKE_anonymous_attribute.hh:110-116 | extraction keeps the counters balanced, counting the extracted reference as owned by the caller |
| AnonymousAttribute.CopyAssignBalanced | source/blender/blenkernel/BKE_anonymous_attribute.hh:71-80 | the intended copy assignment, self-assignment included, keeps the counters balanced |
| AnonymousAttribute.MoveAssignBalanced | source/blender/blenkernel/BKE_anonymous_attribute.hh:82-91 | move assignment, self-assignment included, keeps the counters balanced |
| AnonymousAttribute.ExtractThenDestroy | source/blender/blenkernel/BKE_anonymous_attribute.hh:110-116 | extracting and then destroying a handle leaves every counter as it was |
| AnonymousAttribute.MemberwiseCopyUnbalanced | source/blender/blenkernel/BKE_anonymous_attribute.hh:28-33 | copying a handle that holds an id leaves that id with one holder more than its counter accounts for, so a balanced world becomes unbalanced |
| AnonymousAttribute.MemberwiseCopyDoubleRelease | source/blender/blenkernel/BKE_anonymous_attribute.hh:66-69 | destroying the original and its member-wise copy lowers the id's counter by two, although the holders drop by only one. The counter ends one below the references still owned |
| AnonymousAttribute.MemberwiseAssignUnbalanced | source/blender/blenkernel/BKE_anonymous_attribute.hh:28-33 | assigning a set handle over one of the same kind that holds something else gives the source's id one uncounted holder. The target's old id keeps a counted reference nobody owns |
| AnonymousAttribute.AssignTemplateBody | source/blender/blenkernel/BKE_anonymous_attribute.hh:71-80 | the copy assignment template's body for a source of the same kind: self-assignment changes nothing; otherwise the target is destroyed (its counter drops by what it held) and its slot becomes a member-wise copy of the source, with no reference taken |
| AnonymousAttribute.AssignTemplateBodyUnbalanced | source/blender/blenkernel/BKE_anonymous_attribute.hh:71-80 | that body, run from a balanced world with a set source, leaves the source's id with one holder more than its counter accounts for, whatever the target held, so the world is not balanced |

## Findings

| source | as written | input that shows it | evidently intended | confidence | as-written member | corrected member |
|---|---|---|---|---|---|---|
| source/blender/blenkernel/BKE_anonymous_attribute.hh:50-55 | the copy constructor is a template, so copying a handle of the same kind runs the implicit member-wise copy: the pointer is shared and no counter is incremented | a strong handle holding a fresh id (counter 1) copied from an lvalue: two holders, counter 1; destroying both takes the counter to -1 | the copy takes one reference of its own kind, as the template body does | high (C++ overload rules; not executed) | AnonymousAttribute.MemberwiseCopyUnbalanced | AnonymousAttribute.CopyConstructBalanced |
| source/blender/blenkernel/BKE_anonymous_attribute.hh:71-80 | the copy assignment is a template, so assigning a handle of the same kind runs the implicit member-wise assignment: the target's old id is never released and the source's id is never incremented | strong handles holding ids 1 and 2, each counter 1; assigning the second to the first leaves id 1 counted once with no holder, and id 2 counted once with two holders | the target releases its old reference and takes one to the source's id. Making the template run is not enough: its placement `new` at line 78 also selects the implicit copy constructor, so the repair also needs a non-template copy constructor or an explicit `incref` after line 78 | high (C++ overload rules; not executed) | AnonymousAttribute.MemberwiseAssignUnbalanced | AnonymousAttribute.CopyAssignBalanced |
| source/blender/editors/sculpt_paint/sculpt_brush_machine.c:153-168 | `.enumdef = { {DRAG row}, {PUSH row}, ..., {0, NULL, ...}, }` has one brace level for a struct whose only member is the array `items` (lines 53-55). By brace elision the first row fills `items[0]`, the other elements are zero, and the eight further rows are excess initializers, a constraint violation under section 6.7.9 of ISO C11 that a compiler rejects or diagnoses and drops | the shipped "Cloth Deform Type" entry: its terminator is at index 1 and only "DRAG" is declared | `.enumdef = {{ ... }}`, declaring all eight deform items before the null row | high (C initializer rules; not executed) | BrushTables.ClothDeformEnumAsWritten | BrushTables.ClothDeformEnum |

## Left out

- The sculpt brush machine's execution is left out: the register file of `SculptVM` (lines 213-217) and whatever runs the opcodes. The file declares the layout only; no interpreter is present in it.
- `BrushChannel`, `BrushCommand` and `BrushCommandList` (lines 42-49, 121-130), `CHANNEL_CUSTOM` (line 39), the `BrushChannel.flag` bits (lines 76-81) and the `BRUSH_COMMAND_*` ids (from line 178) are declared and used by nothing in the file, so they are left out.
- The `CurveMapping` contents of a channel and the curve enum of line 67 (pressure, x-tilt, y-tilt) are left out. They are used nowhere in the file.
- The UI name and description fields of the enum items are left out. Only the value and the identifier are kept.
- The `SCULPT_OP_*` type bits (lines 187-195) and `BRUSH_VALUE_DEFAULT` (line 240) are declared in the file and used nowhere, so they are left out.
- `GraphNode` (lines 265-274) and the commented-out node builder script and node type (lines 276-314) are left out.
- `SOP_LOADI` (line 221) has no operand comment. The model assumes it mirrors `SOP_LOADF`, taking a register and an int literal. `LiteralTerminatorAmbiguous` depends on that assumption.
- `SOP_TOOL_EXEC` (line 237) documents its operands as "tool, ...". The model assumes the trailing operands are register indices, which is how `preset` uses them.
- `REG_TOPORAKE` (line 246) is declared and used by no instruction, so it is left out.
- The value of `SCULPT_TOOL_DRAW` comes from a header that is not part of this model. It is a named constant (1 here), and no property depends on its value beyond its not being -1.
- The values of the `SI_*` and `SNODE_*` flags and of the space types come from DNA headers that are not part of this model. They are symbolic datatype constructors.
- `ED_space_image_get_display_channel_mask` and `IMB_alpha_affects_rgb` are foreign calls. They become parameters (`channelMask`, `alphaAffectsRgb`).
- `ShaderParameters::set_far_near` (lines 75-79) and the premultiplied-alpha query are left out. Camera data and the image's GPU texture are outside the model; the model only carries `farNear` and `usePremulAlpha` through unchanged.
- GPU textures, shading groups, views, passes, framebuffers and the node backdrop's zoom and translation arithmetic (lines 290-381, 397-538) are left out. They are drawing plumbing, and the latter is floating point.
- `space_accessor_from_context`'s `BLI_assert_unreachable` only fires in debug builds. The model returns `None` for another space, as a release build returns `nullptr`.
- `image_private.hh` is not part of this model.
- UdimTile: the C `int` subtraction `tile_number - 1001` (lines 385-386) overflows below `INT_MIN + 1001`; the model uses unbounded integers there, because real tile numbers never come near that bound.
- The counters of an anonymous attribute id are atomic, and an id is freed when they reach zero. Neither atomicity nor freeing is modelled: the counters are plain integers.
- `BKE_anonymous_attribute_id_new_strong` and `_new_weak` are foreign calls. The model takes their effect to be a fresh id that starts with one reference of the requested kind.
- `debug_name` and `has_strong_references` (lines 98-108) only forward to foreign queries about the id, so they are left out.
- AnonymousAttribute.NamedConstruct: the fresh id is a parameter the caller picks, which stands for the foreign allocation.
- SculptOpcodes.Encode: it only states the 16-cell capacity. Its meaning is stated by `DecodeEncode` and `EncodeDecode`.
