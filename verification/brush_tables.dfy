/** The declarative tables of the sculpt brush machine: the builtin channel
    types, the "Draw" command preset, and the fixed-capacity records a
    command is realised into. Every table is a constant; the lemmas state the
    capacity limits and cross-references the tables are written to respect.

    Floating-point fields are modelled as `real`: only their order and the
    literal defaults matter here, and rounding a literal to `float` keeps the
    order between literals. */
module BrushTables {
  import opened Wrappers

  /** Capacity of a realised command (`MAX_BRUSH_COMMAND_PARAMS`). */
  const MAX_BRUSH_COMMAND_PARAMS: nat := 16
  /** Curve mappings per channel (`MAX_BRUSH_CHANNEL_CURVES`). */
  const MAX_BRUSH_CHANNEL_CURVES: nat := 3
  /** Capacity of an enum definition, terminator included (`MAX_BRUSH_ENUM_DEF`). */
  const MAX_BRUSH_ENUM_DEF: nat := 32
  /** Capacity of a preset's slot array, terminator included. */
  const MAX_PRESET_SLOTS: nat := 32
  /** Size of every fixed `char name[32]` buffer, NUL included. */
  const NAME_CAPACITY: nat := 32
  /** Size of the preset's own `char name[64]`. */
  const PRESET_NAME_CAPACITY: nat := 64

  // Channel ids (the `.channel` of a type, the `.type` of a preset slot).
  const BRUSH_CHANNEL_RADIUS: int := 1
  const BRUSH_CHANNEL_STRENGTH: int := 2
  const BRUSH_CHANNEL_CLOTH_TYPE: int := 4
  const BRUSH_CHANNEL_RADIUS_SCALE: int := 8

  // Numeric kind and subtype of a channel type.
  const BRUSH_CHANNEL_FLOAT: int := 1
  const BRUSH_CHANNEL_INT: int := 2
  const BRUSH_CHANNEL_ENUM: int := 1

  /** The draw tool's id. It is declared with the other sculpt tool ids in
      DNA_brush_enums.h, which is not part of this model; no property below
      depends on its value. */
  const SCULPT_TOOL_DRAW: int := 1

  /** A curve preset id as stored in `curve_presets`. `PresetZero` is the
      enumerator whose value is 0, which every cell the initializer leaves
      out holds; `PresetSmooth` is `CURVE_PRESET_SMOOTH`. Both are declared
      in a header that is not part of this model. */
  datatype CurvePreset = PresetZero | PresetSmooth

  /** The values of the "Cloth Deform Type" enum (declared in
      DNA_brush_enums.h, which is not part of this model). */
  datatype ClothDeform =
    | DeformDrag | DeformPush | DeformPinchPoint | DeformPinchPerpendicular
    | DeformInflate | DeformGrab | DeformExpand | DeformSnakeHook

  /** One row of an enum definition; `EnumEnd` is the `{0, NULL, ...}` row
      that ends the list, and also what a zero-filled row reads as. Labels,
      icons and descriptions are UI strings and are not modelled. */
  datatype EnumItem = EnumItem(value: ClothDeform, identifier: string) | EnumEnd

  datatype BrushChannelType = BrushChannelType(
    name: string,
    channel: int,
    min: real, max: real, softmin: real, softmax: real,
    curvePresets: seq<CurvePreset>,
    valueType: int,
    subtype: int,
    enumdef: seq<EnumItem>)

  /** A slot of a command preset: a named channel with its default value.
      `custom_type` is always NULL in the shipped table and is not modelled. */
  datatype PresetSlot = PresetSlot(name: string, slotType: int, defval: real)

  datatype BrushCommandPreset = BrushCommandPreset(
    name: string, tool: int, channels: seq<PresetSlot>)

  /** A string literal fits a `char[cap]` buffer with its terminating NUL. */
  predicate FitsBuffer(s: string, cap: nat) {
    |s| + 1 <= cap
  }

  // ---------------------------------------------------------------------
  // Sentinel scans

  /** The index of the first slot whose type is -1, the preset terminator. */
  function SlotTerminator(slots: seq<PresetSlot>): (r: Option<nat>)
    ensures r.Some? ==> r.value < |slots| && slots[r.value].slotType == -1
    ensures r.Some? ==> forall j :: 0 <= j < r.value ==> slots[j].slotType != -1
    ensures r.None? <==> forall j :: 0 <= j < |slots| ==> slots[j].slotType != -1
  {
    if |slots| == 0 then None
    else if slots[0].slotType == -1 then Some(0)
    else match SlotTerminator(slots[1..])
      case None => None
      case Some(k) => Some(k + 1)
  }

  /** The index of the first `EnumEnd` row. */
  function EnumTerminator(items: seq<EnumItem>): (r: Option<nat>)
    ensures r.Some? ==> r.value < |items| && items[r.value].EnumEnd?
    ensures r.Some? ==> forall j :: 0 <= j < r.value ==> items[j].EnumItem?
    ensures r.None? <==> forall j :: 0 <= j < |items| ==> items[j].EnumItem?
  {
    if |items| == 0 then None
    else if items[0].EnumEnd? then Some(0)
    else match EnumTerminator(items[1..])
      case None => None
      case Some(k) => Some(k + 1)
  }

  /** The slots a preset declares: those before its terminator. */
  function DeclaredSlots(p: BrushCommandPreset): seq<PresetSlot> {
    match SlotTerminator(p.channels)
    case Some(k) => p.channels[..k]
    case None => p.channels
  }

  /** The enum rows an item array declares: those before its terminator. */
  function DeclaredRows(items: seq<EnumItem>): seq<EnumItem> {
    match EnumTerminator(items)
    case Some(k) => items[..k]
    case None => items
  }

  /** The enum rows a channel type declares. */
  function DeclaredItems(t: BrushChannelType): seq<EnumItem> {
    DeclaredRows(t.enumdef)
  }

  /** Scanning a concatenation finds the first part's terminator if it has
      one, and otherwise the second part's, shifted past the first. */
  lemma {:induction false} EnumTerminatorAppend(a: seq<EnumItem>, b: seq<EnumItem>)
    ensures EnumTerminator(a).Some? ==> EnumTerminator(a + b) == EnumTerminator(a)
    ensures EnumTerminator(a).None? && EnumTerminator(b).Some? ==>
              EnumTerminator(a + b) == Some(|a| + EnumTerminator(b).value)
    ensures EnumTerminator(a).None? && EnumTerminator(b).None? ==> EnumTerminator(a + b).None?
  {
    if |a| > 0 {
      assert (a + b)[0] == a[0] && (a + b)[1..] == a[1..] + b;
      EnumTerminatorAppend(a[1..], b);
    } else {
      assert a + b == b;
    }
  }

  // ---------------------------------------------------------------------
  // Initializing a `BrushEnumDef`

  /** What `.enumdef = { {row}, {row}, ... }` builds. `BrushEnumDef` is a
      struct whose only member is the array `items`, so the outer braces are
      the struct's and the first row's braces initialize `items` as a whole:
      by brace elision that row's fields fill `items[0]`, the other elements
      of the array are zero, and every further row is an excess initializer
      (a constraint violation under section 6.7.9 of ISO C11, which a
      compiler either rejects or diagnoses and drops). */
  function SingleBracedEnumDef(rows: seq<EnumItem>): (r: seq<EnumItem>)
    ensures |r| == MAX_BRUSH_ENUM_DEF
    ensures |rows| > 0 ==> r[0] == rows[0]
    ensures forall j :: 1 <= j < |r| ==> r[j] == EnumEnd
  {
    (if |rows| > 0 then [rows[0]] else [EnumEnd]) + seq(MAX_BRUSH_ENUM_DEF - 1, _ => EnumEnd)
  }

  /** What `.enumdef = {{ {row}, {row}, ... }}` builds: the inner braces are
      the array's, so every row lands in its own element and the rest are
      zero. */
  function DoubleBracedEnumDef(rows: seq<EnumItem>): (r: seq<EnumItem>)
    requires |rows| <= MAX_BRUSH_ENUM_DEF
    ensures |r| == MAX_BRUSH_ENUM_DEF && r[..|rows|] == rows
    ensures forall j :: |rows| <= j < |r| ==> r[j] == EnumEnd
  {
    rows + seq(MAX_BRUSH_ENUM_DEF - |rows|, _ => EnumEnd)
  }

  /** With one brace level, only the first written row is declared,
      whatever the others are. */
  lemma SingleBracedDeclaresFirstOnly(rows: seq<EnumItem>)
    requires |rows| > 0 && rows[0].EnumItem?
    ensures EnumTerminator(SingleBracedEnumDef(rows)) == Some(1)
    ensures DeclaredRows(SingleBracedEnumDef(rows)) == [rows[0]]
  {
  }

  /** With two brace levels, the array declares exactly the rows written
      before their own terminator row, or all of them when the written list
      has none and leaves room for the zero row. */
  lemma DoubleBracedDeclaresWritten(rows: seq<EnumItem>)
    requires |rows| <= MAX_BRUSH_ENUM_DEF
    ensures EnumTerminator(rows).Some? ==> DeclaredRows(DoubleBracedEnumDef(rows)) == DeclaredRows(rows)
    ensures EnumTerminator(rows).None? && |rows| < MAX_BRUSH_ENUM_DEF ==>
              DeclaredRows(DoubleBracedEnumDef(rows)) == rows
  {
    var pad := seq(MAX_BRUSH_ENUM_DEF - |rows|, _ => EnumEnd);
    assert DoubleBracedEnumDef(rows) == rows + pad;
    EnumTerminatorAppend(rows, pad);
    if EnumTerminator(rows).Some? {
      var k := EnumTerminator(rows).value;
      assert (rows + pad)[..k] == rows[..k];
    } else if |rows| < MAX_BRUSH_ENUM_DEF {
      assert pad[0] == EnumEnd;
      assert (rows + pad)[..|rows|] == rows;
    }
  }

  // ---------------------------------------------------------------------
  // The builtin channel types

  /** An enum definition that declares no rows: the zero-filled array. */
  const NoEnum: seq<EnumItem> := seq(MAX_BRUSH_ENUM_DEF, _ => EnumEnd)

  const ClothDeformItems: seq<EnumItem> := [
    EnumItem(DeformDrag, "DRAG"),
    EnumItem(DeformPush, "PUSH"),
    EnumItem(DeformPinchPoint, "PINCH_POINT"),
    EnumItem(DeformPinchPerpendicular, "PINCH_PERPENDICULAR"),
    EnumItem(DeformInflate, "INFLATE"),
    EnumItem(DeformGrab, "GRAB"),
    EnumItem(DeformExpand, "EXPAND"),
    EnumItem(DeformSnakeHook, "SNAKE_HOOK")
  ]

  /** The rows written for "Cloth Deform Type", its null row included. */
  const ClothDeformRows: seq<EnumItem> := ClothDeformItems + [EnumEnd]

  const SmoothCurves: seq<CurvePreset> := [PresetSmooth, PresetZero, PresetZero]
  const NoCurves: seq<CurvePreset> := [PresetZero, PresetZero, PresetZero]

  /** `brush_builtin_channels`; fields the initializers leave out are zero.
      The cloth entry's enum definition is the one its rows are evidently
      meant to build, with all eight items; the initializer as written
      builds `SingleBracedEnumDef(ClothDeformRows)` instead (see
      `ClothDeformEnumAsWritten`). */
  const BuiltinChannels: seq<BrushChannelType> := [
    BrushChannelType("Radius", BRUSH_CHANNEL_RADIUS, 0.001, 1024.0, 0.001, 700.0,
                     SmoothCurves, BRUSH_CHANNEL_FLOAT, 0, NoEnum),
    BrushChannelType("Strength", BRUSH_CHANNEL_STRENGTH, 0.001, 1024.0, 0.001, 700.0,
                     SmoothCurves, BRUSH_CHANNEL_FLOAT, 0, NoEnum),
    BrushChannelType("Cloth Deform Type", BRUSH_CHANNEL_CLOTH_TYPE, 0.0, 0.0, 0.0, 0.0,
                     NoCurves, BRUSH_CHANNEL_INT, BRUSH_CHANNEL_ENUM,
                     DoubleBracedEnumDef(ClothDeformRows)),
    BrushChannelType("Radius Scale", BRUSH_CHANNEL_RADIUS, 0.001, 15.0, 0.1, 4.0,
                     SmoothCurves, BRUSH_CHANNEL_FLOAT, 0, NoEnum)
  ]

  /** The shape every channel type is written to respect: its name fits its
      buffer, its arrays have their declared capacity, its enum list is
      terminated, and its bounds nest. */
  predicate WellFormedChannelType(t: BrushChannelType) {
    && FitsBuffer(t.name, NAME_CAPACITY)
    && |t.curvePresets| == MAX_BRUSH_CHANNEL_CURVES
    && |t.enumdef| == MAX_BRUSH_ENUM_DEF
    && EnumTerminator(t.enumdef).Some?
    && t.min <= t.softmin <= t.softmax <= t.max
  }

  /** Channel types are told apart by name. */
  predicate DistinctTypeNames(table: seq<BrushChannelType>) {
    forall i, j :: 0 <= i < j < |table| ==> table[i].name != table[j].name
  }

  /** The first entry of `table` called `name`. */
  function FindChannelType(table: seq<BrushChannelType>, name: string): (r: Option<BrushChannelType>)
    ensures r.Some? ==> exists i :: 0 <= i < |table| && table[i] == r.value && table[i].name == name
                               && forall j :: 0 <= j < i ==> table[j].name != name
    ensures r.None? <==> forall i :: 0 <= i < |table| ==> table[i].name != name
  {
    if |table| == 0 then None
    else if table[0].name == name then Some(table[0])
    else
      var r := FindChannelType(table[1..], name);
      if r.Some? then
        var i :| 0 <= i < |table[1..]| && table[1..][i] == r.value && table[1..][i].name == name
                 && forall j :: 0 <= j < i ==> table[1..][j].name != name;
        assert table[i + 1] == r.value && forall j :: 0 <= j < i + 1 ==> table[j].name != name;
        r
      else r
  }

  /** In a table with distinct names, looking up an entry's name finds that
      very entry, so lookup by name is a faithful index. */
  lemma {:induction false} FindChannelTypeExact(table: seq<BrushChannelType>, i: nat)
    requires DistinctTypeNames(table)
    requires i < |table|
    ensures FindChannelType(table, table[i].name) == Some(table[i])
  {
    if i == 0 {
    } else {
      assert table[0].name != table[i].name;
      assert DistinctTypeNames(table[1..]) by {
        forall a, b | 0 <= a < b < |table[1..]|
          ensures table[1..][a].name != table[1..][b].name
        {
          assert table[1..][a] == table[a + 1] && table[1..][b] == table[b + 1];
        }
      }
      assert table[1..][i - 1] == table[i];
      FindChannelTypeExact(table[1..], i - 1);
    }
  }

  /** The builtin table: every entry is well formed and names are distinct. */
  lemma BuiltinChannelsWellFormed()
    ensures |BuiltinChannels| == 4
    ensures DistinctTypeNames(BuiltinChannels)
    ensures forall i :: 0 <= i < |BuiltinChannels| ==> WellFormedChannelType(BuiltinChannels[i])
  {
    assert EnumTerminator(NoEnum) == Some(0);
    var cloth := BuiltinChannels[2].enumdef;
    assert cloth[8] == EnumEnd;
    assert forall j :: 0 <= j < 8 ==> cloth[j].EnumItem?;
  }

  /** The `.channel` id does not identify a builtin type: "Radius" and
      "Radius Scale" share `BRUSH_CHANNEL_RADIUS`, so lookup must go by name;
      every builtin name, looked up, yields its own entry. */
  lemma BuiltinLookupByName()
    ensures BuiltinChannels[0].name == "Radius" && BuiltinChannels[3].name == "Radius Scale"
    ensures BuiltinChannels[0].channel == BuiltinChannels[3].channel == BRUSH_CHANNEL_RADIUS
    ensures forall i :: 0 <= i < |BuiltinChannels| ==>
              FindChannelType(BuiltinChannels, BuiltinChannels[i].name) == Some(BuiltinChannels[i])
  {
    BuiltinChannelsWellFormed();
    forall i | 0 <= i < |BuiltinChannels|
      ensures FindChannelType(BuiltinChannels, BuiltinChannels[i].name) == Some(BuiltinChannels[i])
    {
      FindChannelTypeExact(BuiltinChannels, i);
    }
  }

  /** No builtin type carries `BRUSH_CHANNEL_RADIUS_SCALE`, although two
      "Draw" slots are typed with it: those slots resolve to no builtin type
      by id. */
  lemma RadiusScaleIdUnused()
    ensures forall i :: 0 <= i < |BuiltinChannels| ==> BuiltinChannels[i].channel != BRUSH_CHANNEL_RADIUS_SCALE
    ensures DeclaredSlots(DrawBrush)[3].slotType == BRUSH_CHANNEL_RADIUS_SCALE
    ensures DeclaredSlots(DrawBrush)[5].slotType == BRUSH_CHANNEL_RADIUS_SCALE
  {
    DrawBrushSlots();
  }

  /** Fully braced, "Cloth Deform Type" declares its 8 written rows before
      the null row, well within `MAX_BRUSH_ENUM_DEF`. */
  lemma ClothDeformEnum()
    ensures DeclaredItems(BuiltinChannels[2]) == ClothDeformItems
    ensures |ClothDeformItems| == 8 && |ClothDeformItems| < MAX_BRUSH_ENUM_DEF
  {
    assert forall j :: 0 <= j < 8 ==> ClothDeformItems[j].EnumItem?;
    EnumTerminatorAppend(ClothDeformItems, [EnumEnd]);
    assert EnumTerminator(ClothDeformRows) == Some(8);
    assert ClothDeformRows[..8] == ClothDeformItems;
    DoubleBracedDeclaresWritten(ClothDeformRows);
  }

  /** As written, with one brace level, "Cloth Deform Type" declares only
      "DRAG": its terminator is at index 1, and the seven other items are
      lost. */
  lemma ClothDeformEnumAsWritten()
    ensures EnumTerminator(SingleBracedEnumDef(ClothDeformRows)) == Some(1)
    ensures DeclaredRows(SingleBracedEnumDef(ClothDeformRows)) == [EnumItem(DeformDrag, "DRAG")]
    ensures DeclaredRows(SingleBracedEnumDef(ClothDeformRows)) != ClothDeformItems
  {
  }

  /** The 8 cloth deform rows have distinct values and distinct
      identifiers. */
  lemma ClothDeformDistinct()
    ensures forall i, j :: 0 <= i < j < |ClothDeformItems| ==>
              ClothDeformItems[i].identifier != ClothDeformItems[j].identifier
              && ClothDeformItems[i].value != ClothDeformItems[j].value
  {
  }

  // ---------------------------------------------------------------------
  // The "Draw" preset

  const ZeroSlot: PresetSlot := PresetSlot("", 0, 0.0)
  const EndSlot: PresetSlot := PresetSlot("", -1, 0.0)

  const DrawSlots: seq<PresetSlot> := [
    PresetSlot("Radius", BRUSH_CHANNEL_RADIUS, 50.0),
    PresetSlot("Strength", BRUSH_CHANNEL_STRENGTH, 1.0),
    PresetSlot("Autosmooth", BRUSH_CHANNEL_STRENGTH, 0.0),
    PresetSlot("Autosmooth Radius Scale", BRUSH_CHANNEL_RADIUS_SCALE, 1.0),
    PresetSlot("Topology Rake", BRUSH_CHANNEL_STRENGTH, 0.0),
    PresetSlot("Topology Rake Radius Scale", BRUSH_CHANNEL_RADIUS_SCALE, 1.0)
  ]

  /** `DrawBrush`: six slots, the `.type = -1` row, then zero-filled rows up
      to the 32-entry capacity. */
  const DrawBrush: BrushCommandPreset := BrushCommandPreset(
    "Draw", SCULPT_TOOL_DRAW,
    DrawSlots + [EndSlot] + seq(MAX_PRESET_SLOTS - |DrawSlots| - 1, _ => ZeroSlot))

  /** The names of a preset's declared slots. */
  function SlotNames(p: BrushCommandPreset): seq<string> {
    seq(|DeclaredSlots(p)|, i requires 0 <= i < |DeclaredSlots(p)| => DeclaredSlots(p)[i].name)
  }

  /** What a preset must satisfy for a command to be realised from it
      without truncation or ambiguity. */
  predicate WellFormedPreset(p: BrushCommandPreset) {
    && FitsBuffer(p.name, PRESET_NAME_CAPACITY)
    && |p.channels| == MAX_PRESET_SLOTS
    && SlotTerminator(p.channels).Some?
    && |DeclaredSlots(p)| <= MAX_BRUSH_COMMAND_PARAMS
    && (forall i :: 0 <= i < |DeclaredSlots(p)| ==> FitsBuffer(DeclaredSlots(p)[i].name, NAME_CAPACITY))
    && (forall i, j :: 0 <= i < j < |DeclaredSlots(p)| ==>
          DeclaredSlots(p)[i].name != DeclaredSlots(p)[j].name)
  }

  /** "Draw" declares exactly its six slots, with their documented names,
      types and defaults. */
  lemma DrawBrushSlots()
    ensures SlotTerminator(DrawBrush.channels) == Some(6)
    ensures DeclaredSlots(DrawBrush) == DrawSlots
    ensures SlotNames(DrawBrush) == ["Radius", "Strength", "Autosmooth", "Autosmooth Radius Scale",
                                     "Topology Rake", "Topology Rake Radius Scale"]
    ensures DrawSlots[0].defval == 50.0 && DrawSlots[1].defval == 1.0 && DrawSlots[2].defval == 0.0
    ensures DrawSlots[3].defval == 1.0 && DrawSlots[4].defval == 0.0 && DrawSlots[5].defval == 1.0
  {
    var ch := DrawBrush.channels;
    assert |ch| == 32;
    assert ch[6] == EndSlot;
    assert forall j :: 0 <= j < 6 ==> ch[j] == DrawSlots[j];
    assert SlotTerminator(ch) == Some(6);
    assert ch[..6] == DrawSlots;
  }

  /** "Draw" is a well-formed preset: its six slot names are distinct and fit
      their buffers, and six slots fit both the 32-row preset array and the
      16-parameter command, so a command realised from it is not truncated. */
  lemma DrawBrushWellFormed()
    ensures WellFormedPreset(DrawBrush)
    ensures |DeclaredSlots(DrawBrush)| == 6
    ensures |DeclaredSlots(DrawBrush)| <= MAX_BRUSH_COMMAND_PARAMS < MAX_PRESET_SLOTS
  {
    DrawBrushSlots();
  }
}
