/** The marshal, unmarshal and complete code that third-party/event_rpcgen.py emits, over tagged items. */
module RpcCodec {

  import opened Basics

  // ---- schemas

  datatype Kind = KBytes(len: nat) | KVarBytes | KInt | KInt64 | KString | KStruct(ref: string)

  datatype Field = Field(name: string, tag: nat, kind: Kind, optional: bool, repeated: bool)

  type Schema = map<string, seq<Field>>

  ghost predicate DistinctTags(fields: seq<Field>) {
    forall i, j :: 0 <= i < j < |fields| ==> fields[i].tag != fields[j].tag
  }

  predicate CanBeArray(k: Kind) { k.KInt? || k.KInt64? || k.KString? || k.KStruct? }

  /** Entry.Verify on an entry as it is declared. */
  predicate Verified(f: Field) {
    f.repeated ==> CanBeArray(f.kind) && !f.optional
  }

  /** EntryArray: an array counts as optional by itself. */
  function Wrapped(f: Field): Field {
    if f.repeated then f.(optional := true) else f
  }

  datatype Outcome = Accepted | Rejected(message: string)

  class Struct {
    var entries: seq<Field>
    var tags: map<nat, string>

    ghost predicate HasTag(t: nat)
      reads this
    {
      exists i :: 0 <= i < |entries| && entries[i].tag == t
    }

    ghost predicate Valid()
      reads this
    {
      && DistinctTags(entries)
      && (forall t :: t in tags <==> HasTag(t))
      && (forall i :: 0 <= i < |entries| ==> entries[i].repeated ==> CanBeArray(entries[i].kind) && entries[i].optional)
    }

    constructor ()
      ensures Valid() && entries == []
    {
      entries, tags := [], map[];
    }

    /** The end of ProcessOneEntry: verify the declared entry, wrap an array, add it unless its tag is taken. */
    method AddEntry(entry: Field) returns (o: Outcome)
      requires Valid()
      modifies this
      ensures Valid()
      ensures o.Accepted? <==> Verified(entry) && !old(HasTag(entry.tag))
      ensures entries == if o.Accepted? then old(entries) + [Wrapped(entry)] else old(entries)
    {
      if entry.repeated && !CanBeArray(entry.kind) {
        return Rejected("cannot be created as an array");
      }
      if entry.optional && entry.repeated {
        return Rejected("illegal combination of optional and array");
      }
      if entry.tag in tags {
        return Rejected("duplicates tag number");
      }
      ghost var before := entries;
      entries, tags := entries + [Wrapped(entry)], tags[entry.tag := entry.name];
      forall t ensures t in tags <==> HasTag(t) {
        assert entries[|before|].tag == entry.tag;
        if i :| 0 <= i < |before| && before[i].tag == t {
          assert entries[i].tag == t;
        }
      }
      return Accepted;
    }
  }

  // ---- messages and items

  /** A field's slot: no value while it is not set, one when it is, any number for an array. */
  datatype Slot = Slot(values: seq<Value>)

  datatype Value = VBytes(bytes: seq<byte>) | VNum(num: nat) | VString(text: string) | VStruct(slots: seq<Slot>)

  datatype Payload = Bytes(bytes: seq<byte>) | Num(num: nat) | Text(text: string) | Items(items: seq<Item>)

  datatype Item = Item(tag: nat, payload: Payload)

  ghost predicate Typed(schema: Schema, k: Kind, v: Value)
    decreases v
  {
    match v
    case VBytes(b) => k.KVarBytes? || k == KBytes(|b|)
    case VNum(n) => (k.KInt? && n < 0x1_0000_0000) || (k.KInt64? && n < 0x1_0000_0000_0000_0000)
    case VString(_) => k.KString?
    case VStruct(slots) =>
      && k.KStruct? && k.ref in schema && DistinctTags(schema[k.ref]) && |slots| == |schema[k.ref]|
      && (forall f :: 0 <= f < |slots| && !schema[k.ref][f].repeated ==> |slots[f].values| <= 1)
      && (forall f, j :: 0 <= f < |slots| && 0 <= j < |slots[f].values| ==>
            Typed(schema, schema[k.ref][f].kind, slots[f].values[j]))
  }

  ghost predicate TypedSlots(schema: Schema, fields: seq<Field>, slots: seq<Slot>) {
    && |slots| == |fields|
    && (forall f :: 0 <= f < |slots| && !fields[f].repeated ==> |slots[f].values| <= 1)
    && (forall f, j :: 0 <= f < |slots| && 0 <= j < |slots[f].values| ==>
          Typed(schema, fields[f].kind, slots[f].values[j]))
  }

  /** name_complete: what is not optional is set, and nested structs are complete. */
  predicate CompleteValue(schema: Schema, k: Kind, v: Value)
    decreases v
  {
    k.KStruct? && v.VStruct? ==>
      && k.ref in schema && |v.slots| == |schema[k.ref]|
      && (forall f :: 0 <= f < |v.slots| && !schema[k.ref][f].optional ==> v.slots[f].values != [])
      && (forall f, j :: 0 <= f < |v.slots| && 0 <= j < |v.slots[f].values| ==>
            CompleteValue(schema, schema[k.ref][f].kind, v.slots[f].values[j]))
  }

  predicate Complete(schema: Schema, fields: seq<Field>, slots: seq<Slot>)
    requires |slots| == |fields|
  {
    && (forall f :: 0 <= f < |slots| && !fields[f].optional ==> slots[f].values != [])
    && (forall f, j :: 0 <= f < |slots| && 0 <= j < |slots[f].values| ==>
          CompleteValue(schema, fields[f].kind, slots[f].values[j]))
  }

  // ---- marshalling

  function Encode(schema: Schema, k: Kind, v: Value): Payload
    requires Typed(schema, k, v)
    decreases v
  {
    match v
    case VBytes(b) => Bytes(b)
    case VNum(n) => Num(n)
    case VString(s) => Text(s)
    case VStruct(slots) => Items(Marshal(schema, schema[k.ref], slots))
  }

  /** The fields in order, each with the items of its slot. */
  function Marshal(schema: Schema, fields: seq<Field>, slots: seq<Slot>): seq<Item>
    requires TypedSlots(schema, fields, slots)
    decreases slots
  {
    var n := |slots| - 1;
    if n < 0 then [] else
      Marshal(schema, fields[..n], slots[..n]) + EncodeAll(schema, fields[n], slots[n].values)
  }

  function EncodeAll(schema: Schema, field: Field, values: seq<Value>): seq<Item>
    requires forall j :: 0 <= j < |values| ==> Typed(schema, field.kind, values[j])
    decreases values
  {
    var n := |values| - 1;
    if n < 0 then [] else
      EncodeAll(schema, field, values[..n]) + [Item(field.tag, Encode(schema, field.kind, values[n]))]
  }

  // ---- unmarshalling

  function FieldOf(fields: seq<Field>, tag: nat): (f: Option<nat>)
    ensures f.Some? ==> f.value < |fields| && fields[f.value].tag == tag
    ensures f.None? ==> forall i :: 0 <= i < |fields| ==> fields[i].tag != tag
  {
    var n := |fields| - 1;
    if n < 0 then None else if fields[n].tag == tag then Some(n) else FieldOf(fields[..n], tag)
  }

  function Decode(schema: Schema, k: Kind, p: Payload): Option<Value>
    decreases p
  {
    if k.KBytes? && p.Bytes? && |p.bytes| == k.len then Some(VBytes(p.bytes))
    else if k.KVarBytes? && p.Bytes? then Some(VBytes(p.bytes))
    else if k.KInt? && p.Num? && p.num < 0x1_0000_0000 then Some(VNum(p.num))
    else if k.KInt64? && p.Num? && p.num < 0x1_0000_0000_0000_0000 then Some(VNum(p.num))
    else if k.KString? && p.Text? then Some(VString(p.text))
    else if k.KStruct? && p.Items? && k.ref in schema then
      var m := Unmarshal(schema, schema[k.ref], p.items);
      if m.Some? then Some(VStruct(m.value)) else None
    else None
  }

  function Fresh(fields: seq<Field>): (s: seq<Slot>)
    ensures |s| == |fields|
  {
    seq(|fields|, _ => Slot([]))
  }

  /** One turn of the loop: an unknown tag, or a second item for a field that is no array, is an error. */
  function Step(schema: Schema, fields: seq<Field>, slots: seq<Slot>, item: Item): (r: Option<seq<Slot>>)
    requires |slots| == |fields|
    ensures r.Some? ==> |r.value| == |fields|
    decreases item
  {
    var f := FieldOf(fields, item.tag);
    if f.None? then None
    else if !fields[f.value].repeated && slots[f.value].values != [] then None
    else
      var v := Decode(schema, fields[f.value].kind, item.payload);
      if v.None? then None else Some(slots[f.value := Slot(slots[f.value].values + [v.value])])
  }

  function ReadItems(schema: Schema, fields: seq<Field>, items: seq<Item>): (r: Option<seq<Slot>>)
    ensures r.Some? ==> |r.value| == |fields|
    decreases items, 0
  {
    var n := |items| - 1;
    if n < 0 then Some(Fresh(fields))
    else
      var r := ReadItems(schema, fields, items[..n]);
      if r.None? then None else Step(schema, fields, r.value, items[n])
  }

  /** name_unmarshal into a new struct. */
  function Unmarshal(schema: Schema, fields: seq<Field>, items: seq<Item>): (r: Option<seq<Slot>>)
    ensures r.Some? ==> |r.value| == |fields| && Complete(schema, fields, r.value)
    decreases items, 1
  {
    var r := ReadItems(schema, fields, items);
    if r.Some? && Complete(schema, fields, r.value) then r else None
  }

  // ---- what unmarshalling means, tag by tag

  function WithTag(items: seq<Item>, tag: nat): seq<Item> {
    var n := |items| - 1;
    if n < 0 then [] else WithTag(items[..n], tag) + if items[n].tag == tag then [items[n]] else []
  }

  function DecodeAll(schema: Schema, k: Kind, items: seq<Item>): Option<seq<Value>> {
    var n := |items| - 1;
    if n < 0 then Some([])
    else
      var front, last := DecodeAll(schema, k, items[..n]), Decode(schema, k, items[n].payload);
      if front.None? || last.None? then None else Some(front.value + [last.value])
  }

  lemma {:induction false} WithTagSnoc(items: seq<Item>, item: Item, tag: nat)
    ensures WithTag(items + [item], tag)
         == if item.tag == tag then WithTag(items, tag) + [item] else WithTag(items, tag)
  {
    assert (items + [item])[..|items|] == items;
  }

  lemma {:induction false} DecodeAllSnoc(schema: Schema, k: Kind, items: seq<Item>, item: Item)
    ensures DecodeAll(schema, k, items + [item]) ==
      if DecodeAll(schema, k, items).None? || Decode(schema, k, item.payload).None? then None
      else Some(DecodeAll(schema, k, items).value + [Decode(schema, k, item.payload).value])
  {
    hide Decode;
    assert (items + [item])[..|items|] == items;
  }

  ghost predicate KnownTags(fields: seq<Field>, items: seq<Item>) {
    forall i :: 0 <= i < |items| ==> FieldOf(fields, items[i].tag).Some?
  }

  /** Field f holds the values of its tag's items, in their order, and no second one unless it is an array. */
  ghost predicate FieldMeans(schema: Schema, field: Field, items: seq<Item>, slot: Slot) {
    && DecodeAll(schema, field.kind, WithTag(items, field.tag)) == Some(slot.values)
    && (!field.repeated ==> |slot.values| <= 1)
  }

  ghost predicate Means(schema: Schema, fields: seq<Field>, items: seq<Item>, slots: seq<Slot>) {
    && KnownTags(fields, items) && |slots| == |fields|
    && forall f :: 0 <= f < |fields| ==> FieldMeans(schema, fields[f], items, slots[f])
  }

  lemma {:induction false} OnlyFieldOf(fields: seq<Field>, f: nat)
    requires DistinctTags(fields) && f < |fields|
    ensures FieldOf(fields, fields[f].tag) == Some(f)
  {
    var g := FieldOf(fields, fields[f].tag);
    assert g.Some? && fields[g.value].tag == fields[f].tag;
  }

  lemma {:induction false} FieldSame(schema: Schema, field: Field, items: seq<Item>, item: Item, slot: Slot)
    requires item.tag != field.tag
    ensures FieldMeans(schema, field, items + [item], slot) <==> FieldMeans(schema, field, items, slot)
  {
    WithTagSnoc(items, item, field.tag);
  }

  lemma {:induction false} FieldLast(schema: Schema, field: Field, items: seq<Item>, item: Item, slot: Slot)
    requires item.tag == field.tag
    ensures FieldMeans(schema, field, items + [item], slot) <==>
      && slot.values != [] && Decode(schema, field.kind, item.payload) == Some(slot.values[|slot.values| - 1])
      && FieldMeans(schema, field, items, Slot(slot.values[..|slot.values| - 1]))
      && (!field.repeated ==> |slot.values| == 1)
  {
    hide WithTag, DecodeAll, Decode;
    var prior := WithTag(items, field.tag);
    WithTagSnoc(items, item, field.tag);
    DecodeAllSnoc(schema, field.kind, prior, item);
    var front, last := DecodeAll(schema, field.kind, prior), Decode(schema, field.kind, item.payload);
    if front.Some? && last.Some? {
      SnocEq(front.value, last.value, slot.values);
    }
  }

  lemma {:induction false} SnocEq(front: seq<Value>, last: Value, all: seq<Value>)
    ensures front + [last] == all <==> all != [] && all[..|all| - 1] == front && all[|all| - 1] == last
  {
    if all != [] {
      assert all == all[..|all| - 1] + [all[|all| - 1]];
      assert (front + [last])[..|front|] == front;
    }
  }

  /** A step changes the meaning of the field that its tag names, and of no other. */
  lemma {:induction false} StepMeans(schema: Schema, fields: seq<Field>, items: seq<Item>, before: seq<Slot>,
            item: Item)
    requires DistinctTags(fields) && Means(schema, fields, items, before)
    ensures Step(schema, fields, before, item).Some? ==>
      Means(schema, fields, items + [item], Step(schema, fields, before, item).value)
  {
    hide Decode, FieldMeans;
    var r := Step(schema, fields, before, item);
    var all := items + [item];
    if r.Some? {
      var g := FieldOf(fields, item.tag).value;
      forall f | 0 <= f < |fields| ensures FieldMeans(schema, fields[f], all, r.value[f]) {
        assert FieldMeans(schema, fields[f], items, before[f]);
        if f == g {
          FieldLast(schema, fields[f], items, item, r.value[f]);
          assert r.value[f].values[..|r.value[f].values| - 1] == before[f].values;
        } else {
          OnlyFieldOf(fields, f);
          FieldSame(schema, fields[f], items, item, before[f]);
        }
      }
    }
  }

  lemma {:induction false} ReadMeans(schema: Schema, fields: seq<Field>, items: seq<Item>)
    requires DistinctTags(fields) && ReadItems(schema, fields, items).Some?
    ensures Means(schema, fields, items, ReadItems(schema, fields, items).value)
    decreases |items|
  {
    hide Step, Decode, FieldMeans;
    var n := |items| - 1;
    if n >= 0 {
      ReadMeans(schema, fields, items[..n]);
      StepMeans(schema, fields, items[..n], ReadItems(schema, fields, items[..n]).value, items[n]);
      assert items[..n] + [items[n]] == items;
    } else {
      FreshMeans(schema, fields);
      assert items == [];
    }
  }

  lemma {:induction false} FreshMeans(schema: Schema, fields: seq<Field>)
    ensures Means(schema, fields, [], Fresh(fields))
  {
    forall f | 0 <= f < |fields| ensures FieldMeans(schema, fields[f], [], Fresh(fields)[f]) {
    }
  }

  /** The slots before the last item, when the meaning after it is known. */
  function Undo(fields: seq<Field>, slots: seq<Slot>, item: Item): (s: seq<Slot>)
    requires |slots| == |fields|
    ensures |s| == |fields|
  {
    var g := FieldOf(fields, item.tag);
    if g.Some? && slots[g.value].values != [] then
      slots[g.value := Slot(slots[g.value].values[..|slots[g.value].values| - 1])]
    else slots
  }

  lemma {:induction false} UndoMeans(schema: Schema, fields: seq<Field>, items: seq<Item>, item: Item, slots: seq<Slot>)
    requires DistinctTags(fields) && Means(schema, fields, items + [item], slots)
    ensures Means(schema, fields, items, Undo(fields, slots, item))
    ensures Step(schema, fields, Undo(fields, slots, item), item) == Some(slots)
  {
    hide Decode, FieldMeans;
    var all, before := items + [item], Undo(fields, slots, item);
    assert all[..|items|] == items && all[|items|] == item;
    assert FieldOf(fields, all[|items|].tag).Some?;
    var g := FieldOf(fields, item.tag).value;
    forall i | 0 <= i < |items| ensures FieldOf(fields, items[i].tag).Some? {
      assert all[i] == items[i];
    }
    assert FieldMeans(schema, fields[g], all, slots[g]);
    FieldLast(schema, fields[g], items, item, slots[g]);
    forall f | 0 <= f < |fields| ensures FieldMeans(schema, fields[f], items, before[f]) {
      assert FieldMeans(schema, fields[f], all, slots[f]);
      if f != g {
        OnlyFieldOf(fields, f);
        FieldSame(schema, fields[f], items, item, slots[f]);
      }
    }
    UndoStep(schema, fields, item, slots, g);
  }

  lemma {:induction false} UndoStep(schema: Schema, fields: seq<Field>, item: Item, slots: seq<Slot>, g: nat)
    requires |slots| == |fields| && FieldOf(fields, item.tag) == Some(g)
    requires slots[g].values != [] && (!fields[g].repeated ==> |slots[g].values| == 1)
    requires Decode(schema, fields[g].kind, item.payload) == Some(slots[g].values[|slots[g].values| - 1])
    ensures Step(schema, fields, Undo(fields, slots, item), item) == Some(slots)
  {
    hide Decode;
    var all := slots[g].values;
    SnocEq(all[..|all| - 1], all[|all| - 1], all);
    assert Undo(fields, slots, item)[g := slots[g]] == slots;
  }

  lemma {:induction false} MeansRead(schema: Schema, fields: seq<Field>, items: seq<Item>, slots: seq<Slot>)
    requires DistinctTags(fields) && Means(schema, fields, items, slots)
    ensures ReadItems(schema, fields, items) == Some(slots)
    decreases |items|
  {
    var n := |items| - 1;
    if n >= 0 {
      assert items[..n] + [items[n]] == items;
      UndoMeans(schema, fields, items[..n], items[n], slots);
      MeansRead(schema, fields, items[..n], Undo(fields, slots, items[n]));
    } else {
      forall f | 0 <= f < |fields| ensures slots[f] == Fresh(fields)[f] {
        assert FieldMeans(schema, fields[f], items, slots[f]);
      }
      assert slots == Fresh(fields);
    }
  }

  lemma {:induction false} UnmarshalComplete(schema: Schema, fields: seq<Field>, items: seq<Item>, slots: seq<Slot>)
    requires DistinctTags(fields)
    ensures Unmarshal(schema, fields, items) == Some(slots)
       <==> Means(schema, fields, items, slots) && Complete(schema, fields, slots)
  {
    if Means(schema, fields, items, slots) {
      MeansRead(schema, fields, items, slots);
    }
    if Unmarshal(schema, fields, items) == Some(slots) {
      ReadMeans(schema, fields, items);
    }
  }

  /** A struct that is decoded is complete, for it went through unmarshalling. */
  lemma {:induction false} DecodedComplete(schema: Schema, k: Kind, items: seq<Item>)
    requires DecodeAll(schema, k, items).Some?
    ensures |DecodeAll(schema, k, items).value| == |items|
    ensures forall j :: 0 <= j < |items| ==> CompleteValue(schema, k, DecodeAll(schema, k, items).value[j])
    decreases |items|
  {
    var n := |items| - 1;
    if n >= 0 {
      DecodedComplete(schema, k, items[..n]);
    }
  }

  /** Every field that is not optional has an item. */
  ghost predicate Required(fields: seq<Field>, items: seq<Item>) {
    forall f :: 0 <= f < |fields| && !fields[f].optional ==> WithTag(items, fields[f].tag) != []
  }

  lemma {:induction false} CompleteIff(schema: Schema, fields: seq<Field>, items: seq<Item>, slots: seq<Slot>)
    requires Means(schema, fields, items, slots)
    ensures Complete(schema, fields, slots) <==> Required(fields, items)
  {
    hide CompleteValue, DecodeAll, WithTag;
    forall f | 0 <= f < |fields|
      ensures slots[f].values == [] <==> WithTag(items, fields[f].tag) == []
      ensures forall j :: 0 <= j < |slots[f].values| ==> CompleteValue(schema, fields[f].kind, slots[f].values[j])
    {
      assert FieldMeans(schema, fields[f], items, slots[f]);
      DecodedComplete(schema, fields[f].kind, WithTag(items, fields[f].tag));
    }
  }

  /** Unmarshalling succeeds with a message exactly when it is what the items say, tag by tag, and no required
      tag is missing; for nested structs the same holds through their own decoding. */
  lemma {:induction false} UnmarshalIff(schema: Schema, fields: seq<Field>, items: seq<Item>, slots: seq<Slot>)
    requires DistinctTags(fields)
    ensures Unmarshal(schema, fields, items) == Some(slots)
       <==> Means(schema, fields, items, slots) && Required(fields, items)
  {
    hide Unmarshal, Means, Complete, Required;
    UnmarshalComplete(schema, fields, items, slots);
    if Means(schema, fields, items, slots) {
      CompleteIff(schema, fields, items, slots);
    }
  }

  // ---- the round trip

  lemma {:induction false} EncodeAllTags(schema: Schema, field: Field, values: seq<Value>, tag: nat)
    requires forall j :: 0 <= j < |values| ==> Typed(schema, field.kind, values[j])
    ensures WithTag(EncodeAll(schema, field, values), tag)
         == if tag == field.tag then EncodeAll(schema, field, values) else []
    decreases |values|
  {
    hide Typed, Encode, WithTag;
    var n := |values| - 1;
    if n >= 0 {
      EncodeAllTags(schema, field, values[..n], tag);
      WithTagSnoc(EncodeAll(schema, field, values[..n]), Item(field.tag, Encode(schema, field.kind, values[n])), tag);
    } else {
      NoItems(tag);
    }
  }

  lemma {:induction false} NoItems(tag: nat)
    ensures WithTag([], tag) == []
  {
  }

  lemma {:induction false} EncodeAllKnown(schema: Schema, field: Field, values: seq<Value>, all: seq<Field>)
    requires forall j :: 0 <= j < |values| ==> Typed(schema, field.kind, values[j])
    requires field in all
    ensures KnownTags(all, EncodeAll(schema, field, values))
    decreases |values|
  {
    hide Typed, Encode;
    var n := |values| - 1;
    if n >= 0 {
      EncodeAllKnown(schema, field, values[..n], all);
      assert FieldOf(all, field.tag).Some?;
    }
  }

  lemma {:induction false} WithTagAppend(a: seq<Item>, b: seq<Item>, tag: nat)
    ensures WithTag(a + b, tag) == WithTag(a, tag) + WithTag(b, tag)
    decreases |b|
  {
    hide WithTag;
    var n := |b| - 1;
    if n < 0 {
      NoItems(tag);
      assert a + b == a && b == [];
    } else {
      WithTagAppend(a, b[..n], tag);
      WithTagSnoc(a + b[..n], b[n], tag);
      WithTagSnoc(b[..n], b[n], tag);
      assert a + b == (a + b[..n]) + [b[n]] && b == b[..n] + [b[n]];
    }
  }

  /** The items of one field are found under its tag. */
  lemma {:induction false} MarshalledTag(schema: Schema, fields: seq<Field>, slots: seq<Slot>, f: nat)
    requires DistinctTags(fields) && TypedSlots(schema, fields, slots) && f < |fields|
    ensures WithTag(Marshal(schema, fields, slots), fields[f].tag) == EncodeAll(schema, fields[f], slots[f].values)
    decreases |slots|
  {
    hide EncodeAll, Typed;
    var n := |slots| - 1;
    TypedFront(schema, fields, slots, n);
    var front, last := Marshal(schema, fields[..n], slots[..n]), EncodeAll(schema, fields[n], slots[n].values);
    assert Marshal(schema, fields, slots) == front + last;
    WithTagAppend(front, last, fields[f].tag);
    EncodeAllTags(schema, fields[n], slots[n].values, fields[f].tag);
    if f < n {
      MarshalledTag(schema, fields[..n], slots[..n], f);
    } else {
      NoSuchTag(schema, fields[..n], slots[..n], fields[f].tag);
    }
  }

  lemma {:induction false} TypedFront(schema: Schema, fields: seq<Field>, slots: seq<Slot>, n: nat)
    requires TypedSlots(schema, fields, slots) && n == |slots| - 1
    ensures TypedSlots(schema, fields[..n], slots[..n])
    ensures forall j :: 0 <= j < |slots[n].values| ==> Typed(schema, fields[n].kind, slots[n].values[j])
  {
    hide Typed;
  }

  lemma {:induction false} NoSuchTag(schema: Schema, fields: seq<Field>, slots: seq<Slot>, tag: nat)
    requires TypedSlots(schema, fields, slots) && forall i :: 0 <= i < |fields| ==> fields[i].tag != tag
    ensures WithTag(Marshal(schema, fields, slots), tag) == []
    decreases |slots|
  {
    var n := |slots| - 1;
    if n >= 0 {
      NoSuchTag(schema, fields[..n], slots[..n], tag);
      EncodeAllTags(schema, fields[n], slots[n].values, tag);
      WithTagAppend(Marshal(schema, fields[..n], slots[..n]), EncodeAll(schema, fields[n], slots[n].values), tag);
    }
  }

  lemma {:induction false} MarshalledKnown(schema: Schema, fields: seq<Field>, slots: seq<Slot>, all: seq<Field>)
    requires TypedSlots(schema, fields, slots) && fields <= all
    ensures KnownTags(all, Marshal(schema, fields, slots))
    decreases |slots|
  {
    hide Typed, EncodeAll;
    var n := |slots| - 1;
    if n >= 0 {
      TypedFront(schema, fields, slots, n);
      MarshalledKnown(schema, fields[..n], slots[..n], all);
      EncodeAllKnown(schema, fields[n], slots[n].values, all);
    }
  }

  lemma {:induction false} EncodedTag(schema: Schema, field: Field, values: seq<Value>, j: nat)
    requires forall j :: 0 <= j < |values| ==> Typed(schema, field.kind, values[j])
    requires j < |EncodeAll(schema, field, values)|
    ensures EncodeAll(schema, field, values)[j].tag == field.tag
    decreases |values|
  {
    hide Typed, Encode;
    var n := |values| - 1;
    if j < |EncodeAll(schema, field, values[..n])| {
      EncodedTag(schema, field, values[..n], j);
    }
  }

  /** The items of an earlier field stand before those of a later one. */
  lemma {:induction false} MarshalledInOrder(schema: Schema, fields: seq<Field>, slots: seq<Slot>, i: nat, j: nat)
    requires DistinctTags(fields) && TypedSlots(schema, fields, slots) && i <= j < |Marshal(schema, fields, slots)|
    ensures var items := Marshal(schema, fields, slots);
      var f, g := FieldOf(fields, items[i].tag), FieldOf(fields, items[j].tag);
      f.Some? && g.Some? && f.value <= g.value
    decreases |slots|
  {
    hide EncodeAll, Typed;
    var n := |slots| - 1;
    TypedFront(schema, fields, slots, n);
    MarshalledKnown(schema, fields, slots, fields);
    var front, last := Marshal(schema, fields[..n], slots[..n]), EncodeAll(schema, fields[n], slots[n].values);
    assert Marshal(schema, fields, slots) == front + last;
    if j < |front| {
      MarshalledInOrder(schema, fields[..n], slots[..n], i, j);
    } else {
      EncodedTag(schema, fields[n], slots[n].values, j - |front|);
    }
  }

  lemma {:induction false} ValuesRoundTrip(schema: Schema, field: Field, values: seq<Value>)
    requires forall j :: 0 <= j < |values| ==>
      Typed(schema, field.kind, values[j]) && CompleteValue(schema, field.kind, values[j])
    ensures DecodeAll(schema, field.kind, EncodeAll(schema, field, values)) == Some(values)
    decreases values
  {
    hide Typed, CompleteValue, Encode, Decode;
    var n := |values| - 1;
    if n >= 0 {
      ValuesRoundTrip(schema, field, values[..n]);
      ValueRoundTrip(schema, field.kind, values[n]);
      var all := EncodeAll(schema, field, values);
      assert all[..|all| - 1] == EncodeAll(schema, field, values[..n]);
      assert values == values[..n] + [values[n]];
    }
  }

  lemma {:induction false} ValueRoundTrip(schema: Schema, k: Kind, v: Value)
    requires Typed(schema, k, v) && CompleteValue(schema, k, v)
    ensures Decode(schema, k, Encode(schema, k, v)) == Some(v)
    decreases v
  {
    if v.VStruct? {
      RoundTrip(schema, schema[k.ref], v.slots);
    }
  }

  /** Unmarshalling the marshalled form of a complete message yields the same message. */
  lemma {:induction false} RoundTrip(schema: Schema, fields: seq<Field>, slots: seq<Slot>)
    requires DistinctTags(fields) && TypedSlots(schema, fields, slots) && Complete(schema, fields, slots)
    ensures Unmarshal(schema, fields, Marshal(schema, fields, slots)) == Some(slots)
    decreases slots
  {
    var items := Marshal(schema, fields, slots);
    MarshalledKnown(schema, fields, slots, fields);
    forall f | 0 <= f < |fields| ensures FieldMeans(schema, fields[f], items, slots[f]) {
      MarshalledTag(schema, fields, slots, f);
      ValuesRoundTrip(schema, fields[f], slots[f].values);
    }
    UnmarshalComplete(schema, fields, items, slots);
  }

  // ---- what is accepted

  /** Apart from structs, a payload is read exactly when it is the written form of a value of the field's type. */
  lemma {:induction false} ScalarIff(schema: Schema, k: Kind, p: Payload, v: Value)
    requires !k.KStruct?
    ensures Decode(schema, k, p) == Some(v) <==> Typed(schema, k, v) && Encode(schema, k, v) == p
  {
  }

  ghost predicate DistinctEverywhere(schema: Schema) {
    forall r :: r in schema ==> DistinctTags(schema[r])
  }

  /** Whatever the items, a message that is accepted has the fields' types, nested structs included. */
  lemma {:induction false} AcceptedTyped(schema: Schema, fields: seq<Field>, items: seq<Item>)
    requires DistinctEverywhere(schema) && DistinctTags(fields) && Unmarshal(schema, fields, items).Some?
    ensures TypedSlots(schema, fields, Unmarshal(schema, fields, items).value)
    decreases items, 1, 0
  {
    hide Decode, DecodeAll, WithTag, Typed;
    ReadMeans(schema, fields, items);
    var slots := Unmarshal(schema, fields, items).value;
    forall f | 0 <= f < |fields|
      ensures !fields[f].repeated ==> |slots[f].values| <= 1
      ensures forall j :: 0 <= j < |slots[f].values| ==> Typed(schema, fields[f].kind, slots[f].values[j])
    {
      assert FieldMeans(schema, fields[f], items, slots[f]);
      OfItems(items, fields[f].tag);
      AllTyped(schema, fields[f].kind, WithTag(items, fields[f].tag), items);
    }
  }

  lemma {:induction false} OfItems(items: seq<Item>, tag: nat)
    ensures forall i :: i in WithTag(items, tag) ==> i in items
  {
    var n := |items| - 1;
    if n >= 0 {
      OfItems(items[..n], tag);
    }
  }

  lemma {:induction false} AllTyped(schema: Schema, k: Kind, some: seq<Item>, items: seq<Item>)
    requires DistinctEverywhere(schema) && DecodeAll(schema, k, some).Some?
    requires forall i :: i in some ==> i in items
    ensures forall j :: 0 <= j < |DecodeAll(schema, k, some).value| ==>
      Typed(schema, k, DecodeAll(schema, k, some).value[j])
    decreases items, 0, |some|
  {
    hide Typed;
    var n := |some| - 1;
    if n >= 0 {
      AllTyped(schema, k, some[..n], items);
      assert some[n] in some;
      var i :| 0 <= i < |items| && items[i] == some[n];
      ItemTyped(schema, k, items[i]);
    }
  }

  lemma {:induction false} ItemTyped(schema: Schema, k: Kind, item: Item)
    requires DistinctEverywhere(schema) && Decode(schema, k, item.payload).Some?
    ensures Typed(schema, k, Decode(schema, k, item.payload).value)
    decreases item
  {
    DecodeTyped(schema, k, item.payload);
  }

  lemma {:induction false} DecodeTyped(schema: Schema, k: Kind, p: Payload)
    requires DistinctEverywhere(schema) && Decode(schema, k, p).Some?
    ensures Typed(schema, k, Decode(schema, k, p).value)
    decreases p
  {
    if k.KStruct? {
      AcceptedTyped(schema, schema[k.ref], p.items);
    }
  }

  // ---- the emitted loops and growing arrays

  /** The while loop of name_unmarshal. */
  method UnmarshalLoop(schema: Schema, fields: seq<Field>, items: seq<Item>) returns (r: Option<seq<Slot>>)
    ensures r == Unmarshal(schema, fields, items)
    ensures DistinctTags(fields) ==>
      forall s :: r == Some(s) <==> Means(schema, fields, items, s) && Required(fields, items)
  {
    if DistinctTags(fields) {
      UnmarshalMeans(schema, fields, items);
    }
    var slots := Fresh(fields);
    for n := 0 to |items|
      invariant |slots| == |fields| && ReadItems(schema, fields, items[..n]) == Some(slots)
    {
      assert items[..n + 1][..n] == items[..n];
      var next := Step(schema, fields, slots, items[n]);
      if next.None? {
        FailureStays(schema, fields, items, n + 1);
        return None;
      }
      slots := next.value;
    }
    assert items[..|items|] == items;
    return if Complete(schema, fields, slots) then Some(slots) else None;
  }

  lemma {:induction false} UnmarshalMeans(schema: Schema, fields: seq<Field>, items: seq<Item>)
    requires DistinctTags(fields)
    ensures forall s :: Unmarshal(schema, fields, items) == Some(s)
                   <==> Means(schema, fields, items, s) && Required(fields, items)
  {
    hide Unmarshal, Means, Required;
    forall s
      ensures Unmarshal(schema, fields, items) == Some(s)
         <==> Means(schema, fields, items, s) && Required(fields, items)
    {
      UnmarshalIff(schema, fields, items, s);
    }
  }

  lemma {:induction false} FailureStays(schema: Schema, fields: seq<Field>, items: seq<Item>, n: nat)
    requires n <= |items| && ReadItems(schema, fields, items[..n]).None?
    ensures ReadItems(schema, fields, items).None?
    decreases |items| - n
  {
    if n == |items| {
      assert items[..n] == items;
    } else {
      assert items[..n + 1][..n] == items[..n];
      FailureStays(schema, fields, items, n + 1);
    }
  }

  /** A field's data, length and number of allocated elements. */
  class GrowArray {
    var data: array?<Value>
    var length: nat
    var numAllocated: nat
    var isSet: bool

    ghost predicate Valid()
      reads this, data
    {
      && length <= numAllocated
      && (data == null <==> numAllocated == 0) && (data != null ==> data.Length == numAllocated)
      && (length > 0 ==> isSet)
    }

    ghost function Contents(): (s: seq<Value>)
      requires Valid()
      reads this, data
      ensures |s| == length
    {
      if data == null then [] else data[..length]
    }

    constructor ()
      ensures Valid() && Contents() == [] && !isSet && data == null
    {
      data, length, numAllocated, isSet := null, 0, 0, false;
    }

    /** name_expand_to_hold_more: one element, then doubling; memory says whether realloc succeeds. */
    method Expand(memory: bool, filler: Value) returns (ok: bool)
      requires (data == null <==> numAllocated == 0) && (data != null ==> data.Length == numAllocated)
      modifies this
      ensures ok == memory && length == old(length) && isSet == old(isSet)
      ensures !ok ==> data == old(data) && numAllocated == old(numAllocated)
      ensures ok ==> data != null && fresh(data) && data.Length == numAllocated
      ensures ok ==> numAllocated == if old(numAllocated) == 0 then 1 else 2 * old(numAllocated)
      ensures ok && old(data) != null ==> data[..old(numAllocated)] == old(data[..])
    {
      if !memory {
        return false;
      }
      var wanted := if numAllocated == 0 then 1 else 2 * numAllocated;
      var grown := new Value[wanted](_ => filler);
      if data != null {
        var prior := data;
        forall i | 0 <= i < prior.Length {
          grown[i] := prior[i];
        }
      }
      data, numAllocated := grown, wanted;
      return true;
    }

    /** name_add: the length is raised first and put back when there is no memory. */
    method Add(value: Value, memory: bool) returns (ok: bool)
      requires Valid()
      modifies this, data
      ensures Valid()
      ensures !ok ==> !memory && Contents() == old(Contents()) && isSet == old(isSet)
      ensures ok ==> isSet && Contents() == old(Contents()) + [value]
      ensures data == old(data) || fresh(data)
    {
      length := length + 1;
      if length >= numAllocated {
        var grown := Expand(memory, value);
        if !grown {
          length := length - 1;
          return false;
        }
      }
      data[length - 1] := value;
      isSet := true;
      return true;
    }

    /** The array case of name_unmarshal: here the test comes before the length is raised. */
    method Append(value: Value, memory: bool) returns (ok: bool)
      requires Valid()
      modifies this, data
      ensures Valid()
      ensures !ok ==> !memory && Contents() == old(Contents()) && isSet == old(isSet)
      ensures ok ==> isSet && Contents() == old(Contents()) + [value]
      ensures data == old(data) || fresh(data)
    {
      if length >= numAllocated {
        var grown := Expand(memory, value);
        if !grown {
          return false;
        }
      }
      data[length] := value;
      length := length + 1;
      isSet := true;
      return true;
    }
  }
}
