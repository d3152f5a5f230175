/** Which keys of a document a fork renames, key by key and at any depth. */
module RenamedKeys {
  import opened Results
  import opened Text
  import opened Provenance

  const ID_KEYS := ["assistant_message_id", "start_message_id", "end_message_id", "message_start_id", "message_end_id",
                    "last_summarized_message_id"]
  const LIST_KEYS := ["source_message_ids", "message_ids", "message_range"]
  const CHAT_KEYS := ["chat_id", "source_chat_id"]

  /** One step into a document: to an item of a list, or to the value of a member of an object. */
  datatype PathStep = Item(at: nat) | Member(at: nat)

  /** Where a path leads.  What stands under a key of message ids is no longer looked into. */
  function Reach(v: Json, path: seq<PathStep>): Option<Json>
    decreases |path|
  {
    if path == [] then Some(v)
    else
      match path[0]
      case Item(i) =>
        if v.List? && i < |v.items| then Reach(v.items[i], path[1..]) else None
      case Member(i) =>
        if v.Dict? && i < |v.fields| &&
           v.fields[i].key !in ID_KEYS + LIST_KEYS
        then Reach(v.fields[i].value, path[1..]) else None
  }

  /** The k-th member of the object that a path leads to. */
  function MemberAt(v: Json, path: seq<PathStep>, k: nat): Option<Field> {
    var holder := Reach(v, path);
    if holder.Some? && holder.value.Dict? && k < |holder.value.fields| then Some(holder.value.fields[k]) else None
  }

  predicate Scalar(v: Json) {
    !v.List? && !v.Dict?
  }

  lemma {:induction false} ItemRemapped(items: seq<Json>, ren: Renaming, i: nat)
    requires RemapItems(items, ren).Some? && i < |items|
    ensures |RemapItems(items, ren).value| == |items|
    ensures Remap(items[i], ren) == Some(RemapItems(items, ren).value[i])
  {
    if i > 0 {
      ItemRemapped(items[1..], ren, i - 1);
    } else if |items| > 1 {
      ItemRemapped(items[1..], ren, 0);
    }
  }

  lemma {:induction false} FieldRemapped(fields: seq<Field>, ren: Renaming, i: nat)
    requires RemapFields(fields, ren).Some? && i < |fields|
    ensures |RemapFields(fields, ren).value| == |fields|
    ensures RemapFields(fields, ren).value[i].key == fields[i].key
    ensures RemapField(fields[i], ren) == Some(RemapFields(fields, ren).value[i].value)
  {
    hide RemapField;
    if i > 0 {
      FieldRemapped(fields[1..], ren, i - 1);
    } else if |fields| > 1 {
      FieldRemapped(fields[1..], ren, 0);
    }
  }

  /** A path that leads somewhere leads to the same place after remapping, and what stands there is remapped. */
  lemma {:induction false} ReachRemapped(v: Json, ren: Renaming, path: seq<PathStep>)
    requires Remap(v, ren).Some? && Reach(v, path).Some? && (Reach(v, path).value.List? || Reach(v, path).value.Dict?)
    ensures Reach(Remap(v, ren).value, path).Some?
    ensures Remap(Reach(v, path).value, ren) == Reach(Remap(v, ren).value, path)
    decreases |path|
  {
    if path != [] {
      match path[0] {
        case Item(i) =>
          ItemRemapped(v.items, ren, i);
          ReachRemapped(v.items[i], ren, path[1..]);
        case Member(i) =>
          FieldRemapped(v.fields, ren, i);
          var next := Reach(v.fields[i].value, path[1..]);
          StillOpen(v.fields[i], path[1..], ren);
          ReachRemapped(v.fields[i].value, ren, path[1..]);
      }
    }
  }

  /** A member that a path goes through is remapped as a document of its own. */
  lemma StillOpen(field: Field, path: seq<PathStep>, ren: Renaming)
    requires field.key !in ID_KEYS + LIST_KEYS
    requires Reach(field.value, path).Some? && !Scalar(Reach(field.value, path).value)
    ensures RemapField(field, ren) == Remap(field.value, ren)
  {
  }

  /** What a fork makes of one member of an object, by its key. */
  lemma MemberRenamed(key: string, value: Json, ren: Renaming)
    ensures key in ["assistant_message_id", "start_message_id", "end_message_id", "message_start_id", "message_end_id",
                    "last_summarized_message_id"] ==>
              && (value.Null? ==> RemapField(Field(key, value), ren) == Some(Null))
              && (value.Number? ==> RemapField(Field(key, value), ren)
                                    == if value.n in ren.ids then Some(Number(ren.ids[value.n])) else None)
    ensures key in ["source_message_ids", "message_ids", "message_range"] ==>
              && (!value.List? ==> RemapField(Field(key, value), ren) == None)
              && (value.List? && (forall v :: v in value.items ==> v.Number?) ==>
                    var out := RemapField(Field(key, value), ren);
                    && (out.Some? <==> forall v :: v in value.items ==> v.n in ren.ids)
                    && (out.Some? ==>
                          && out.value.List? && |out.value.items| == |value.items|
                          && forall i :: 0 <= i < |value.items| ==>
                               value.items[i].n in ren.ids && out.value.items[i] == Number(ren.ids[value.items[i].n])))
    ensures key in ["chat_id", "source_chat_id"] && Scalar(value) ==>
              RemapField(Field(key, value), ren) == Some(if value == Str(ren.source) then Str(ren.target) else value)
    ensures key !in ["assistant_message_id", "start_message_id", "end_message_id", "message_start_id", "message_end_id",
                     "last_summarized_message_id", "source_message_ids", "message_ids", "message_range", "chat_id",
                     "source_chat_id"] ==>
              RemapField(Field(key, value), ren) == Remap(value, ren) && (Scalar(value) ==> Remap(value, ren) == Some(value))
  {
    if key in ["source_message_ids", "message_ids", "message_range"] && value.List? && forall v :: v in value.items ==> v.Number? {
      NumbersRenamed(value.items, ren);
    }
  }

  /** An id that is not a JSON number is read as Python's int reads it: 1 and 0 for the flags, a float without its
      fraction, the digits of a text; a list or an object is no id. */
  lemma OtherIds(v: Json, ids: map<int, int>) returns (n: int)
    requires !v.Null?
    ensures v.List? || v.Dict? ==> RemapId(v, ids) == None
    ensures v.Bool? ==> n == if v.flag then 1 else 0
    ensures v.Float? && v.r >= 0.0 ==> n as real <= v.r < (n + 1) as real
    ensures v.Float? && v.r < 0.0 ==> (n - 1) as real < v.r <= n as real
    ensures v.Str? ==> if ParseInt(v.s).Some? then n == ParseInt(v.s).value else RemapId(v, ids) == None
    ensures v.Number? ==> n == v.n
    ensures v.Bool? || v.Float? || v.Number? || (v.Str? && ParseInt(v.s).Some?) ==>
              RemapId(v, ids) == if n in ids then Some(Number(ids[n])) else None
  {
    hide ParseInt;
    n := if PythonInt(v).Some? then PythonInt(v).value else 0;
  }

  lemma NumbersRenamed(items: seq<Json>, ren: Renaming)
    requires forall v :: v in items ==> v.Number?
    ensures var out := RemapIds(items, ren.ids);
            && (out.Some? <==> forall v :: v in items ==> v.n in ren.ids)
            && (out.Some? ==>
                  && |out.value| == |items|
                  && forall i :: 0 <= i < |items| ==> items[i].n in ren.ids && out.value[i] == Number(ren.ids[items[i].n]))
  {
    RemapIdsExact(items, ren);
    forall i | 0 <= i < |items|
      ensures RemapId(items[i], ren.ids) == if items[i].n in ren.ids then Some(Number(ren.ids[items[i].n])) else None
    {
      assert items[i] in items;
    }
  }

  /** Whatever the document, and however deep the object: the member keeps its place and its key; ids under the six id
      keys and in lists under the three list keys are renamed, the source chat under the two chat keys becomes the new
      one, and every other text, number, flag and null stays. */
  lemma RenamedAnywhere(v: Json, ren: Renaming, path: seq<PathStep>, k: nat)
    requires Remap(v, ren).Some? && MemberAt(v, path, k).Some?
    ensures var before, after := MemberAt(v, path, k).value, MemberAt(Remap(v, ren).value, path, k);
            && after.Some? && after.value.key == before.key
            && (before.key in ID_KEYS && before.value.Number? ==>
                  before.value.n in ren.ids && after.value.value == Number(ren.ids[before.value.n]))
            && (before.key in LIST_KEYS ==>
                  && before.value.List? && after.value.value.List?
                  && |after.value.value.items| == |before.value.items|
                  && forall i :: 0 <= i < |before.value.items| && before.value.items[i].Number? ==>
                       && before.value.items[i].n in ren.ids
                       && after.value.value.items[i] == Number(ren.ids[before.value.items[i].n]))
            && (before.key in CHAT_KEYS && Scalar(before.value) ==>
                  after.value.value == if before.value == Str(ren.source) then Str(ren.target) else before.value)
            && (before.key !in ID_KEYS + LIST_KEYS + CHAT_KEYS && Scalar(before.value) ==>
                  after.value.value == before.value)
  {
    hide Remap, RemapField, RemapFields, RemapIds, RemapId, Reach;
    var fields := Reach(v, path).value.fields;
    ReachRemapped(v, ren, path);
    ObjectRemapped(fields, ren, k);
    MemberRenamed(fields[k].key, fields[k].value, ren);
    ListRenamed(fields[k].key, fields[k].value, ren);
  }

  lemma ObjectRemapped(fields: seq<Field>, ren: Renaming, k: nat)
    requires Remap(Dict(fields), ren).Some? && k < |fields|
    ensures var out := Remap(Dict(fields), ren).value;
            && out.Dict? && |out.fields| == |fields| && out.fields[k].key == fields[k].key
            && RemapField(fields[k], ren) == Some(out.fields[k].value)
  {
    hide RemapField;
    FieldRemapped(fields, ren, k);
  }

  /** In a list that is renamed every number is, whatever stands beside it. */
  lemma ListRenamed(key: string, value: Json, ren: Renaming)
    ensures key in LIST_KEYS && RemapField(Field(key, value), ren).Some? ==>
              var out := RemapField(Field(key, value), ren).value;
              && value.List? && out.List? && |out.items| == |value.items|
              && forall i :: 0 <= i < |value.items| && value.items[i].Number? ==>
                   value.items[i].n in ren.ids && out.items[i] == Number(ren.ids[value.items[i].n])
  {
    if value.List? {
      RemapIdsExact(value.items, ren);
    }
  }
}
