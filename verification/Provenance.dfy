/** The recursive remapping of chat-local provenance inside JSON documents. */
module Provenance {
  import opened Results
  import opened Text

  datatype Json =
    | Null
    | Bool(flag: bool)
    | Number(n: int)
    | Float(r: real)
    | Str(s: string)
    | List(items: seq<Json>)
    | Dict(fields: seq<Field>)

  datatype Field = Field(key: string, value: Json)

  predicate IsMessageIdKey(key: string) {
    key in {"assistant_message_id", "start_message_id", "end_message_id",
            "message_start_id", "message_end_id", "last_summarized_message_id"}
  }

  predicate IsMessageIdListKey(key: string) {
    key in {"source_message_ids", "message_ids", "message_range"}
  }

  predicate IsChatIdKey(key: string) {
    key in {"chat_id", "source_chat_id"}
  }

  /** What one fork renames: message ids through `ids`, and chat `source` to chat `target`. */
  datatype Renaming = Renaming(ids: map<int, int>, source: string, target: string)

  /** int(value) as Python applies it to a decoded JSON value; None where it raises. */
  function PythonInt(v: Json): Option<int> {
    match v
    case Bool(flag) => Some(if flag then 1 else 0)
    case Number(n) => Some(n)
    case Float(r) => Some(if r >= 0.0 then r.Floor else -((-r).Floor))
    case Str(s) => ParseInt(s)
    case _ => None
  }

  function RemapId(v: Json, ids: map<int, int>): Option<Json> {
    if v.Null? then Some(Null)
    else
      var n :- PythonInt(v);
      if n in ids then Some(Number(ids[n])) else None
  }

  function RemapIds(items: seq<Json>, ids: map<int, int>): Option<seq<Json>> {
    if items == [] then Some([])
    else
      var head :- RemapId(items[0], ids);
      var tail :- RemapIds(items[1..], ids);
      Some([head] + tail)
  }

  function Remap(v: Json, ren: Renaming): Option<Json>
    decreases v, 1
  {
    match v
    case List(items) =>
      var out :- RemapItems(items, ren);
      Some(List(out))
    case Dict(fields) =>
      var out :- RemapFields(fields, ren);
      Some(Dict(out))
    case _ => Some(v)
  }

  function RemapItems(items: seq<Json>, ren: Renaming): Option<seq<Json>>
    decreases items, 0
  {
    if items == [] then Some([])
    else
      var head :- Remap(items[0], ren);
      var tail :- RemapItems(items[1..], ren);
      Some([head] + tail)
  }

  function RemapFields(fields: seq<Field>, ren: Renaming): Option<seq<Field>>
    decreases fields, 1
  {
    if fields == [] then Some([])
    else
      var value :- RemapField(fields[0], ren);
      var tail :- RemapFields(fields[1..], ren);
      Some([Field(fields[0].key, value)] + tail)
  }

  function RemapField(field: Field, ren: Renaming): Option<Json>
    decreases field, 2
  {
    var Field(key, item) := field;
    if IsMessageIdListKey(key) then
      if item.List? then
        var out :- RemapIds(item.items, ren.ids);
        Some(List(out))
      else None
    else if IsMessageIdKey(key) then RemapId(item, ren.ids)
    else if IsChatIdKey(key) && item == Str(ren.source) then Some(Str(ren.target))
    else Remap(item, ren)
  }

  // ---------------------------------------------------------------- what a document says
  //
  // Two observations that do not mention remapping: the provenance marks of a document in
  // reading order, and the document with every mark blanked out.  Together they are the
  // whole document (Determined).

  datatype Mark = MessageRef(value: Json) | ChatRef(value: Json) | NotAList(value: Json)

  function Marks(v: Json): seq<Mark>
    decreases v, 1
  {
    match v
    case List(items) => ItemMarks(items)
    case Dict(fields) => FieldsMarks(fields)
    case _ => []
  }

  function ItemMarks(items: seq<Json>): seq<Mark>
    decreases items, 0
  {
    if items == [] then [] else Marks(items[0]) + ItemMarks(items[1..])
  }

  function FieldsMarks(fields: seq<Field>): seq<Mark>
    decreases fields, 1
  {
    if fields == [] then [] else FieldMarks(fields[0]) + FieldsMarks(fields[1..])
  }

  function FieldMarks(field: Field): seq<Mark>
    decreases field, 2
  {
    var Field(key, item) := field;
    if IsMessageIdListKey(key) then
      if item.List? then seq(|item.items|, i requires 0 <= i < |item.items| => MessageRef(item.items[i]))
      else [NotAList(item)]
    else if IsMessageIdKey(key) then [MessageRef(item)]
    else if IsChatIdKey(key) && !item.List? && !item.Dict? then [ChatRef(item)]
    else Marks(item)
  }

  function Skeleton(v: Json): Json
    decreases v, 1
  {
    match v
    case List(items) => List(ItemSkeletons(items))
    case Dict(fields) => Dict(FieldSkeletons(fields))
    case _ => v
  }

  function ItemSkeletons(items: seq<Json>): (r: seq<Json>)
    ensures |r| == |items|
    decreases items, 0
  {
    if items == [] then [] else [Skeleton(items[0])] + ItemSkeletons(items[1..])
  }

  function FieldSkeletons(fields: seq<Field>): (r: seq<Field>)
    ensures |r| == |fields|
    decreases fields, 1
  {
    if fields == [] then [] else [FieldSkeleton(fields[0])] + FieldSkeletons(fields[1..])
  }

  function FieldSkeleton(field: Field): Field
    decreases field, 2
  {
    var Field(key, item) := field;
    Field(key,
          if IsMessageIdListKey(key) then
            if item.List? then List(seq(|item.items|, i => Null)) else Null
          else if IsMessageIdKey(key) then Null
          else if IsChatIdKey(key) && !item.List? && !item.Dict? then Null
          else Skeleton(item))
  }

  function RemapMark(m: Mark, ren: Renaming): Option<Mark> {
    match m
    case MessageRef(v) =>
      var w :- RemapId(v, ren.ids);
      Some(MessageRef(w))
    case ChatRef(v) => Some(ChatRef(if v == Str(ren.source) then Str(ren.target) else v))
    case NotAList(_) => None
  }

  ghost predicate MarksFollow(before: seq<Mark>, after: seq<Mark>, ren: Renaming) {
    && |after| == |before|
    && forall i :: 0 <= i < |before| ==> RemapMark(before[i], ren) == Some(after[i])
  }

  ghost predicate AllRemap(marks: seq<Mark>, ren: Renaming) {
    forall i :: 0 <= i < |marks| ==> RemapMark(marks[i], ren).Some?
  }

  lemma AllRemapConcat(a: seq<Mark>, b: seq<Mark>, ren: Renaming)
    ensures AllRemap(a + b, ren) <==> AllRemap(a, ren) && AllRemap(b, ren)
  {
    if AllRemap(a + b, ren) {
      forall i | 0 <= i < |a| ensures RemapMark(a[i], ren).Some? {
        assert (a + b)[i] == a[i];
      }
      forall i | 0 <= i < |b| ensures RemapMark(b[i], ren).Some? {
        assert (a + b)[|a| + i] == b[i];
      }
    }
  }

  lemma {:induction false} RemapIdsExact(items: seq<Json>, ren: Renaming)
    ensures RemapIds(items, ren.ids).Some? <==> forall i :: 0 <= i < |items| ==> RemapId(items[i], ren.ids).Some?
    ensures var out := RemapIds(items, ren.ids);
            out.Some? ==>
              && |out.value| == |items|
              && forall i :: 0 <= i < |items| ==> RemapId(items[i], ren.ids) == Some(out.value[i])
  {
    if items != [] {
      RemapIdsExact(items[1..], ren);
      forall i | 0 < i < |items| ensures items[i] == items[1..][i - 1] {
      }
    }
  }

  /** What remapping does, said without it: it succeeds exactly when every provenance mark of the
      document can be renamed, it renames the marks in place, and it changes nothing else. */
  lemma {:induction false} RemapExact(v: Json, ren: Renaming)
    ensures var w := Remap(v, ren);
            && (w.Some? <==> AllRemap(Marks(v), ren))
            && (w.Some? ==> Skeleton(w.value) == Skeleton(v) && MarksFollow(Marks(v), Marks(w.value), ren))
    decreases v, 1
  {
    match v
    case List(items) => RemapItemsExact(items, ren);
    case Dict(fields) => RemapFieldsExact(fields, ren);
    case _ =>
  }

  lemma {:induction false} RemapItemsExact(items: seq<Json>, ren: Renaming)
    ensures var w := RemapItems(items, ren);
            && (w.Some? <==> AllRemap(ItemMarks(items), ren))
            && (w.Some? ==>
                  && ItemSkeletons(w.value) == ItemSkeletons(items)
                  && MarksFollow(ItemMarks(items), ItemMarks(w.value), ren))
    decreases items, 0
  {
    if items != [] {
      RemapExact(items[0], ren);
      RemapItemsExact(items[1..], ren);
      AllRemapConcat(Marks(items[0]), ItemMarks(items[1..]), ren);
      var w := RemapItems(items, ren);
      if w.Some? {
        assert w.value[1..] == RemapItems(items[1..], ren).value;
      }
    }
  }

  lemma {:induction false} RemapFieldsExact(fields: seq<Field>, ren: Renaming)
    ensures var w := RemapFields(fields, ren);
            && (w.Some? <==> AllRemap(FieldsMarks(fields), ren))
            && (w.Some? ==>
                  && FieldSkeletons(w.value) == FieldSkeletons(fields)
                  && MarksFollow(FieldsMarks(fields), FieldsMarks(w.value), ren))
    decreases fields, 1
  {
    if fields != [] {
      RemapFieldExact(fields[0], ren);
      RemapFieldsExact(fields[1..], ren);
      AllRemapConcat(FieldMarks(fields[0]), FieldsMarks(fields[1..]), ren);
      var w := RemapFields(fields, ren);
      if w.Some? {
        assert w.value[1..] == RemapFields(fields[1..], ren).value;
      }
    }
  }

  lemma {:induction false} RemapFieldExact(field: Field, ren: Renaming)
    ensures var w := RemapField(field, ren);
            && (w.Some? <==> AllRemap(FieldMarks(field), ren))
            && (w.Some? ==>
                  var out := Field(field.key, w.value);
                  && FieldSkeleton(out) == FieldSkeleton(field)
                  && MarksFollow(FieldMarks(field), FieldMarks(out), ren))
    decreases field, 2
  {
    var Field(key, item) := field;
    var marks, w := FieldMarks(field), RemapField(field, ren);
    if IsMessageIdListKey(key) {
      if item.List? {
        RemapIdsExact(item.items, ren);
        forall i | 0 <= i < |item.items|
          ensures RemapMark(marks[i], ren).Some? <==> RemapId(item.items[i], ren.ids).Some?
        {
        }
      } else {
        assert RemapMark(marks[0], ren).None?;
      }
    } else if IsMessageIdKey(key) {
      assert marks == [MessageRef(item)];
      assert RemapMark(marks[0], ren).Some? <==> w.Some?;
    } else if IsChatIdKey(key) && !item.List? && !item.Dict? {
      assert marks == [ChatRef(item)];
      assert Remap(item, ren) == Some(item);
      assert w == Some(if item == Str(ren.source) then Str(ren.target) else item);
      assert RemapMark(marks[0], ren) == Some(ChatRef(w.value));
    } else {
      RemapExact(item, ren);
    }
  }

  lemma {:induction false} SameShapeSameCount(a: Json, b: Json)
    requires Skeleton(a) == Skeleton(b)
    ensures |Marks(a)| == |Marks(b)|
    decreases a, 1
  {
    match a
    case List(items) => ItemsSameCount(items, b.items);
    case Dict(fields) => FieldsSameCount(fields, b.fields);
    case _ =>
  }

  lemma {:induction false} ItemsSameCount(a: seq<Json>, b: seq<Json>)
    requires ItemSkeletons(a) == ItemSkeletons(b)
    ensures |ItemMarks(a)| == |ItemMarks(b)|
    decreases a, 0
  {
    assert |ItemSkeletons(a)| == |ItemSkeletons(b)|;
    if a != [] {
      assert ItemSkeletons(a)[1..] == ItemSkeletons(b)[1..];
      SameShapeSameCount(a[0], b[0]);
      ItemsSameCount(a[1..], b[1..]);
    }
  }

  lemma {:induction false} FieldsSameCount(a: seq<Field>, b: seq<Field>)
    requires FieldSkeletons(a) == FieldSkeletons(b)
    ensures |FieldsMarks(a)| == |FieldsMarks(b)|
    decreases a, 1
  {
    assert |FieldSkeletons(a)| == |FieldSkeletons(b)|;
    if a != [] {
      assert FieldSkeletons(a)[1..] == FieldSkeletons(b)[1..];
      FieldSameCount(a[0], b[0]);
      FieldsSameCount(a[1..], b[1..]);
    }
  }

  lemma {:induction false} FieldSameCount(a: Field, b: Field)
    requires FieldSkeleton(a) == FieldSkeleton(b)
    ensures |FieldMarks(a)| == |FieldMarks(b)|
    decreases a, 2
  {
    if IsMessageIdListKey(a.key) {
      if a.value.List? {
        assert |FieldSkeleton(a).value.items| == |a.value.items|;
        assert |FieldSkeleton(b).value.items| == |b.value.items|;
      }
    } else if IsMessageIdKey(a.key) || (IsChatIdKey(a.key) && !a.value.List? && !a.value.Dict?) {
    } else {
      SameShapeSameCount(a.value, b.value);
    }
  }

  /** A document is its shape plus its marks, so the two observations miss nothing. */
  lemma {:induction false} Determined(a: Json, b: Json)
    requires Skeleton(a) == Skeleton(b) && Marks(a) == Marks(b)
    ensures a == b
    decreases a, 1
  {
    match a
    case List(items) => ItemsDetermined(items, b.items);
    case Dict(fields) => FieldsDetermined(fields, b.fields);
    case _ =>
  }

  lemma {:induction false} ItemsDetermined(a: seq<Json>, b: seq<Json>)
    requires ItemSkeletons(a) == ItemSkeletons(b) && ItemMarks(a) == ItemMarks(b)
    ensures a == b
    decreases a, 0
  {
    assert |ItemSkeletons(a)| == |ItemSkeletons(b)|;
    if a != [] {
      assert ItemSkeletons(a)[1..] == ItemSkeletons(b)[1..];
      SameShapeSameCount(a[0], b[0]);
      SplitEqual(Marks(a[0]), ItemMarks(a[1..]), Marks(b[0]), ItemMarks(b[1..]));
      Determined(a[0], b[0]);
      ItemsDetermined(a[1..], b[1..]);
      assert a == [a[0]] + a[1..] && b == [b[0]] + b[1..];
    }
  }

  lemma {:induction false} FieldsDetermined(a: seq<Field>, b: seq<Field>)
    requires FieldSkeletons(a) == FieldSkeletons(b) && FieldsMarks(a) == FieldsMarks(b)
    ensures a == b
    decreases a, 1
  {
    assert |FieldSkeletons(a)| == |FieldSkeletons(b)|;
    if a != [] {
      assert FieldSkeletons(a)[1..] == FieldSkeletons(b)[1..];
      FieldSameCount(a[0], b[0]);
      SplitEqual(FieldMarks(a[0]), FieldsMarks(a[1..]), FieldMarks(b[0]), FieldsMarks(b[1..]));
      FieldDetermined(a[0], b[0]);
      FieldsDetermined(a[1..], b[1..]);
      assert a == [a[0]] + a[1..] && b == [b[0]] + b[1..];
    }
  }

  lemma {:induction false} FieldDetermined(a: Field, b: Field)
    requires FieldSkeleton(a) == FieldSkeleton(b) && FieldMarks(a) == FieldMarks(b)
    ensures a == b
    decreases a, 2
  {
    var m, n := FieldMarks(a), FieldMarks(b);
    if IsMessageIdListKey(a.key) {
      if a.value.List? {
        forall i | 0 <= i < |a.value.items| ensures a.value.items[i] == b.value.items[i] {
          assert m[i] == n[i];
        }
      } else {
        assert m[0] == n[0];
      }
    } else if IsMessageIdKey(a.key) || (IsChatIdKey(a.key) && !a.value.List? && !a.value.Dict?) {
      assert m[0] == n[0];
    } else {
      Determined(a.value, b.value);
    }
  }

  lemma SplitEqual(a: seq<Mark>, a': seq<Mark>, b: seq<Mark>, b': seq<Mark>)
    requires a + a' == b + b' && |a| == |b|
    ensures a == b && a' == b'
  {
    assert a == (a + a')[..|a|] && b == (b + b')[..|b|];
    assert a' == (a + a')[|a|..] && b' == (b + b')[|b|..];
  }

  // ---------------------------------------------------------------- forks of forks, and back

  /** g after f, on the ids where both are defined. */
  function Compose(f: map<int, int>, g: map<int, int>): map<int, int> {
    map k | k in f && f[k] in g :: g[f[k]]
  }

  ghost predicate MentionsChat(v: Json, chat: string) {
    ChatRef(Str(chat)) in Marks(v)
  }

  /** Remapping twice is remapping once through the composed id map, failures included, when the
      middle chat id is new to the document. */
  lemma RemapComposes(v: Json, f: map<int, int>, g: map<int, int>, a: string, b: string, c: string)
    requires !MentionsChat(v, b)
    ensures var once := Remap(v, Renaming(f, a, b));
            (if once.None? then None else Remap(once.value, Renaming(g, b, c)))
            == Remap(v, Renaming(Compose(f, g), a, c))
  {
    var first, second, whole := Renaming(f, a, b), Renaming(g, b, c), Renaming(Compose(f, g), a, c);
    var once, direct := Remap(v, first), Remap(v, whole);
    RemapExact(v, first);
    RemapExact(v, whole);
    if once.None? {
      var i :| 0 <= i < |Marks(v)| && RemapMark(Marks(v)[i], first).None?;
      assert RemapMark(Marks(v)[i], whole).None?;
    } else {
      var w := once.value;
      RemapExact(w, second);
      forall i | 0 <= i < |Marks(v)|
        ensures RemapMark(Marks(w)[i], second) == RemapMark(Marks(v)[i], whole)
      {
        assert Marks(v)[i] in Marks(v);
        assert RemapMark(Marks(v)[i], first) == Some(Marks(w)[i]);
      }
      assert AllRemap(Marks(w), second) <==> AllRemap(Marks(v), whole);
      var twice := Remap(w, second);
      if twice.Some? {
        forall i | 0 <= i < |Marks(v)| ensures Marks(twice.value)[i] == Marks(direct.value)[i] {
          assert RemapMark(Marks(w)[i], second) == Some(Marks(twice.value)[i]);
        }
        assert Marks(twice.value) == Marks(direct.value);
        Determined(twice.value, direct.value);
      }
    }
  }

  ghost predicate Injective(f: map<int, int>) {
    forall i, j :: i in f && j in f && f[i] == f[j] ==> i == j
  }

  ghost function Image(f: map<int, int>): (r: set<int>)
    ensures forall i :: i in f ==> f[i] in r
  {
    set i | i in f :: f[i]
  }

  ghost function Inverse(f: map<int, int>): (g: map<int, int>)
    requires Injective(f)
    ensures forall i :: i in f ==> f[i] in g && g[f[i]] == i
    ensures forall n :: n in g ==> g[n] in f && f[g[n]] == n
  {
    map n | n in Image(f) :: var i :| i in f && f[i] == n; i
  }

  /** Every id in a recognised position is a JSON integer or null, as the application writes them. */
  ghost predicate WellTyped(v: Json) {
    forall i :: 0 <= i < |Marks(v)| && Marks(v)[i].MessageRef? ==> Marks(v)[i].value.Number? || Marks(v)[i].value.Null?
  }

  /** Remapping can be undone by the inverse map with the chat ids swapped, and it gives back the
      original document exactly when that document is well typed and did not name the new chat. */
  lemma RemapInverts(v: Json, f: map<int, int>, a: string, b: string)
    requires Injective(f) && a != b && Remap(v, Renaming(f, a, b)).Some?
    ensures var back := Remap(Remap(v, Renaming(f, a, b)).value, Renaming(Inverse(f), b, a));
            back.Some? && (back.value == v <==> WellTyped(v) && !MentionsChat(v, b))
  {
    var there, home := Renaming(f, a, b), Renaming(Inverse(f), b, a);
    var w := Remap(v, there).value;
    RemapExact(v, there);
    RemapExact(w, home);
    var m, n := Marks(v), Marks(w);
    forall i | 0 <= i < |m| ensures MarkReturns(m[i], n[i], f, a, b) {
      assert RemapMark(m[i], there) == Some(n[i]);
    }
    var back := Remap(w, home).value;
    var k := Marks(back);
    forall i | 0 <= i < |m|
      ensures k[i] == m[i] <==>
              (m[i].MessageRef? ==> m[i].value.Number? || m[i].value.Null?) && m[i] != ChatRef(Str(b))
    {
      assert MarkReturns(m[i], n[i], f, a, b);
      assert RemapMark(n[i], home) == Some(k[i]);
    }
    if WellTyped(v) && !MentionsChat(v, b) {
      assert k == m;
      Determined(back, v);
    }
  }

  ghost predicate MarkReturns(before: Mark, after: Mark, f: map<int, int>, a: string, b: string)
    requires Injective(f)
  {
    var home := RemapMark(after, Renaming(Inverse(f), b, a));
    && home.Some?
    && (home.value == before <==>
        (before.MessageRef? ==> before.value.Number? || before.value.Null?) && before != ChatRef(Str(b)))
  }
}
