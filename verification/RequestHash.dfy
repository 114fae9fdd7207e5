/**
  What a request is hashed from. Two requests are the same for idempotency when their values are the
  same whatever the order of their keys; `canonicalize` makes that so by sorting keys, at every
  depth, before the text is made. Hashing itself is taken to be injective, and a text is represented
  by its tree.
 */
module RequestHash {
  import opened Foundations
  import opened Sorting
  import J = BookingResponse

  /** A JavaScript value as it arrives; the keys of one object are distinct. */
  datatype Value =
    | Undefined
    | Null
    | Bool(flag: bool)
    | Number(number: real)
    | Text(text: string)
    | Date(ms: int)
    | Array(items: seq<Value>)
    | Object(entries: seq<Entry>)

  datatype Entry = Entry(key: string, value: Value)

  /** JSON text, parsed but with its keys still in order. */
  datatype Tree =
    | TreeNull
    | TreeBool(flag: bool)
    | TreeNumber(number: real)
    | TreeText(text: string)
    | TreeArray(items: seq<Tree>)
    | TreeObject(fields: seq<Field>)

  datatype Field = Field(key: string, value: Tree)

  predicate DistinctKeys(entries: seq<Entry>)
  {
    forall i, j :: 0 <= i < j < |entries| ==> entries[i].key != entries[j].key
  }

  predicate WellFormed(v: Value)
  {
    match v
    case Array(items) => forall i :: 0 <= i < |items| ==> WellFormed(items[i])
    case Object(entries) => DistinctKeys(entries) && forall i :: 0 <= i < |entries| ==> WellFormed(entries[i].value)
    case _ => true
  }

  // ----- the order of keys

  predicate KeyLeq(a: string, b: string)
  {
    if a == "" then true
    else if b == "" then false
    else if a[0] != b[0] then a[0] < b[0]
    else KeyLeq(a[1..], b[1..])
  }

  lemma {:induction false} KeyLeqTotal(a: string, b: string)
    ensures KeyLeq(a, b) || KeyLeq(b, a)
    ensures KeyLeq(a, b) && KeyLeq(b, a) ==> a == b
  {
    if a != "" && b != "" && a[0] == b[0] {
      KeyLeqTotal(a[1..], b[1..]);
      assert a == [a[0]] + a[1..] && b == [b[0]] + b[1..];
    }
  }

  lemma {:induction false} KeyLeqTransitive(a: string, b: string, c: string)
    requires KeyLeq(a, b) && KeyLeq(b, c)
    ensures KeyLeq(a, c)
  {
    if a != "" && b != "" && c != "" && a[0] == b[0] == c[0] {
      KeyLeqTransitive(a[1..], b[1..], c[1..]);
    }
  }

  function ByKey(): (Entry, Entry) -> bool { (a: Entry, b: Entry) => KeyLeq(a.key, b.key) }

  lemma ByKeyIsTotalPreorder()
    ensures TotalPreorder(ByKey())
  {
    forall a: Entry, b: Entry ensures ByKey()(a, b) || ByKey()(b, a) { KeyLeqTotal(a.key, b.key); }
    forall a: Entry, b: Entry, c: Entry | ByKey()(a, b) && ByKey()(b, c) ensures ByKey()(a, c) {
      KeyLeqTransitive(a.key, b.key, c.key);
    }
  }

  // ----- canonical form, text and meaning

  /** `canonicalize`; `iso` writes a date. Undefined entries go, the others are sorted by key. */
  function Canonical(v: Value, iso: int -> string): Value
    decreases v, 1, 0
  {
    match v
    case Date(ms) => Text(iso(ms))
    case Array(items) => Array(seq(|items|, i requires 0 <= i < |items| => Canonical(items[i], iso)))
    case Object(entries) => Object(StableSort(CanonicalEntries(v, |entries|, iso), ByKey()))
    case _ => v
  }

  /** The first `n` entries of an object, without the undefined ones, their values canonical. */
  function CanonicalEntries(v: Value, n: nat, iso: int -> string): seq<Entry>
    requires v.Object? && n <= |v.entries|
    decreases v, 0, n
  {
    if n == 0 then []
    else
      var last := v.entries[n - 1];
      CanonicalEntries(v, n - 1, iso)
      + if last.value.Undefined? then [] else [Entry(last.key, Canonical(last.value, iso))]
  }

  /** `JSON.stringify`: undefined entries are dropped, undefined elements written as null. */
  function Stringify(v: Value, iso: int -> string): Tree
    decreases v, 1, 0
  {
    match v
    case Undefined => TreeNull
    case Null => TreeNull
    case Bool(flag) => TreeBool(flag)
    case Number(number) => TreeNumber(number)
    case Text(text) => TreeText(text)
    case Date(ms) => TreeText(iso(ms))
    case Array(items) => TreeArray(seq(|items|, i requires 0 <= i < |items| => Stringify(items[i], iso)))
    case Object(entries) => TreeObject(StringifyEntries(v, |entries|, iso))
  }

  function StringifyEntries(v: Value, n: nat, iso: int -> string): seq<Field>
    requires v.Object? && n <= |v.entries|
    decreases v, 0, n
  {
    if n == 0 then []
    else
      var last := v.entries[n - 1];
      StringifyEntries(v, n - 1, iso)
      + if last.value.Undefined? then [] else [Field(last.key, Stringify(last.value, iso))]
  }

  /** What a value means: an object is a map from its defined keys. */
  function Meaning(v: Value, iso: int -> string): J.Json
    decreases v, 1, 0
  {
    match v
    case Undefined => J.Null
    case Null => J.Null
    case Bool(flag) => J.Bool(flag)
    case Number(number) => J.Number(number)
    case Text(text) => J.Text(text)
    case Date(ms) => J.Text(iso(ms))
    case Array(items) => J.Array(seq(|items|, i requires 0 <= i < |items| => Meaning(items[i], iso)))
    case Object(entries) => J.Object(MeaningOfEntries(v, |entries|, iso))
  }

  function MeaningOfEntries(v: Value, n: nat, iso: int -> string): map<string, J.Json>
    requires v.Object? && n <= |v.entries|
    decreases v, 0, n
  {
    if n == 0 then map[]
    else
      var last := v.entries[n - 1];
      var front := MeaningOfEntries(v, n - 1, iso);
      if last.value.Undefined? then front else front[last.key := Meaning(last.value, iso)]
  }

  /** What the hash is taken of. */
  function HashInput(v: Value, iso: int -> string): Tree { Stringify(Canonical(v, iso), iso) }

  // ----- one object, entry by entry

  /** A key's meaning is that of its entry, because keys are distinct. */
  lemma {:induction false} EntryMeaning(v: Value, n: nat, iso: int -> string, key: string)
    requires v.Object? && n <= |v.entries| && DistinctKeys(v.entries)
    ensures key in MeaningOfEntries(v, n, iso) <==> exists i :: 0 <= i < n && v.entries[i].key == key && !v.entries[i].value.Undefined?
    ensures forall i :: 0 <= i < n && v.entries[i].key == key && !v.entries[i].value.Undefined? ==>
      key in MeaningOfEntries(v, n, iso) && MeaningOfEntries(v, n, iso)[key] == Meaning(v.entries[i].value, iso)
  {
    if n > 0 { EntryMeaning(v, n - 1, iso, key); }
  }

  /** The canonical entries are those of the defined entries, and no others. */
  lemma {:induction false} EntryCanonical(v: Value, n: nat, iso: int -> string, e: Entry)
    requires v.Object? && n <= |v.entries|
    ensures e in CanonicalEntries(v, n, iso) <==>
      exists i :: 0 <= i < n && !v.entries[i].value.Undefined? && e == Entry(v.entries[i].key, Canonical(v.entries[i].value, iso))
  {
    if n > 0 { EntryCanonical(v, n - 1, iso, e); }
  }

  lemma {:induction false} CanonicalKeysDistinct(v: Value, n: nat, iso: int -> string)
    requires v.Object? && n <= |v.entries| && DistinctKeys(v.entries)
    ensures DistinctKeys(CanonicalEntries(v, n, iso))
  {
    if n > 0 {
      CanonicalKeysDistinct(v, n - 1, iso);
      forall e | e in CanonicalEntries(v, n - 1, iso) ensures e.key != v.entries[n - 1].key { EntryCanonical(v, n - 1, iso, e); }
    }
  }

  function KeyOf(): Entry -> string { (e: Entry) => e.key }

  lemma SortedKeysDistinct(v: Value, iso: int -> string)
    requires v.Object? && DistinctKeys(v.entries)
    ensures DistinctKeys(StableSort(CanonicalEntries(v, |v.entries|, iso), ByKey()))
  {
    CanonicalKeysDistinct(v, |v.entries|, iso);
    SortKeepsDistinct(CanonicalEntries(v, |v.entries|, iso), ByKey(), KeyOf());
  }

  predicate ComesFrom(v: Value, iso: int -> string, e: Entry, i: int)
    requires v.Object?
  {
    && 0 <= i < |v.entries| && !v.entries[i].value.Undefined?
    && e == Entry(v.entries[i].key, Canonical(v.entries[i].value, iso))
  }

  /** Every entry of the canonical object comes from one of the object's own, and every defined one is there. */
  lemma SortedEntries(v: Value, iso: int -> string, e: Entry)
    requires v.Object?
    ensures e in StableSort(CanonicalEntries(v, |v.entries|, iso), ByKey()) <==>
      exists i :: ComesFrom(v, iso, e, i)
  {
    SameElements(CanonicalEntries(v, |v.entries|, iso), ByKey(), e);
    EntryCanonical(v, |v.entries|, iso, e);
    if e in CanonicalEntries(v, |v.entries|, iso) {
      var i :| 0 <= i < |v.entries| && !v.entries[i].value.Undefined? && e == Entry(v.entries[i].key, Canonical(v.entries[i].value, iso));
      assert ComesFrom(v, iso, e, i);
    }
  }

  // ----- the canonical form means the same

  lemma {:induction false} CanonicalKeepsMeaning(v: Value, iso: int -> string)
    requires WellFormed(v)
    ensures Meaning(Canonical(v, iso), iso) == Meaning(v, iso)
    decreases v
  {
    match v
    case Array(items) =>
      forall i | 0 <= i < |items| ensures Meaning(Canonical(items[i], iso), iso) == Meaning(items[i], iso) {
        CanonicalKeepsMeaning(items[i], iso);
      }
    case Object(entries) =>
      forall i | 0 <= i < |entries| ensures Meaning(Canonical(entries[i].value, iso), iso) == Meaning(entries[i].value, iso) {
        CanonicalKeepsMeaning(entries[i].value, iso);
      }
      SortedKeysDistinct(v, iso);
      var c := Canonical(v, iso);
      var before := MeaningOfEntries(v, |entries|, iso);
      var after := MeaningOfEntries(c, |c.entries|, iso);
      forall key ensures (key in before <==> key in after) && (key in before ==> before[key] == after[key]) {
        KeyKeepsMeaning(v, iso, key);
      }
      assert before == after;
    case _ =>
  }

  function KeysOf(entries: seq<Entry>): seq<string> { seq(|entries|, i requires 0 <= i < |entries| => entries[i].key) }

  lemma CanonicalIsDefined(v: Value, iso: int -> string)
    requires !v.Undefined?
    ensures !Canonical(v, iso).Undefined?
  {}

  lemma CanonicalKeysAre(v: Value, iso: int -> string, key: string)
    requires v.Object? && DistinctKeys(v.entries)
    ensures key in KeysOf(Canonical(v, iso).entries) <==> key in MeaningOfEntries(v, |v.entries|, iso)
  {
    var c := Canonical(v, iso).entries;
    EntryMeaning(v, |v.entries|, iso, key);
    if key in KeysOf(c) {
      var j :| 0 <= j < |c| && KeysOf(c)[j] == key;
      SortedEntries(v, iso, c[j]);
    }
    if key in MeaningOfEntries(v, |v.entries|, iso) {
      var i :| 0 <= i < |v.entries| && v.entries[i].key == key && !v.entries[i].value.Undefined?;
      var e := Entry(key, Canonical(v.entries[i].value, iso));
      assert ComesFrom(v, iso, e, i);
      SortedEntries(v, iso, e);
      var j :| 0 <= j < |c| && c[j] == e;
      assert KeysOf(c)[j] == key;
    }
  }

  lemma CanonicalEntriesDefined(v: Value, iso: int -> string)
    requires v.Object?
    ensures forall j :: 0 <= j < |Canonical(v, iso).entries| ==> !Canonical(v, iso).entries[j].value.Undefined?
  {
    var c := Canonical(v, iso).entries;
    forall j | 0 <= j < |c| ensures !c[j].value.Undefined? {
      SortedEntries(v, iso, c[j]);
      var i :| ComesFrom(v, iso, c[j], i);
      CanonicalIsDefined(v.entries[i].value, iso);
    }
  }

  lemma KeyKeepsMeaning(v: Value, iso: int -> string, key: string)
    requires v.Object? && DistinctKeys(v.entries) && DistinctKeys(Canonical(v, iso).entries)
    requires forall i :: 0 <= i < |v.entries| ==> Meaning(Canonical(v.entries[i].value, iso), iso) == Meaning(v.entries[i].value, iso)
    ensures var before := MeaningOfEntries(v, |v.entries|, iso);
      var after := MeaningOfEntries(Canonical(v, iso), |Canonical(v, iso).entries|, iso);
      (key in before <==> key in after) && (key in before ==> before[key] == after[key])
  {
    var c := Canonical(v, iso);
    EntryMeaning(v, |v.entries|, iso, key);
    EntryMeaning(c, |c.entries|, iso, key);
    CanonicalKeysAre(v, iso, key);
    CanonicalEntriesDefined(v, iso);
    if key in KeysOf(c.entries) {
      var j :| 0 <= j < |c.entries| && KeysOf(c.entries)[j] == key;
      SortedEntries(v, iso, c.entries[j]);
      var i :| ComesFrom(v, iso, c.entries[j], i);
      assert v.entries[i].key == key;
    } else {
      assert forall j :: 0 <= j < |c.entries| ==> KeysOf(c.entries)[j] == c.entries[j].key;
    }
  }

  // ----- the same meaning gives the same text

  ghost predicate Increasing(keys: seq<string>)
  {
    forall i, j :: 0 <= i < j < |keys| ==> KeyLeq(keys[i], keys[j]) && keys[i] != keys[j]
  }

  /** A set of keys has one increasing order. */
  lemma {:induction false} OneIncreasingOrder(s: seq<string>, t: seq<string>)
    requires Increasing(s) && Increasing(t) && forall key :: key in s <==> key in t
    ensures s == t
  {
    if s == [] {
      assert forall i :: 0 <= i < |t| ==> t[i] in s;
    } else {
      assert s[0] in t;
      assert t[0] in s;
      KeyLeqTotal(s[0], t[0]);
      assert s[0] == t[0];
      forall key ensures key in s[1..] <==> key in t[1..] {
        assert key in s[1..] <==> key in s && key != s[0] by { HeadAside(s, key); }
        assert key in t[1..] <==> key in t && key != t[0] by { HeadAside(t, key); }
      }
      OneIncreasingOrder(s[1..], t[1..]);
    }
  }

  lemma HeadAside(s: seq<string>, key: string)
    requires Increasing(s) && s != []
    ensures key in s[1..] <==> key in s && key != s[0]
  {
    assert s == [s[0]] + s[1..];
  }

  lemma CanonicalKeysIncrease(v: Value, iso: int -> string)
    requires v.Object? && DistinctKeys(v.entries)
    ensures Increasing(KeysOf(Canonical(v, iso).entries))
  {
    ByKeyIsTotalPreorder();
    SortSorts(CanonicalEntries(v, |v.entries|, iso), ByKey());
    SortedKeysDistinct(v, iso);
  }

  /** The text of an object without undefined entries is made entry by entry. */
  lemma {:induction false} StringifyEach(v: Value, n: nat, iso: int -> string)
    requires v.Object? && n <= |v.entries| && forall i :: 0 <= i < n ==> !v.entries[i].value.Undefined?
    ensures |StringifyEntries(v, n, iso)| == n
    ensures forall i :: 0 <= i < n ==> StringifyEntries(v, n, iso)[i] == Field(v.entries[i].key, Stringify(v.entries[i].value, iso))
  {
    if n > 0 { StringifyEach(v, n - 1, iso); }
  }

  predicate SameKeyDefined(a: Value, b: Value, p: int, q: int)
    requires a.Object? && b.Object?
  {
    && 0 <= p < |a.entries| && 0 <= q < |b.entries| && a.entries[p].key == b.entries[q].key
    && !a.entries[p].value.Undefined? && !b.entries[q].value.Undefined?
  }

  lemma {:induction false} SameMeaningSameInput(a: Value, b: Value, iso: int -> string)
    requires WellFormed(a) && WellFormed(b) && Meaning(a, iso) == Meaning(b, iso)
    ensures HashInput(a, iso) == HashInput(b, iso)
    decreases a
  {
    match a
    case Array(items) =>
      assert b.Array? && |b.items| == |items|;
      forall i | 0 <= i < |items| ensures HashInput(items[i], iso) == HashInput(b.items[i], iso) {
        assert Meaning(items[i], iso) == Meaning(a, iso).items[i] == Meaning(b, iso).items[i] == Meaning(b.items[i], iso);
        SameMeaningSameInput(items[i], b.items[i], iso);
      }
    case Object(entries) =>
      assert b.Object?;
      forall p, q | SameKeyDefined(a, b, p, q)
        ensures HashInput(entries[p].value, iso) == HashInput(b.entries[q].value, iso)
      {
        EntryMeaning(a, |entries|, iso, entries[p].key);
        EntryMeaning(b, |b.entries|, iso, entries[p].key);
        SameMeaningSameInput(entries[p].value, b.entries[q].value, iso);
      }
      SameObjectInput(a, b, iso);
    case _ =>
  }

  lemma SameCanonicalKeys(a: Value, b: Value, iso: int -> string)
    requires a.Object? && b.Object? && DistinctKeys(a.entries) && DistinctKeys(b.entries)
    requires Meaning(a, iso) == Meaning(b, iso)
    ensures KeysOf(Canonical(a, iso).entries) == KeysOf(Canonical(b, iso).entries)
  {
    CanonicalKeysIncrease(a, iso);
    CanonicalKeysIncrease(b, iso);
    var ka, kb := KeysOf(Canonical(a, iso).entries), KeysOf(Canonical(b, iso).entries);
    forall key ensures key in ka <==> key in kb {
      CanonicalKeysAre(a, iso, key);
      CanonicalKeysAre(b, iso, key);
    }
    OneIncreasingOrder(ka, kb);
  }

  /** Entries of two canonical objects under one key have the same text, if the entries they come from do. */
  lemma SameEntryInput(a: Value, b: Value, iso: int -> string, x: Entry, y: Entry)
    requires a.Object? && b.Object? && x in Canonical(a, iso).entries && y in Canonical(b, iso).entries && x.key == y.key
    requires forall p, q :: SameKeyDefined(a, b, p, q) ==>
      HashInput(a.entries[p].value, iso) == HashInput(b.entries[q].value, iso)
    ensures Stringify(x.value, iso) == Stringify(y.value, iso)
  {
    SortedEntries(a, iso, x);
    SortedEntries(b, iso, y);
    var p :| ComesFrom(a, iso, x, p);
    var q :| ComesFrom(b, iso, y, q);
    assert SameKeyDefined(a, b, p, q);
  }

  lemma SameObjectInput(a: Value, b: Value, iso: int -> string)
    requires a.Object? && b.Object? && DistinctKeys(a.entries) && DistinctKeys(b.entries)
    requires Meaning(a, iso) == Meaning(b, iso)
    requires forall p, q :: SameKeyDefined(a, b, p, q) ==>
      HashInput(a.entries[p].value, iso) == HashInput(b.entries[q].value, iso)
    ensures HashInput(a, iso) == HashInput(b, iso)
  {
    var ca, cb := Canonical(a, iso), Canonical(b, iso);
    SameCanonicalKeys(a, b, iso);
    assert |KeysOf(ca.entries)| == |KeysOf(cb.entries)|;
    CanonicalEntriesDefined(a, iso);
    CanonicalEntriesDefined(b, iso);
    StringifyEach(ca, |ca.entries|, iso);
    StringifyEach(cb, |cb.entries|, iso);
    forall i | 0 <= i < |ca.entries|
      ensures ca.entries[i].key == cb.entries[i].key
      ensures Stringify(ca.entries[i].value, iso) == Stringify(cb.entries[i].value, iso)
    {
      assert KeysOf(ca.entries)[i] == KeysOf(cb.entries)[i];
      SameEntryInput(a, b, iso, ca.entries[i], cb.entries[i]);
    }
    assert StringifyEntries(ca, |ca.entries|, iso) == StringifyEntries(cb, |cb.entries|, iso);
  }

  // ----- and the text determines the meaning

  function TreeMeaning(t: Tree): J.Json
    decreases t, 1, 0
  {
    match t
    case TreeNull => J.Null
    case TreeBool(flag) => J.Bool(flag)
    case TreeNumber(number) => J.Number(number)
    case TreeText(text) => J.Text(text)
    case TreeArray(items) => J.Array(seq(|items|, i requires 0 <= i < |items| => TreeMeaning(items[i])))
    case TreeObject(fields) => J.Object(FieldsMeaning(t, |fields|))
  }

  function FieldsMeaning(t: Tree, n: nat): map<string, J.Json>
    requires t.TreeObject? && n <= |t.fields|
    decreases t, 0, n
  {
    if n == 0 then map[] else FieldsMeaning(t, n - 1)[t.fields[n - 1].key := TreeMeaning(t.fields[n - 1].value)]
  }

  lemma {:induction false} FieldsMeaningPrefix(t: Tree, u: Tree, n: nat)
    requires t.TreeObject? && u.TreeObject? && n <= |t.fields| && n <= |u.fields| && t.fields[..n] == u.fields[..n]
    ensures FieldsMeaning(t, n) == FieldsMeaning(u, n)
  {
    if n > 0 {
      assert t.fields[..n][n - 1] == u.fields[..n][n - 1];
      assert t.fields[..n - 1] == t.fields[..n][..n - 1] && u.fields[..n - 1] == u.fields[..n][..n - 1];
      FieldsMeaningPrefix(t, u, n - 1);
    }
  }

  lemma {:induction false} TextKeepsMeaning(v: Value, iso: int -> string)
    ensures TreeMeaning(Stringify(v, iso)) == Meaning(v, iso)
    decreases v, 1, 0
  {
    match v
    case Array(items) =>
      forall i | 0 <= i < |items| ensures TreeMeaning(Stringify(items[i], iso)) == Meaning(items[i], iso) {
        TextKeepsMeaning(items[i], iso);
      }
    case Object(entries) => EntriesKeepMeaning(v, |entries|, iso);
    case _ =>
  }

  lemma {:induction false} EntriesKeepMeaning(v: Value, n: nat, iso: int -> string)
    requires v.Object? && n <= |v.entries|
    ensures var t := TreeObject(StringifyEntries(v, n, iso));
      FieldsMeaning(t, |t.fields|) == MeaningOfEntries(v, n, iso)
    decreases v, 0, n
  {
    if n > 0 {
      EntriesKeepMeaning(v, n - 1, iso);
      TextKeepsMeaning(v.entries[n - 1].value, iso);
      var t := TreeObject(StringifyEntries(v, n, iso));
      var u := TreeObject(StringifyEntries(v, n - 1, iso));
      assert t.fields[..|u.fields|] == u.fields[..|u.fields|];
      FieldsMeaningPrefix(t, u, |u.fields|);
    }
  }

  /** Two requests hash the same exactly when they mean the same: key order and undefined entries never matter, anything else does. */
  lemma SameHashIffSameMeaning(a: Value, b: Value, iso: int -> string)
    requires WellFormed(a) && WellFormed(b)
    ensures HashInput(a, iso) == HashInput(b, iso) <==> Meaning(a, iso) == Meaning(b, iso)
  {
    if Meaning(a, iso) == Meaning(b, iso) {
      SameMeaningSameInput(a, b, iso);
    }
    CanonicalKeepsMeaning(a, iso);
    CanonicalKeepsMeaning(b, iso);
    TextKeepsMeaning(Canonical(a, iso), iso);
    TextKeepsMeaning(Canonical(b, iso), iso);
  }
}
