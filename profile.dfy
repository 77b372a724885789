/**
 * The field editor of `ProfileModal`: a user's working memory (a JSON object
 * whose key order matters) is edited as a key-to-value map `editedMemory`
 * beside an explicit key order `fieldOrder`; saving rebuilds an ordered
 * object by walking `fieldOrder`.
 *
 * An ordered JavaScript object is an `Entries` sequence of key/value pairs.
 * The fetch and the POST are outside the model: their outcomes are
 * parameters.
 */
module Profile {
  import opened Js

  /** A JavaScript object with its keys in insertion order. */
  type Entries = seq<(string, Json)>

  datatype UserMemory = UserMemory(userId: string, workingMemory: Option<Entries>, createdAt: string, updatedAt: string)

  /** What `fetch('/api/user-memory?…')` delivered: the `userMemory` field, or a failure. */
  datatype FetchResult = Fetched(userMemory: Option<UserMemory>) | FetchFailed

  // -----------------------------------------------------------------------
  // Sequences: indexOf, splice, filter

  /** `s.indexOf(x)`: the first position of `x`, or -1. */
  function IndexOf<T(==)>(s: seq<T>, x: T): (r: int)
    ensures -1 <= r < |s|
    ensures r == -1 <==> x !in s
    ensures r >= 0 ==> s[r] == x && forall j :: 0 <= j < r ==> s[j] != x
  {
    if s == [] then -1
    else if s[0] == x then 0
    else var r := IndexOf(s[1..], x); if r < 0 then -1 else r + 1
  }

  lemma IndexOfPrefix<T>(p: seq<T>, q: seq<T>, x: T)
    requires x in p
    ensures IndexOf(p + q, x) == IndexOf(p, x)
  {
    var i := IndexOf(p, x);
    assert (p + q)[i] == x;
    assert forall j :: 0 <= j < i ==> (p + q)[j] == p[j];
  }

  /** Where `splice(start, …)` begins, for a possibly negative `start`. */
  function SpliceStart(start: int, length: nat): (r: nat)
    ensures r <= length
    ensures 0 <= start <= length ==> r == start
  {
    if start < 0 then (if length + start > 0 then length + start else 0)
    else if start < length then start else length
  }

  /** `s.splice(start, 1)` on a copy: the resulting array. */
  function SpliceRemove<T>(s: seq<T>, start: int): (r: seq<T>)
    ensures var i := SpliceStart(start, |s|);
      && |r| == (if i < |s| then |s| - 1 else |s|)
      && (forall j :: 0 <= j < |r| ==> r[j] == if j < i then s[j] else s[j + 1])
  {
    var i := SpliceStart(start, |s|);
    if i < |s| then s[..i] + s[i + 1..] else s
  }

  /** `s.splice(start, 0, x)` on a copy: the resulting array. */
  function SpliceInsert<T>(s: seq<T>, start: int, x: T): (r: seq<T>)
    ensures |r| == |s| + 1
    ensures r[SpliceStart(start, |s|)] == x
    ensures multiset(r) == multiset(s) + multiset{x}
  {
    var i := SpliceStart(start, |s|);
    assert s == s[..i] + s[i..];
    s[..i] + [x] + s[i..]
  }

  /** `s.filter(x => x !== k)` */
  function RemoveAll(s: seq<string>, k: string): (r: seq<string>)
    ensures k !in r
    ensures multiset(r) == multiset(s)[k := 0]
    ensures forall x :: x in r <==> x in s && x != k
  {
    if s == [] then []
    else
      var rest := RemoveAll(s[1..], k);
      assert s == [s[0]] + s[1..];
      if s[0] == k then rest else [s[0]] + rest
  }

  /** Filtering distributes over concatenation, so survivors keep their order. */
  lemma {:induction false} RemoveAllConcat(a: seq<string>, b: seq<string>, k: string)
    ensures RemoveAll(a + b, k) == RemoveAll(a, k) + RemoveAll(b, k)
  {
    if a != [] {
      assert (a + b)[0] == a[0];
      assert (a + b)[1..] == a[1..] + b;
      RemoveAllConcat(a[1..], b, k);
      assert a + b != [];
      if a[0] != k {
        assert RemoveAll(a + b, k) == [a[0]] + RemoveAll(a[1..] + b, k);
        assert RemoveAll(a, k) == [a[0]] + RemoveAll(a[1..], k);
      } else {
        assert RemoveAll(a + b, k) == RemoveAll(a[1..] + b, k);
        assert RemoveAll(a, k) == RemoveAll(a[1..], k);
      }
    } else {
      assert a + b == b;
    }
  }

  // -----------------------------------------------------------------------
  // Ordered objects

  /** `Object.keys(obj)` */
  function Keys(obj: Entries): (ks: seq<string>)
    ensures |ks| == |obj|
    ensures forall i :: 0 <= i < |obj| ==> ks[i] == obj[i].0
  {
    seq(|obj|, i requires 0 <= i < |obj| => obj[i].0)
  }

  predicate DistinctKeys(obj: Entries)
  {
    forall i, j :: 0 <= i < j < |obj| ==> obj[i].0 != obj[j].0
  }

  /** The object as a key/value map; a repeated key keeps its last value. */
  function ToMap(obj: Entries): (m: map<string, Json>)
    ensures m.Keys == set i | 0 <= i < |obj| :: obj[i].0
    ensures DistinctKeys(obj) ==> forall i :: 0 <= i < |obj| ==> m[obj[i].0] == obj[i].1
  {
    if obj == [] then map[]
    else
      var p := obj[..|obj| - 1];
      var last := obj[|obj| - 1];
      var m := ToMap(p)[last.0 := last.1];
      assert forall i :: 0 <= i < |p| ==> p[i] == obj[i];
      m
  }

  /** `obj[k] = v`: an existing key keeps its place, a new key goes last. */
  function Assign(obj: Entries, k: string, v: Json): (r: Entries)
    ensures k in Keys(obj) ==> Keys(r) == Keys(obj) && |r| == |obj|
    ensures k !in Keys(obj) ==> r == obj + [(k, v)]
    ensures DistinctKeys(obj) && k in Keys(obj) ==>
      forall i :: 0 <= i < |r| ==> r[i] == if obj[i].0 == k then (k, v) else obj[i]
  {
    var i := IndexOf(Keys(obj), k);
    if i >= 0 then
      obj[i := (k, v)]
    else obj + [(k, v)]
  }

  /**
   * The `fieldOrder.forEach` of `handleSave`: each key of `order` that the
   * map holds is assigned, in turn, into an initially empty object.
   */
  function OrderedMemory(order: seq<string>, m: map<string, Json>): Entries
  {
    if order == [] then []
    else
      var k := order[|order| - 1];
      var acc := OrderedMemory(order[..|order| - 1], m);
      if k in m then Assign(acc, k, m[k]) else acc
  }

  /**
   * `r` holds each key that is both in `order` and in `m` exactly once, with
   * the map's value, ordered by where the key first occurs in `order`.
   */
  ghost predicate SavedShape(r: Entries, order: seq<string>, m: map<string, Json>)
  {
    && DistinctKeys(r)
    && (forall k :: k in Keys(r) <==> k in order && k in m)
    && (forall i :: 0 <= i < |r| ==> r[i].0 in m && r[i].1 == m[r[i].0])
    && (forall i, j :: 0 <= i < j < |r| ==> IndexOf(order, r[i].0) < IndexOf(order, r[j].0))
  }

  /** Assigning a key its current value changes nothing. */
  lemma AssignCurrent(acc: Entries, k: string, v: Json)
    requires DistinctKeys(acc) && k in Keys(acc)
    requires forall i :: 0 <= i < |acc| && acc[i].0 == k ==> acc[i].1 == v
    ensures Assign(acc, k, v) == acc
  {
    var r := Assign(acc, k, v);
    assert |r| == |acc|;
    forall i | 0 <= i < |r| ensures r[i] == acc[i] {}
  }

  /** Extending the order moves none of the keys already saved. */
  lemma SavedIndexesKept(p: seq<string>, k: string, m: map<string, Json>)
    requires SavedShape(OrderedMemory(p, m), p, m)
    ensures var acc := OrderedMemory(p, m);
      forall i :: 0 <= i < |acc| ==> IndexOf(p + [k], acc[i].0) == IndexOf(p, acc[i].0)
  {
    var acc := OrderedMemory(p, m);
    forall i | 0 <= i < |acc| ensures IndexOf(p + [k], acc[i].0) == IndexOf(p, acc[i].0) {
      assert acc[i].0 in Keys(acc);
      IndexOfPrefix(p, [k], acc[i].0);
    }
  }

  /** A key met again, or missing from the map, leaves the saved object as it was. */
  lemma ShapeStepKept(p: seq<string>, k: string, m: map<string, Json>)
    requires SavedShape(OrderedMemory(p, m), p, m)
    requires k in p || k !in m
    ensures SavedShape(OrderedMemory(p, m), p + [k], m)
  {
    SavedIndexesKept(p, k, m);
  }

  /** A key met for the first time, and held by the map, goes last. */
  lemma ShapeStepNew(p: seq<string>, k: string, m: map<string, Json>)
    requires SavedShape(OrderedMemory(p, m), p, m)
    requires k !in p && k in m
    ensures SavedShape(OrderedMemory(p, m) + [(k, m[k])], p + [k], m)
  {
    var acc := OrderedMemory(p, m);
    SavedIndexesKept(p, k, m);
    assert IndexOf(p + [k], k) == |p|;
    assert Keys(acc + [(k, m[k])]) == Keys(acc) + [k];
  }

  /** One more key of the order keeps the saved object's shape. */
  lemma ShapeStep(p: seq<string>, k: string, m: map<string, Json>)
    requires SavedShape(OrderedMemory(p, m), p, m)
    ensures SavedShape(OrderedMemory(p + [k], m), p + [k], m)
  {
    var order := p + [k];
    assert order[..|order| - 1] == p;
    var acc := OrderedMemory(p, m);
    if k in m && k in Keys(acc) {
      AssignCurrent(acc, k, m[k]);
      ShapeStepKept(p, k, m);
    } else if k in m {
      ShapeStepNew(p, k, m);
    } else {
      ShapeStepKept(p, k, m);
    }
  }

  /**
   * The saved object holds each key that is both in `fieldOrder` and in the
   * map exactly once, with the map's value, ordered by where the key first
   * occurs in `fieldOrder`.
   */
  lemma {:induction false} OrderedMemoryShape(order: seq<string>, m: map<string, Json>)
    ensures var r := OrderedMemory(order, m);
      && DistinctKeys(r)
      && (forall k :: k in Keys(r) <==> k in order && k in m)
      && (forall i :: 0 <= i < |r| ==> r[i].0 in m && r[i].1 == m[r[i].0])
      && (forall i, j :: 0 <= i < j < |r| ==> IndexOf(order, r[i].0) < IndexOf(order, r[j].0))
  {
    if order != [] {
      var p := order[..|order| - 1];
      assert order == p + [order[|order| - 1]];
      OrderedMemoryShape(p, m);
      ShapeStep(p, order[|order| - 1], m);
    }
  }

  /**
   * Saving right after loading (or cancelling) writes back the loaded object
   * unchanged: key order and values both survive the editor.
   */
  lemma {:induction false} SaveUneditedIsIdentity(obj: Entries, m: map<string, Json>)
    requires DistinctKeys(obj)
    requires forall i :: 0 <= i < |obj| ==> obj[i].0 in m && m[obj[i].0] == obj[i].1
    ensures OrderedMemory(Keys(obj), m) == obj
  {
    if obj != [] {
      var p := obj[..|obj| - 1];
      var last := obj[|obj| - 1];
      assert Keys(obj)[..|obj| - 1] == Keys(p);
      SaveUneditedIsIdentity(p, m);
      assert last.0 !in Keys(p);
      assert obj == p + [last];
    }
  }

  /** In particular for the loaded memory and the map built from it. */
  lemma SaveAfterLoadIsIdentity(obj: Entries)
    requires DistinctKeys(obj)
    ensures OrderedMemory(Keys(obj), ToMap(obj)) == obj
  {
    SaveUneditedIsIdentity(obj, ToMap(obj));
  }

  // -----------------------------------------------------------------------
  // Drag-reorder

  /**
   * `handleDragOver`'s new order: the dragged key is spliced out at its index
   * and spliced back in at the target's index (both taken before the removal).
   */
  function Reorder(order: seq<string>, dragged: string, target: string): seq<string>
  {
    var draggedIndex := IndexOf(order, dragged);
    var targetIndex := IndexOf(order, target);
    SpliceInsert(SpliceRemove(order, draggedIndex), targetIndex, dragged)
  }

  /** Removing the element at an index leaves the others, with their multiplicities. */
  lemma SpliceRemoveMultiset<T>(s: seq<T>, i: int)
    requires 0 <= i < |s|
    ensures multiset(SpliceRemove(s, i)) + multiset{s[i]} == multiset(s)
  {
    assert SpliceRemove(s, i) == s[..i] + s[i + 1..];
    assert s == s[..i] + [s[i]] + s[i + 1..];
  }

  /** Removing what was just inserted gives back the sequence. */
  lemma SpliceRemoveInserted<T>(s: seq<T>, i: int, x: T)
    requires 0 <= i <= |s|
    ensures SpliceRemove(SpliceInsert(s, i, x), i) == s
  {
    var r := SpliceInsert(s, i, x);
    assert r == s[..i] + [x] + s[i..];
    assert SpliceRemove(r, i) == r[..i] + r[i + 1..];
    assert r[..i] == s[..i] && r[i + 1..] == s[i..];
    assert s == s[..i] + s[i..];
  }

  /**
   * For two listed keys the reorder is a permutation, puts the dragged key at
   * the target's former index, and leaves every other key in its relative
   * order.
   */
  lemma ReorderMoves(order: seq<string>, dragged: string, target: string)
    requires dragged in order && target in order
    ensures var r := Reorder(order, dragged, target);
      && multiset(r) == multiset(order)
      && r[IndexOf(order, target)] == dragged
      && SpliceRemove(r, IndexOf(order, target)) == SpliceRemove(order, IndexOf(order, dragged))
  {
    var di := IndexOf(order, dragged);
    var ti := IndexOf(order, target);
    var removed := SpliceRemove(order, di);
    SpliceRemoveMultiset(order, di);
    assert SpliceStart(ti, |removed|) == ti;
    SpliceRemoveInserted(removed, ti, dragged);
  }

  // -----------------------------------------------------------------------
  // Array-valued fields

  /** `editedMemory[key] || []` where the field is an array (a missing key is []). */
  function CurrentArray(m: map<string, Json>, key: string): seq<Json>
  {
    if key in m && m[key].JArr? then m[key].items else []
  }

  /**
   * `newArray[index] = value` on a copy: an index past the end first fills
   * the gap with holes, which serialise as `null`.
   */
  function SetItem(items: seq<Json>, index: nat, value: Json): (r: seq<Json>)
    ensures |r| == if index < |items| then |items| else index + 1
    ensures r[index] == value
    ensures forall j :: 0 <= j < |items| && j != index ==> r[j] == items[j]
    ensures forall j :: |items| <= j < index ==> r[j] == JNull
  {
    if index < |items| then items[index := value]
    else items + seq(index - |items|, _ => JNull) + [value]
  }

  /** `newArray.splice(index, 1)` on a copy, for a non-negative `index`. */
  function RemoveItem(items: seq<Json>, index: nat): (r: seq<Json>)
    ensures |r| == if index < |items| then |items| - 1 else |items|
    ensures forall j :: 0 <= j < |r| ==> r[j] == if j < index then items[j] else items[j + 1]
    ensures index >= |items| ==> r == items
  {
    SpliceRemove(items, index)
  }

  /** `userMemory?.working_memory || {}` */
  function WorkingMemory(u: Option<UserMemory>): Entries
  {
    if u.Some? && u.value.workingMemory.Some? then u.value.workingMemory.value else []
  }

  // -----------------------------------------------------------------------
  // The modal's editing state

  class ProfileModal {
    var userMemory: Option<UserMemory>
    var editedMemory: map<string, Json>
    var fieldOrder: seq<string>
    var newFieldKey: string
    var newFieldValue: string
    var draggedItem: Option<string>
    var isEditing: bool
    var error: Option<string>

    constructor ()
      ensures userMemory == None && editedMemory == map[] && fieldOrder == []
      ensures newFieldKey == "" && newFieldValue == "" && draggedItem == None
      ensures !isEditing && error == None
    {
      userMemory := None;
      editedMemory := map[];
      fieldOrder := [];
      newFieldKey := "";
      newFieldValue := "";
      draggedItem := None;
      isEditing := false;
      error := None;
    }

    /** The end of `fetchUserMemory`: `fieldOrder` starts as the keys in database order. */
    method FetchCompleted(result: FetchResult)
      modifies this`userMemory, this`editedMemory, this`fieldOrder, this`error
      ensures result.Fetched? ==>
        && userMemory == result.userMemory && error == None
        && editedMemory == ToMap(WorkingMemory(userMemory))
        && fieldOrder == Keys(WorkingMemory(userMemory))
      ensures result.FetchFailed? ==>
        && error == Some("Failed to load user information")
        && userMemory == old(userMemory) && editedMemory == old(editedMemory) && fieldOrder == old(fieldOrder)
    {
      error := None;
      match result
      case Fetched(u) =>
        userMemory := u;
        var memory := WorkingMemory(u);
        editedMemory := ToMap(memory);
        fieldOrder := Keys(memory);
      case FetchFailed =>
        error := Some("Failed to load user information");
    }

    /** The object `handleSave` sends: `fieldOrder` walked over `editedMemory`. */
    method BuildOrderedMemory() returns (ordered: Entries)
      ensures ordered == OrderedMemory(fieldOrder, editedMemory)
      ensures DistinctKeys(ordered)
      ensures forall k :: k in Keys(ordered) <==> k in fieldOrder && k in editedMemory
      ensures forall i :: 0 <= i < |ordered| ==> ordered[i].0 in editedMemory && ordered[i].1 == editedMemory[ordered[i].0]
    {
      ordered := [];
      var i := 0;
      while i < |fieldOrder|
        invariant 0 <= i <= |fieldOrder|
        invariant ordered == OrderedMemory(fieldOrder[..i], editedMemory)
      {
        var key := fieldOrder[i];
        assert fieldOrder[..i + 1][..i] == fieldOrder[..i];
        if key in editedMemory {
          ordered := Assign(ordered, key, editedMemory[key]);
        }
        i := i + 1;
      }
      assert fieldOrder[..i] == fieldOrder;
      OrderedMemoryShape(fieldOrder, editedMemory);
    }

    /**
     * `handleSave`: `sent` is the object posted; `saved` is whether the POST
     * succeeded and `refetched` what the following fetch delivered.
     */
    method Save(saved: bool, refetched: FetchResult) returns (sent: Entries)
      modifies this`userMemory, this`editedMemory, this`fieldOrder, this`error, this`isEditing
      ensures sent == OrderedMemory(old(fieldOrder), old(editedMemory))
      ensures saved && refetched.Fetched? ==>
        && !isEditing && error == None && userMemory == refetched.userMemory
        && editedMemory == ToMap(WorkingMemory(userMemory)) && fieldOrder == Keys(WorkingMemory(userMemory))
      ensures saved && refetched.FetchFailed? ==>
        && !isEditing && error == Some("Failed to load user information")
        && userMemory == old(userMemory) && editedMemory == old(editedMemory) && fieldOrder == old(fieldOrder)
      ensures !saved ==>
        && error == Some("Failed to save changes") && isEditing == old(isEditing)
        && userMemory == old(userMemory) && editedMemory == old(editedMemory) && fieldOrder == old(fieldOrder)
    {
      error := None;
      sent := BuildOrderedMemory();
      if saved {
        FetchCompleted(refetched);
        isEditing := false;
      } else {
        error := Some("Failed to save changes");
      }
    }

    /** `handleCancel` */
    method Cancel()
      modifies this`editedMemory, this`fieldOrder, this`isEditing, this`newFieldKey, this`newFieldValue
      ensures editedMemory == ToMap(WorkingMemory(userMemory))
      ensures fieldOrder == Keys(WorkingMemory(userMemory))
      ensures !isEditing && newFieldKey == "" && newFieldValue == ""
    {
      var memory := WorkingMemory(userMemory);
      editedMemory := ToMap(memory);
      fieldOrder := Keys(memory);
      isEditing := false;
      newFieldKey := "";
      newFieldValue := "";
    }

    /** `handleFieldChange(key, value)` */
    method FieldChange(key: string, value: Json)
      modifies this`editedMemory
      ensures editedMemory == old(editedMemory)[key := value]
    {
      editedMemory := editedMemory[key := value];
    }

    /** `handleArrayItemAdd(key)` */
    method ArrayItemAdd(key: string)
      modifies this`editedMemory
      ensures editedMemory == old(editedMemory)[key := JArr(CurrentArray(old(editedMemory), key) + [JStr("")])]
    {
      var currentArray := CurrentArray(editedMemory, key);
      editedMemory := editedMemory[key := JArr(currentArray + [JStr("")])];
    }

    /** `handleArrayItemChange(key, index, value)` */
    method ArrayItemChange(key: string, index: nat, value: string)
      modifies this`editedMemory
      ensures editedMemory == old(editedMemory)[key := JArr(SetItem(CurrentArray(old(editedMemory), key), index, JStr(value)))]
    {
      var newArray := CurrentArray(editedMemory, key);
      newArray := SetItem(newArray, index, JStr(value));
      editedMemory := editedMemory[key := JArr(newArray)];
    }

    /** `handleArrayItemDelete(key, index)` */
    method ArrayItemDelete(key: string, index: nat)
      modifies this`editedMemory
      ensures editedMemory == old(editedMemory)[key := JArr(RemoveItem(CurrentArray(old(editedMemory), key), index))]
    {
      var newArray := CurrentArray(editedMemory, key);
      newArray := RemoveItem(newArray, index);
      editedMemory := editedMemory[key := JArr(newArray)];
    }

    /** `handleDeleteField(key)` */
    method DeleteField(key: string)
      modifies this`editedMemory, this`fieldOrder
      ensures editedMemory == old(editedMemory) - {key}
      ensures fieldOrder == RemoveAll(old(fieldOrder), key)
    {
      editedMemory := editedMemory - {key};
      fieldOrder := RemoveAll(fieldOrder, key);
    }

    /** `handleAddNewField`: the untrimmed key is stored and appended, even if already listed. */
    method AddNewField()
      modifies this`editedMemory, this`fieldOrder, this`newFieldKey, this`newFieldValue
      ensures Trim(old(newFieldKey)) == [] ==>
        && editedMemory == old(editedMemory) && fieldOrder == old(fieldOrder)
        && newFieldKey == old(newFieldKey) && newFieldValue == old(newFieldValue)
      ensures Trim(old(newFieldKey)) != [] ==>
        && editedMemory == old(editedMemory)[old(newFieldKey) := JStr(old(newFieldValue))]
        && fieldOrder == old(fieldOrder) + [old(newFieldKey)]
        && newFieldKey == "" && newFieldValue == ""
    {
      if Trim(newFieldKey) != [] {
        editedMemory := editedMemory[newFieldKey := JStr(newFieldValue)];
        fieldOrder := fieldOrder + [newFieldKey];
        newFieldKey := "";
        newFieldValue := "";
      }
    }

    /** `handleDragStart(key)` */
    method DragStart(key: string)
      modifies this`draggedItem
      ensures draggedItem == Some(key)
    {
      draggedItem := Some(key);
    }

    /** `handleDragOver(e, key)`; an empty dragged key is falsy and ignored. */
    method DragOver(key: string)
      modifies this`fieldOrder
      ensures draggedItem.Some? && draggedItem.value != "" && draggedItem.value != key ==>
        fieldOrder == Reorder(old(fieldOrder), draggedItem.value, key)
      ensures !(draggedItem.Some? && draggedItem.value != "" && draggedItem.value != key) ==>
        fieldOrder == old(fieldOrder)
    {
      if draggedItem.Some? && draggedItem.value != "" && draggedItem.value != key {
        var newOrder := fieldOrder;
        var draggedIndex := IndexOf(newOrder, draggedItem.value);
        var targetIndex := IndexOf(newOrder, key);
        newOrder := SpliceRemove(newOrder, draggedIndex);
        newOrder := SpliceInsert(newOrder, targetIndex, draggedItem.value);
        fieldOrder := newOrder;
      }
    }

    /** `handleDragEnd` */
    method DragEnd()
      modifies this`draggedItem
      ensures draggedItem == None
    {
      draggedItem := None;
    }
  }
}
