/** The item list of the example application: a list of items kept in
    memory and changed in place by `create`, `update` and `delete`. */
module ItemsExample {
  import opened Js

  datatype Item = Item(id: string, name: string, description: string)

  /** `items.findIndex(item => item.id === id)`: the position of the first
      item with that id, or -1 when there is none. */
  function FirstIndexOf(items: seq<Item>, id: string): (i: int)
    ensures -1 <= i < |items|
    ensures i == -1 <==> forall k :: 0 <= k < |items| ==> items[k].id != id
    ensures i >= 0 ==> items[i].id == id && forall k :: 0 <= k < i ==> items[k].id != id
    decreases |items|
  {
    if |items| == 0 then -1
    else if items[0].id == id then 0
    else
      var j := FirstIndexOf(items[1..], id);
      if j == -1 then -1 else j + 1
  }

  /** `splice(i, 1)` on a list, as a value. */
  function RemoveAt(s: seq<Item>, i: nat): (r: seq<Item>)
    requires i < |s|
    ensures |r| == |s| - 1
  {
    s[..i] + s[i + 1..]
  }

  /** Removing one position keeps the order of the others, and takes exactly
      that one item out of the bag of items. */
  lemma RemoveAtKeepsTheRest(s: seq<Item>, i: nat)
    requires i < |s|
    ensures forall k :: 0 <= k < i ==> RemoveAt(s, i)[k] == s[k]
    ensures forall k :: i <= k < |s| - 1 ==> RemoveAt(s, i)[k] == s[k + 1]
    ensures multiset(RemoveAt(s, i)) == multiset(s) - multiset{s[i]}
  {
    assert s == s[..i] + [s[i]] + s[i + 1..];
    assert multiset(s) == multiset(s[..i]) + multiset{s[i]} + multiset(s[i + 1..]);
  }

  /** After an item is appended, looking up its id finds it, unless an
      earlier item already carries that id. */
  lemma AppendedItemIsFound(s: seq<Item>, item: Item)
    ensures FirstIndexOf(s + [item], item.id) == if FirstIndexOf(s, item.id) == -1 then |s| else FirstIndexOf(s, item.id)
  {
    var t := s + [item];
    assert forall k :: 0 <= k < |s| ==> t[k] == s[k];
    assert t[|s|] == item;
  }

  /** After the first item with an id is replaced by one with the same id,
      that id leads to the new item. */
  lemma UpdatedItemIsFound(s: seq<Item>, id: string, updated: Item)
    requires FirstIndexOf(s, id) != -1 && updated.id == id
    ensures FirstIndexOf(s[FirstIndexOf(s, id) := updated], id) == FirstIndexOf(s, id)
  {
    var i := FirstIndexOf(s, id);
    var t := s[i := updated];
    assert forall k :: 0 <= k < i ==> t[k] == s[k];
    assert t[i].id == id;
  }

  class ItemsService {
    var items: seq<Item>

    /** The list starts with items "1" and "2". */
    constructor ()
      ensures items == [Item("1", "Item 1", "Description 1"), Item("2", "Item 2", "Description 2")]
    {
      items := [Item("1", "Item 1", "Description 1"), Item("2", "Item 2", "Description 2")];
    }

    method FindAll() returns (r: seq<Item>)
      ensures r == items
    {
      r := items;
    }

    /** `findOne(id)`: the first item with that id, or nothing. */
    method FindOne(id: string) returns (r: Option<Item>)
      ensures r.None? <==> forall k :: 0 <= k < |items| ==> items[k].id != id
      ensures r.Some? ==> r.value.id == id && r.value == items[FirstIndexOf(items, id)]
    {
      var i := FirstIndexOf(items, id);
      r := if i == -1 then None else Some(items[i]);
    }

    /** `create(item)`: appended at the end and returned. */
    method Create(item: Item) returns (r: Item)
      modifies this
      ensures r == item
      ensures items == old(items) + [item]
    {
      items := items + [item];
      r := item;
    }

    /** `update(id, updatedItem)`: the first item with that id is replaced
        and the new item returned; without one, nothing changes. */
    method Update(id: string, updated: Item) returns (r: Option<Item>)
      modifies this
      ensures FirstIndexOf(old(items), id) == -1 ==> r.None? && items == old(items)
      ensures FirstIndexOf(old(items), id) != -1 ==>
        r == Some(updated) && items == old(items)[FirstIndexOf(old(items), id) := updated]
    {
      var i := FirstIndexOf(items, id);
      if i == -1 {
        return None;
      }
      items := items[i := updated];
      r := Some(updated);
    }

    /** `delete(id)`: the first item with that id is removed and `true`
        returned; without one, `false` and nothing changes. */
    method Delete(id: string) returns (deleted: bool)
      modifies this
      ensures deleted <==> FirstIndexOf(old(items), id) != -1
      ensures !deleted ==> items == old(items)
      ensures deleted ==> items == RemoveAt(old(items), FirstIndexOf(old(items), id))
    {
      var i := FirstIndexOf(items, id);
      if i == -1 {
        return false;
      }
      items := RemoveAt(items, i);
      deleted := true;
    }
  }
}
