/** Loot stacking: how the reducer merges a loot list into an inventory.
    Items are identified by name; a known name adds to the first entry of
    that name, an unknown one is appended. */
module Inventory {
  import opened Types

  /** Index of the first item called `name`, or -1 (`Array.prototype.find`). */
  function IndexOfName(inv: seq<Item>, name: string): (j: int)
    ensures -1 <= j < |inv|
    ensures j == -1 <==> forall k :: 0 <= k < |inv| ==> inv[k].name != name
    ensures j >= 0 ==> inv[j].name == name && forall k :: 0 <= k < j ==> inv[k].name != name
  {
    if |inv| == 0 then -1
    else
      var j := IndexOfName(inv[..|inv| - 1], name);
      if j >= 0 then j else if inv[|inv| - 1].name == name then |inv| - 1 else -1
  }

  /** The names present in an inventory. */
  function Names(inv: seq<Item>): set<string> {
    set k | 0 <= k < |inv| :: inv[k].name
  }

  /** No two entries share a name. */
  predicate UniqueNames(inv: seq<Item>) {
    forall a, b :: 0 <= a < b < |inv| ==> inv[a].name != inv[b].name
  }

  /** Total quantity held under `name`, over every entry of that name.
      This is the reference the stacking rules are measured against. */
  function Total(inv: seq<Item>, name: string): int {
    if |inv| == 0 then 0
    else Total(inv[..|inv| - 1], name) + (if inv[|inv| - 1].name == name then inv[|inv| - 1].quantity else 0)
  }

  /** Changing the quantity of entry `j` changes the total of its name by the difference. */
  lemma {:induction false} TotalUpdate(inv: seq<Item>, j: nat, q: int, name: string)
    requires j < |inv|
    ensures Total(inv[j := inv[j].(quantity := q)], name)
         == Total(inv, name) + (if inv[j].name == name then q - inv[j].quantity else 0)
  {
    var inv' := inv[j := inv[j].(quantity := q)];
    if j == |inv| - 1 {
      assert inv'[..|inv'| - 1] == inv[..|inv| - 1];
    } else {
      assert inv'[..|inv'| - 1] == inv[..|inv| - 1][j := inv[j].(quantity := q)];
      TotalUpdate(inv[..|inv| - 1], j, q, name);
    }
  }

  /** A name outside `Names(inv)` is carried by no entry. */
  lemma NotInNames(inv: seq<Item>, name: string)
    requires name !in Names(inv)
    ensures IndexOfName(inv, name) == -1
  {
  }

  /** Stack one loot item into the inventory. */
  function StackOne(inv: seq<Item>, item: Item): (r: seq<Item>)
    ensures |r| == |inv| + (if item.name in Names(inv) then 0 else 1)
    ensures Names(r) == Names(inv) + {item.name}
    ensures forall k :: 0 <= k < |inv| ==> r[k].name == inv[k].name && r[k].description == inv[k].description
    ensures forall k :: 0 <= k < |inv| && inv[k].name != item.name ==> r[k] == inv[k]
    ensures item.name !in Names(inv) ==> r[|inv|] == item
    ensures item.name in Names(inv) ==>
              var j := IndexOfName(inv, item.name);
              0 <= j < |inv| && r[j].quantity == inv[j].quantity + item.quantity
              && forall k :: 0 <= k < |inv| && k != j ==> r[k] == inv[k]
    ensures forall n :: Total(r, n) == Total(inv, n) + (if n == item.name then item.quantity else 0)
    ensures UniqueNames(inv) ==> UniqueNames(r)
  {
    var j := IndexOfName(inv, item.name);
    if j >= 0 then
      var r := inv[j := inv[j].(quantity := inv[j].quantity + item.quantity)];
      assert item.name in Names(inv) by { assert inv[j].name == item.name; }
      assert forall n :: Total(r, n) == Total(inv, n) + (if n == item.name then item.quantity else 0) by {
        forall n ensures Total(r, n) == Total(inv, n) + (if n == item.name then item.quantity else 0) {
          TotalUpdate(inv, j, inv[j].quantity + item.quantity, n);
        }
      }
      assert Names(r) == Names(inv) by {
        forall x | x in Names(inv) ensures x in Names(r) {
          var k :| 0 <= k < |inv| && inv[k].name == x;
          assert r[k].name == x;
        }
      }
      r
    else
      var r := inv + [item];
      assert r[..|r| - 1] == inv;
      assert item.name !in Names(inv);
      assert Names(r) == Names(inv) + {item.name} by {
        forall x | x in Names(inv) ensures x in Names(r) {
          var k :| 0 <= k < |inv| && inv[k].name == x;
          assert r[k].name == x;
        }
        assert r[|inv|].name == item.name;
      }
      r
  }

  /** The names of a non-empty inventory are those of all but its last
      entry plus the last entry's. */
  lemma NamesSnoc(inv: seq<Item>)
    requires |inv| > 0
    ensures Names(inv) == Names(inv[..|inv| - 1]) + {inv[|inv| - 1].name}
  {
  }

  /** No loot item carries `name`. */
  predicate NotLooted(loot: seq<Item>, name: string) {
    forall j :: 0 <= j < |loot| ==> loot[j].name != name
  }

  /** Stack every loot item in order, as the reducer's `forEach` does. */
  function StackLoot(inv: seq<Item>, loot: seq<Item>): (r: seq<Item>)
    ensures |inv| <= |r| <= |inv| + |loot|
    ensures forall k :: 0 <= k < |inv| ==> r[k].name == inv[k].name && r[k].description == inv[k].description
    ensures forall k :: 0 <= k < |inv| && NotLooted(loot, inv[k].name) ==> r[k] == inv[k]
    ensures UniqueNames(inv) ==> UniqueNames(r)
  {
    if |loot| == 0 then inv
    else StackOne(StackLoot(inv, loot[..|loot| - 1]), loot[|loot| - 1])
  }

  /** Stacking conserves quantity: each name's total grows by exactly the
      quantity looted under that name. */
  lemma {:induction false} StackLootTotals(inv: seq<Item>, loot: seq<Item>)
    ensures forall n :: Total(StackLoot(inv, loot), n) == Total(inv, n) + Total(loot, n)
  {
    if |loot| > 0 {
      StackLootTotals(inv, loot[..|loot| - 1]);
    }
  }

  /** After stacking, the names held are the old names plus the looted ones. */
  lemma {:induction false} StackLootNames(inv: seq<Item>, loot: seq<Item>)
    ensures Names(StackLoot(inv, loot)) == Names(inv) + Names(loot)
  {
    if |loot| > 0 {
      StackLootNames(inv, loot[..|loot| - 1]);
      NamesSnoc(loot);
    }
  }

  /** Stacking two loot lists one after the other is stacking their concatenation. */
  lemma {:induction false} StackLootAppend(inv: seq<Item>, a: seq<Item>, b: seq<Item>)
    ensures StackLoot(StackLoot(inv, a), b) == StackLoot(inv, a + b)
  {
    if |b| == 0 {
      assert a + b == a;
    } else {
      assert (a + b)[..|a + b| - 1] == a + b[..|b| - 1];
      assert (a + b)[|a + b| - 1] == b[|b| - 1];
      StackLootAppend(inv, a, b[..|b| - 1]);
    }
  }

  /** In an inventory without repeated names, the entry of a name holds
      exactly that name's total. */
  lemma {:induction false} UniqueTotal(inv: seq<Item>, k: nat)
    requires UniqueNames(inv) && k < |inv|
    ensures Total(inv, inv[k].name) == inv[k].quantity
  {
    var front := inv[..|inv| - 1];
    if k == |inv| - 1 {
      AbsentTotal(front, inv[k].name);
    } else {
      UniqueTotal(front, k);
    }
  }

  /** A name with no entry has total zero. */
  lemma {:induction false} AbsentTotal(inv: seq<Item>, name: string)
    requires forall k :: 0 <= k < |inv| ==> inv[k].name != name
    ensures Total(inv, name) == 0
  {
    if |inv| > 0 {
      AbsentTotal(inv[..|inv| - 1], name);
    }
  }

  /** Loot of a name the inventory already holds, in an inventory without
      repeated names, adds every looted quantity of that name to its entry. */
  lemma StackKnownName(inv: seq<Item>, loot: seq<Item>, k: nat)
    requires UniqueNames(inv) && k < |inv|
    ensures StackLoot(inv, loot)[k].quantity == inv[k].quantity + Total(loot, inv[k].name)
  {
    var r := StackLoot(inv, loot);
    StackLootTotals(inv, loot);
    UniqueTotal(inv, k);
    UniqueTotal(r, k);
  }

  /** Loot of a new name is appended as it is. */
  lemma StackOneNew(inv: seq<Item>, x: Item)
    requires x.name !in Names(inv)
    ensures StackOne(inv, x) == inv + [x]
  {
    NotInNames(inv, x.name);
  }

  /** Loot whose name is first held at `j` adds its quantity there. */
  lemma StackOneAt(inv: seq<Item>, y: Item, j: nat)
    requires IndexOfName(inv, y.name) == j
    ensures StackOne(inv, y) == inv[j := inv[j].(quantity := inv[j].quantity + y.quantity)]
  {
  }

  /** Stacking one more item after a loot list. */
  lemma StackLootSnoc(inv: seq<Item>, loot: seq<Item>, item: Item)
    ensures StackLoot(inv, loot + [item]) == StackOne(StackLoot(inv, loot), item)
  {
  }

  /** A two-item loot list stacks its items in order. */
  lemma StackLootPair(inv: seq<Item>, x: Item, y: Item)
    ensures StackLoot(inv, [x, y]) == StackOne(StackOne(inv, x), y)
  {
    StackLootSnoc(inv, [], x);
    StackLootSnoc(inv, [x], y);
    assert [] + [x] == [x] && [x] + [y] == [x, y];
  }

  /** An item of a new name, then a second item of that name, leave one
      appended entry holding both quantities. */
  lemma StackTwoNew(inv: seq<Item>, x: Item, y: Item)
    requires x.name == y.name && x.name !in Names(inv)
    ensures StackOne(StackOne(inv, x), y) == inv + [x.(quantity := x.quantity + y.quantity)]
  {
  }

  /** Two looted items of one new name become a single appended entry
      holding both quantities. */
  lemma DuplicateNewLootStacks(inv: seq<Item>, x: Item, y: Item)
    requires x.name == y.name && x.name !in Names(inv)
    ensures StackLoot(inv, [x, y]) == inv + [x.(quantity := x.quantity + y.quantity)]
  {
    StackLootPair(inv, x, y);
    StackTwoNew(inv, x, y);
  }
}
