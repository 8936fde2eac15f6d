/** The lifecycle artifact's own hash survives writing and reading the artifact. */
module ArtifactHash {
  import opened Common
  import opened CanonicalOrder
  import opened CanonicalJson

  const HASH_KEY: string := "artifact_hash"
  const SNAPSHOT_KEY: string := "snapshot_at"

  predicate Hashed(key: string) {
    key != HASH_KEY && key != SNAPSHOT_KEY
  }

  /** The payload entries that the hash covers. */
  function Kept(items: seq<Item>): seq<Item> {
    if items == [] then [] else (if Hashed(items[0].key) then [items[0]] else []) + Kept(items[1..])
  }

  /** The bytes that `_artifact_hash` feeds to SHA-256. */
  function HashText(items: seq<Item>): Option<string> {
    Dumps(Map(Kept(items)))
  }

  lemma {:induction false} KeptHas(items: seq<Item>, x: Item)
    ensures x in Kept(items) <==> x in items && Hashed(x.key)
  {
    if items != [] {
      KeptHas(items[1..], x);
      assert items == [items[0]] + items[1..];
    }
  }

  /** The order of the keys, entry by entry. */
  ghost predicate Ascends(items: seq<Item>) {
    Sorted(Keys(items)) && Distinct(Keys(items))
  }

  lemma {:induction false} TailAscends(items: seq<Item>)
    requires items != [] && Ascends(items)
    ensures Ascends(items[1..])
    ensures forall x | x in items[1..] :: Le(items[0].key, x.key) && x.key != items[0].key
  {
    var keys, tail := Keys(items), Keys(items[1..]);
    assert forall i | 0 <= i < |tail| :: tail[i] == keys[i + 1];
    forall x | x in items[1..] ensures Le(items[0].key, x.key) && x.key != items[0].key {
      var i :| 0 <= i < |items[1..]| && items[1..][i] == x;
      assert keys[i + 1] == x.key && keys[0] == items[0].key;
    }
  }

  lemma {:induction false} HeadAscends(x: Item, items: seq<Item>)
    requires Ascends(items) && forall y | y in items :: Le(x.key, y.key) && y.key != x.key
    ensures Ascends([x] + items)
  {
    var keys, tail := Keys([x] + items), Keys(items);
    forall i, j | 0 <= i < j < |keys| ensures Le(keys[i], keys[j]) && keys[i] != keys[j] {
      var y := items[j - 1];
      assert keys[j] == y.key == tail[j - 1];
      if i == 0 {
        assert y in items;
      } else {
        assert keys[i] == tail[i - 1];
      }
    }
  }

  lemma {:induction false} KeptAscends(items: seq<Item>)
    requires Ascends(items)
    ensures Ascends(Kept(items))
  {
    if items != [] {
      TailAscends(items);
      KeptAscends(items[1..]);
      if Hashed(items[0].key) {
        forall y | y in Kept(items[1..]) ensures Le(items[0].key, y.key) && y.key != items[0].key {
          KeptHas(items[1..], y);
        }
        HeadAscends(items[0], Kept(items[1..]));
      } else {
        assert Kept(items) == Kept(items[1..]);
      }
    }
  }

  /** Ascending entries are determined by their set. */
  lemma {:induction false} AscendingUnique(a: seq<Item>, b: seq<Item>)
    requires Ascends(a) && Ascends(b) && forall x :: x in a <==> x in b
    ensures a == b
  {
    if b != [] {
      assert b[0] in a;
    }
    if a != [] {
      assert a[0] in b;
      HeadsAgree(a, b);
      TailAscends(a);
      TailAscends(b);
      assert a == [a[0]] + a[1..] && b == [b[0]] + b[1..];
      forall x ensures x in a[1..] <==> x in b[1..] {
        assert x in a <==> x == a[0] || x in a[1..];
        assert x in b <==> x == b[0] || x in b[1..];
      }
      AscendingUnique(a[1..], b[1..]);
    }
  }

  lemma {:induction false} HeadsAgree(a: seq<Item>, b: seq<Item>)
    requires Ascends(a) && Ascends(b) && a != [] && b != [] && a[0] in b && b[0] in a
    ensures a[0] == b[0]
  {
    TailAscends(a);
    TailAscends(b);
    assert a == [a[0]] + a[1..] && b == [b[0]] + b[1..];
    if a[0] != b[0] {
      assert a[0] in b[1..] && b[0] in a[1..];
      LeAntisymmetric(a[0].key, b[0].key);
      assert false;
    }
  }

  // ---- The canonical form of a payload ----------------------------------------------------------

  /** What a payload is stored as, and read back as. */
  ghost function Stored(items: seq<Item>): seq<Item>
    requires Canon(Map(items), false).Some?
  {
    CanonOfMap(items, false);
    Arrange(Zip(Keys(items), Given(CanonItems(items))), Order(Keys(items)))
  }

  lemma {:induction false} StoredIs(items: seq<Item>)
    requires Canon(Map(items), false).Some?
    ensures Canon(Map(items), false) == Some(Map(Stored(items))) && Ascends(Stored(items))
  {
    CanonOfMap(items, false);
    ArrangedKeys(Keys(items), Given(CanonItems(items)));
  }

  /** An entry and its canonical form. */
  ghost predicate Becomes(before: Item, after: Item) {
    after.key == before.key && Canon(before.value, Unordered(before.key)) == Some(after.value)
  }

  lemma {:induction false} StoredAt(items: seq<Item>, i: nat)
    requires Canon(Map(items), false).Some? && i < |items|
    ensures |Stored(items)| == |Order(Keys(items))| == |items| && Order(Keys(items))[i] < |items|
    ensures Becomes(items[Order(Keys(items))[i]], Stored(items)[i])
  {
    CanonOfMap(items, false);
    assert CanonItems(items)[Order(Keys(items))[i]].Some?;
  }

  lemma {:induction false} StoredHas(items: seq<Item>, x: Item)
    requires Canon(Map(items), false).Some?
    ensures x in Stored(items) <==> exists y :: y in items && Becomes(y, x)
  {
    var order := Order(Keys(items));
    if items != [] {
      StoredAt(items, 0);
    } else {
      CanonOfMap(items, false);
    }
    if x in Stored(items) {
      var i :| 0 <= i < |order| && Stored(items)[i] == x;
      StoredAt(items, i);
      assert Becomes(items[order[i]], x) && items[order[i]] in items;
    }
    if y :| y in items && Becomes(y, x) {
      var j :| 0 <= j < |items| && items[j] == y;
      assert j in order;
      var i :| 0 <= i < |order| && order[i] == j;
      StoredAt(items, i);
      assert Stored(items)[i] == x;
    }
  }

  lemma {:induction false} HeadDistinct(x: Item, items: seq<Item>)
    requires Distinct(Keys(items)) && forall y | y in items :: y.key != x.key
    ensures Distinct(Keys([x] + items))
  {
    var keys, tail := Keys([x] + items), Keys(items);
    forall i, j | 0 <= i < j < |keys| ensures keys[i] != keys[j] {
      assert keys[j] == tail[j - 1] == items[j - 1].key && items[j - 1] in items;
      if i > 0 {
        assert keys[i] == tail[i - 1];
      }
    }
  }

  lemma {:induction false} KeptDistinct(items: seq<Item>)
    requires Distinct(Keys(items))
    ensures Distinct(Keys(Kept(items)))
  {
    if items != [] {
      var keys, tail := Keys(items), Keys(items[1..]);
      assert forall i | 0 <= i < |tail| :: tail[i] == keys[i + 1];
      KeptDistinct(items[1..]);
      if Hashed(items[0].key) {
        forall x | x in Kept(items[1..]) ensures x.key != items[0].key {
          KeptHas(items[1..], x);
          var j :| 0 <= j < |items[1..]| && items[1..][j] == x;
          assert keys[j + 1] == x.key && keys[0] == items[0].key;
        }
        HeadDistinct(items[0], Kept(items[1..]));
      } else {
        assert Kept(items) == Kept(items[1..]);
      }
    }
  }

  lemma {:induction false} KeptCanon(items: seq<Item>)
    requires Canon(Map(items), false).Some?
    ensures Canon(Map(Kept(items)), false).Some?
  {
    CanonOfMap(items, false);
    CanonOfMap(Kept(items), false);
    KeptDistinct(items);
    var kept := Kept(items);
    forall i | 0 <= i < |kept| ensures CanonItems(kept)[i].Some? {
      KeptHas(items, kept[i]);
      var j :| 0 <= j < |items| && items[j] == kept[i];
      assert CanonItems(items)[j].Some?;
    }
  }

  /** Dropping the unhashed entries commutes with storing. */
  lemma {:induction false} KeptStored(items: seq<Item>)
    requires Canon(Map(items), false).Some?
    ensures Canon(Map(Kept(items)), false) == Some(Map(Kept(Stored(items))))
  {
    KeptCanon(items);
    StoredIs(items);
    StoredIs(Kept(items));
    KeptAscends(Stored(items));
    forall x ensures x in Kept(Stored(items)) <==> x in Stored(Kept(items)) {
      KeptHas(Stored(items), x);
      StoredHas(items, x);
      StoredHas(Kept(items), x);
      forall y ensures y in Kept(items) <==> y in items && Hashed(y.key) {
        KeptHas(items, y);
      }
      if x in Kept(Stored(items)) {
        var y :| y in items && Becomes(y, x);
        assert y in Kept(items) && Becomes(y, x);
      }
      if x in Stored(Kept(items)) {
        var y :| y in Kept(items) && Becomes(y, x);
        assert y in items && Becomes(y, x);
      }
    }
    AscendingUnique(Kept(Stored(items)), Stored(Kept(items)));
  }

  // ---- The round trip --------------------------------------------------------------------------

  /** A payload hashes to the same bytes before it is written and after it is read back. */
  lemma {:induction false} ReloadedHash(items: seq<Item>)
    requires Canon(Map(items), false).Some?
    ensures HashText(Stored(items)) == HashText(items) && HashText(items).Some?
  {
    KeptStored(items);
    ThreeFormsAgree(Map(Kept(items)));
    ThreeFormsAgree(Map(Kept(Stored(items))));
    CanonIdempotent(Map(Kept(items)), false);
  }

  lemma {:induction false} HashEntryIgnored(items: seq<Item>, value: Value)
    ensures Kept(items + [Item(HASH_KEY, value)]) == Kept(items)
  {
    var full := items + [Item(HASH_KEY, value)];
    if items == [] {
      assert full[1..] == [];
    } else {
      HashEntryIgnored(items[1..], value);
      assert full[1..] == items[1..] + [Item(HASH_KEY, value)];
    }
  }

  /**
   A planned artifact re-hashes to its own `artifact_hash`: adding the hash entry, writing the file
   and reading it back leave both the hashed bytes and the entry as they were.
   */
  lemma {:induction false} PlannedArtifactRehashes(items: seq<Item>, hash: string)
    requires Canon(Map(items + [Item(HASH_KEY, Leaf(hash))]), false).Some?
    ensures var full := items + [Item(HASH_KEY, Leaf(hash))];
            HashText(Stored(full)) == HashText(items) && Item(HASH_KEY, Leaf(hash)) in Stored(full)
  {
    var entry := Item(HASH_KEY, Leaf(hash));
    var full := items + [entry];
    ReloadedHash(full);
    HashEntryIgnored(items, Leaf(hash));
    StoredHas(full, entry);
    assert entry in full && Becomes(entry, entry);
  }
}
