/**
 * `PlaceholderProcessor._flatten` (scripts/placeholder_processor.py): a nested
 * configuration becomes a flat context whose keys are the nested keys joined
 * with `_`. A list of dictionaries is flattened element by element under
 * `key_<i>`; at the first element that is not a dictionary the whole list is
 * stored under `key` and the scan stops.
 */
module PlaceholderFlatten {
  import opened PyText
  import opened PyValues

  /** The flat lookup table placeholders are resolved against. */
  type Context = map<string, Value>

  /** `f"{parent_key}{sep}{k}" if parent_key else k` with `sep = "_"`. */
  function ComposeKey(parent: string, k: string): string {
    if parent != "" then parent + "_" + k else k
  }

  /** `f"{new_key}{sep}{i}"`: the key prefix of the i-th dictionary in a list. */
  function ItemKey(key: string, i: nat): string {
    key + "_" + NatToString(i)
  }

  /** The context `_flatten(d, parent)` returns: each entry's part, later parts winning. */
  function FlattenEntries(d: Dict, parent: string): Context
    decreases d
  {
    if d == [] then map[]
    else
      var n := |d| - 1;
      FlattenEntries(d[..n], parent) + FlattenValue(ComposeKey(parent, d[n].key), d[n].val)
  }

  /** The part one entry with composed key `key` and value `v` contributes. */
  function FlattenValue(key: string, v: Value): Context
    decreases v
  {
    match v
    case VMap(sub) => FlattenEntries(sub, key)
    case VList(xs) => FlattenList(key, xs, 0)
    case _ => map[key := v]
  }

  /** The part of a list from position `i` on. */
  function FlattenList(key: string, xs: seq<Value>, i: nat): Context
    decreases xs, |xs| - i
  {
    if i >= |xs| then map[]
    else if xs[i].VMap? then FlattenEntries(xs[i].entries, ItemKey(key, i)) + FlattenList(key, xs, i + 1)
    else map[key := VList(xs)]
  }

  /** The part the entry at position `i` of `d` contributes. */
  function Contribution(d: Dict, parent: string, i: nat): Context
    requires i < |d|
  {
    FlattenValue(ComposeKey(parent, d[i].key), d[i].val)
  }

  lemma MapUnionAssoc(a: Context, b: Context, c: Context)
    ensures a + (b + c) == (a + b) + c
  {
  }

  lemma FlattenEntriesStep(d: Dict, parent: string, i: nat)
    requires i < |d|
    ensures FlattenEntries(d[..i + 1], parent) == FlattenEntries(d[..i], parent) + Contribution(d, parent, i)
  {
    assert d[..i + 1][..i] == d[..i];
  }

  /** `_flatten` as the source writes it: a loop that updates `items`. */
  method Flatten(d: Dict, parentKey: string) returns (items: Context)
    ensures items == FlattenEntries(d, parentKey)
    decreases d, 2
  {
    items := map[];
    var i := 0;
    while i < |d|
      invariant 0 <= i <= |d|
      invariant items == FlattenEntries(d[..i], parentKey)
    {
      var k, v := d[i].key, d[i].val;
      var newKey := if parentKey != "" then parentKey + "_" + k else k;
      FlattenEntriesStep(d, parentKey, i);
      items := FlattenEntryInto(items, newKey, v);
      i := i + 1;
    }
    assert d[..|d|] == d;
  }

  /** One pass of the loop of `_flatten`: the entry `newKey: v` merged into `items`. */
  method FlattenEntryInto(items0: Context, newKey: string, v: Value) returns (items: Context)
    ensures items == items0 + FlattenValue(newKey, v)
    decreases v, 1
  {
    match v {
      case VMap(sub) =>
        var subItems := Flatten(sub, newKey);
        items := items0 + subItems;
      case VList(xs) =>
        items := FlattenListInto(items0, newKey, xs);
      case _ =>
        items := items0[newKey := v];
    }
  }

  /** The inner loop of `_flatten` over a list value, with its early `break`. */
  method FlattenListInto(items0: Context, newKey: string, xs: seq<Value>) returns (items: Context)
    ensures items == items0 + FlattenList(newKey, xs, 0)
    decreases xs, 0
  {
    items := items0;
    var j := 0;
    while j < |xs|
      invariant 0 <= j <= |xs|
      invariant items0 + FlattenList(newKey, xs, 0) == items + FlattenList(newKey, xs, j)
    {
      if xs[j].VMap? {
        var subItems := Flatten(xs[j].entries, newKey + "_" + NatToString(j));
        MapUnionAssoc(items, subItems, FlattenList(newKey, xs, j + 1));
        items := items + subItems;
      } else {
        items := items[newKey := VList(xs)];
        return;
      }
      j := j + 1;
    }
  }

  // ---------------------------------------------------------------------------
  // Properties of the flat context

  predicate HasPrefix(s: string, p: string) {
    |p| <= |s| && s[..|p|] == p
  }

  /** A context value is never a dictionary, and a list in it is never empty. */
  predicate IsContextValue(v: Value) {
    !v.VMap? && (v.VList? ==> |v.items| > 0)
  }

  /** Every key under a non-empty parent is `parent_...`. */
  lemma {:induction false} FlattenEntriesKeys(d: Dict, parent: string)
    requires parent != ""
    ensures forall k :: k in FlattenEntries(d, parent) ==> HasPrefix(k, parent + "_")
    decreases d
  {
    if d != [] {
      var n := |d| - 1;
      FlattenEntriesKeys(d[..n], parent);
      var key := ComposeKey(parent, d[n].key);
      FlattenValueKeys(key, d[n].val);
      forall k | k in FlattenValue(key, d[n].val)
        ensures HasPrefix(k, parent + "_")
      {
        assert HasPrefix(k, key);
        assert k[..|parent + "_"|] == key[..|parent + "_"|];
      }
    }
  }

  /** Every key an entry with composed key `key` contributes is `key` or `key_...`. */
  lemma {:induction false} FlattenValueKeys(key: string, v: Value)
    requires key != ""
    ensures forall k :: k in FlattenValue(key, v) ==> k == key || HasPrefix(k, key + "_")
    decreases v
  {
    match v
    case VMap(sub) => FlattenEntriesKeys(sub, key);
    case VList(xs) => FlattenListKeys(key, xs, 0);
    case _ =>
  }

  lemma {:induction false} FlattenListKeys(key: string, xs: seq<Value>, i: nat)
    requires key != ""
    ensures forall k :: k in FlattenList(key, xs, i) ==> k == key || HasPrefix(k, key + "_")
    decreases xs, |xs| - i
  {
    if i < |xs| && xs[i].VMap? {
      var ik := ItemKey(key, i);
      FlattenEntriesKeys(xs[i].entries, ik);
      FlattenListKeys(key, xs, i + 1);
      forall k | k in FlattenEntries(xs[i].entries, ik)
        ensures HasPrefix(k, key + "_")
      {
        assert HasPrefix(k, ik + "_");
        assert k[..|key + "_"|] == (ik + "_")[..|key + "_"|];
      }
    }
  }

  /** Flattening leaves only scalars and non-empty lists in the context. */
  lemma {:induction false} FlattenEntriesValues(d: Dict, parent: string)
    ensures forall k :: k in FlattenEntries(d, parent) ==> IsContextValue(FlattenEntries(d, parent)[k])
    decreases d
  {
    if d != [] {
      var n := |d| - 1;
      FlattenEntriesValues(d[..n], parent);
      FlattenValueValues(ComposeKey(parent, d[n].key), d[n].val);
    }
  }

  lemma {:induction false} FlattenValueValues(key: string, v: Value)
    ensures forall k :: k in FlattenValue(key, v) ==> IsContextValue(FlattenValue(key, v)[k])
    decreases v
  {
    match v
    case VMap(sub) => FlattenEntriesValues(sub, key);
    case VList(xs) => FlattenListValues(key, xs, 0);
    case _ =>
  }

  lemma {:induction false} FlattenListValues(key: string, xs: seq<Value>, i: nat)
    ensures forall k :: k in FlattenList(key, xs, i) ==> IsContextValue(FlattenList(key, xs, i)[k])
    decreases xs, |xs| - i
  {
    if i < |xs| && xs[i].VMap? {
      FlattenEntriesValues(xs[i].entries, ItemKey(key, i));
      FlattenListValues(key, xs, i + 1);
    }
  }

  /**
   * `items.update(...)` is last-writer-wins: a key is in the context exactly
   * when some entry contributes it ...
   */
  lemma {:induction false} FlattenDomain(d: Dict, parent: string, k: string)
    ensures k in FlattenEntries(d, parent) <==> exists i :: 0 <= i < |d| && k in Contribution(d, parent, i)
    decreases |d|
  {
    if d != [] {
      var n := |d| - 1;
      FlattenDomain(d[..n], parent, k);
      forall i | 0 <= i < n
        ensures Contribution(d, parent, i) == Contribution(d[..n], parent, i)
      {
      }
      assert FlattenEntries(d, parent) == FlattenEntries(d[..n], parent) + Contribution(d, parent, n);
    }
  }

  /** ... and it holds the value of the last entry that contributes it. */
  lemma {:induction false} FlattenLastWriter(d: Dict, parent: string, i: nat, k: string)
    requires i < |d| && k in Contribution(d, parent, i)
    requires forall j :: i < j < |d| ==> k !in Contribution(d, parent, j)
    ensures k in FlattenEntries(d, parent)
    ensures FlattenEntries(d, parent)[k] == Contribution(d, parent, i)[k]
    decreases |d|
  {
    var n := |d| - 1;
    FlattenEntriesLast(d, parent);
    if i < n {
      forall j | i < j < n
        ensures k !in Contribution(d[..n], parent, j)
      {
        ContributionOfPrefix(d, parent, n, j);
      }
      ContributionOfPrefix(d, parent, n, i);
      FlattenLastWriter(d[..n], parent, i, k);
      assert k !in Contribution(d, parent, n);
    }
  }

  lemma FlattenEntriesLast(d: Dict, parent: string)
    requires d != []
    ensures FlattenEntries(d, parent) == FlattenEntries(d[..|d| - 1], parent) + Contribution(d, parent, |d| - 1)
  {
  }

  lemma ContributionOfPrefix(d: Dict, parent: string, n: nat, j: nat)
    requires j < n <= |d|
    ensures Contribution(d[..n], parent, j) == Contribution(d, parent, j)
  {
    assert d[..n][j] == d[j];
  }

  /** A scalar is copied verbatim under its composed key unless a later entry overwrites it. */
  lemma FlattenCopiesScalar(d: Dict, parent: string, i: nat)
    requires i < |d| && IsScalar(d[i].val)
    requires forall j :: i < j < |d| ==> ComposeKey(parent, d[i].key) !in Contribution(d, parent, j)
    ensures ComposeKey(parent, d[i].key) in FlattenEntries(d, parent)
    ensures FlattenEntries(d, parent)[ComposeKey(parent, d[i].key)] == d[i].val
  {
    FlattenLastWriter(d, parent, i, ComposeKey(parent, d[i].key));
  }

  /** Once a list holds an element that is not a dictionary, the whole list is stored under its key. */
  lemma {:induction false} FlattenListStoresWhole(key: string, xs: seq<Value>, i: nat, j: nat)
    requires i <= j < |xs| && !xs[j].VMap?
    ensures key in FlattenList(key, xs, i) && FlattenList(key, xs, i)[key] == VList(xs)
    decreases j - i
  {
    if xs[i].VMap? {
      FlattenListStoresWhole(key, xs, i + 1, j);
    }
  }

  /** Elements after the first one that is not a dictionary are never looked at. */
  lemma {:induction false} FlattenListIgnoresTail(key: string, xs: seq<Value>, ys: seq<Value>, i: nat, j: nat)
    requires i <= j < |xs| && !xs[j].VMap?
    ensures FlattenList(key, xs + ys, i) == FlattenList(key, xs, i)[key := VList(xs + ys)]
    decreases j - i
  {
    var zs := xs + ys;
    assert zs[i] == xs[i];
    if xs[i].VMap? {
      FlattenListIgnoresTail(key, xs, ys, i + 1, j);
      FlattenListStoresWhole(key, xs, i + 1, j);
    }
  }

  /** A list of dictionaries leaves no key of its own, only `key_<i>_...` keys. */
  lemma {:induction false} FlattenListOfDicts(key: string, xs: seq<Value>, i: nat)
    requires forall j :: 0 <= j < |xs| ==> xs[j].VMap?
    ensures forall k :: k in FlattenList(key, xs, i) ==>
      exists j :: i <= j < |xs| && HasPrefix(k, ItemKey(key, j) + "_")
    decreases |xs| - i
  {
    if i < |xs| {
      FlattenEntriesKeys(xs[i].entries, ItemKey(key, i));
      FlattenListOfDicts(key, xs, i + 1);
    }
  }

  /** In particular the list's own key is absent. */
  lemma FlattenListOfDictsNoOwnKey(key: string, xs: seq<Value>)
    requires forall j :: 0 <= j < |xs| ==> xs[j].VMap?
    ensures key !in FlattenValue(key, VList(xs))
  {
    FlattenListOfDicts(key, xs, 0);
    forall j | 0 <= j < |xs|
      ensures !HasPrefix(key, ItemKey(key, j) + "_")
    {
      assert |ItemKey(key, j) + "_"| > |key|;
    }
  }
}
