/** The table of configuration item definitions (config/metadata.go). */
module ConfigMetadata {
  import opened Wrappers
  import opened ConfigTypes

  /** Item: one configuration key with its default, type and bookkeeping. */
  datatype Item = Item(
    scope: string,
    group: string,
    environmentKey: string,
    defaultValue: string,
    name: string,
    itemType: Type,
    editable: bool,
    description: string)

  /** The table InitFromArray builds: each item under its own name, later items
      replacing earlier ones of the same name. */
  function ItemsByName(items: seq<Item>): (m: map<string, Item>)
    ensures m.Keys == set i | 0 <= i < |items| :: items[i].name
  {
    if items == [] then map[]
    else
      var last := items[|items| - 1];
      var m := ItemsByName(items[..|items| - 1])[last.name := last];
      assert m.Keys == (set i | 0 <= i < |items| - 1 :: items[i].name) + {last.name} by {
        assert forall i :: 0 <= i < |items| - 1 ==> items[..|items| - 1][i] == items[i];
      }
      m
  }

  /** The item a reader of the array expects under a name: the last one carrying it. */
  predicate IsLastNamed(items: seq<Item>, name: string, i: int) {
    0 <= i < |items| && items[i].name == name
    && forall j :: i < j < |items| ==> items[j].name != name
  }

  /** For a duplicated name the later item wins. */
  lemma {:induction false} LaterItemWins(items: seq<Item>, name: string, i: int)
    requires IsLastNamed(items, name, i)
    ensures name in ItemsByName(items) && ItemsByName(items)[name] == items[i]
  {
    var n := |items|;
    if i < n - 1 {
      var init := items[..n - 1];
      assert IsLastNamed(init, name, i);
      LaterItemWins(init, name, i);
    }
  }

  class ConfigMetaData {
    var metaMap: map<string, Item>

    /** newConfigMetaData: an empty table. */
    constructor ()
      ensures metaMap == map[]
    {
      metaMap := map[];
    }

    /** InitFromArray: the previous contents are discarded. */
    method InitFromArray(items: seq<Item>)
      modifies this
      ensures metaMap == ItemsByName(items)
    {
      metaMap := map[];
      for i := 0 to |items|
        invariant metaMap == ItemsByName(items[..i])
      {
        assert items[..i + 1][..i] == items[..i];
        metaMap := metaMap[items[i].name := items[i]];
      }
      assert items[..|items|] == items;
    }

    /** Register: insert or overwrite exactly the given name, whatever the item's
        own Name field says. */
    method Register(name: string, item: Item)
      modifies this
      ensures metaMap == old(metaMap)[name := item]
    {
      metaMap := metaMap[name := item];
    }

    /** GetByName: the item and true exactly when the name is present. */
    function GetByName(name: string): (r: Option<Item>)
      reads this
      ensures r.Some? <==> name in metaMap
      ensures r.Some? ==> r.value == metaMap[name]
    {
      if name in metaMap then Some(metaMap[name]) else None
    }

    /** GetAll: every registered item once, in the map's (unspecified) iteration
        order, given by the ghost out-parameter names. */
    method GetAll() returns (list: seq<Item>, ghost names: seq<string>)
      ensures |list| == |metaMap| == |names|
      ensures forall i, j :: 0 <= i < j < |names| ==> names[i] != names[j]
      ensures forall i :: 0 <= i < |names| ==> names[i] in metaMap && list[i] == metaMap[names[i]]
      ensures forall n :: n in metaMap ==> n in names
      ensures forall x :: x in list <==> x in metaMap.Values
    {
      list, names := [], [];
      var rest := metaMap.Keys;
      while rest != {}
        invariant rest <= metaMap.Keys
        invariant |list| == |names|
        invariant forall i, j :: 0 <= i < j < |names| ==> names[i] != names[j]
        invariant forall i :: 0 <= i < |names| ==> names[i] in metaMap && names[i] !in rest && list[i] == metaMap[names[i]]
        invariant forall n :: n in metaMap ==> n in names || n in rest
        decreases rest
      {
        var n :| n in rest;
        list, names := list + [metaMap[n]], names + [n];
        rest := rest - {n};
      }
      DistinctCover(names, metaMap.Keys);
      forall x | x in metaMap.Values ensures x in list {
        var n :| n in metaMap && metaMap[n] == x;
        var i :| 0 <= i < |names| && names[i] == n;
        assert list[i] == x;
      }
    }
  }

  /** A duplicate-free listing of exactly the elements of a set is as long as the set. */
  lemma {:induction false} DistinctCover<T>(names: seq<T>, keys: set<T>)
    requires forall i, j :: 0 <= i < j < |names| ==> names[i] != names[j]
    requires forall i :: 0 <= i < |names| ==> names[i] in keys
    requires forall n :: n in keys ==> n in names
    ensures |names| == |keys|
  {
    if names != [] {
      var last := names[|names| - 1];
      var init := names[..|names| - 1];
      forall n | n in keys - {last} ensures n in init {
        var k :| 0 <= k < |names| && names[k] == n;
        assert k < |names| - 1;
        assert init[k] == n;
      }
      DistinctCover(init, keys - {last});
    }
  }

  /** The process-wide singleton behind Instance(), created on first use. */
  class MetaDataHolder {
    var instance: ConfigMetaData?

    constructor ()
      ensures instance == null
    {
      instance := null;
    }

    /** Instance: the first call creates an empty table, every call returns the same one. */
    method Instance() returns (md: ConfigMetaData)
      modifies this
      ensures old(instance) == null ==> fresh(md) && md.metaMap == map[]
      ensures old(instance) != null ==> md == old(instance)
      ensures instance == md
    {
      if instance == null {
        instance := new ConfigMetaData();
      }
      md := instance;
    }
  }
}
