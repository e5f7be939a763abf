// NodeDatabase: the registry of navigation points, with id and name lookup
// maps and a nearest-node query.

module NodeRegistry {
  import opened Wrappers
  import opened Spatial
  import opened Text

  /**
   * The data of a Node component: its id and display name (None for a null
   * string) and its transform's position and forward direction.
   */
  datatype Node = Node(nodeId: Option<string>, displayName: Option<string>, position: Vec3, forward: Vec3)

  /** Which of the two lookup maps: idMap keyed by nodeId, nameMap keyed by displayName. */
  datatype KeyField = ById | ByName

  function FieldOf(n: Node, f: KeyField): Option<string>
  {
    match f
    case ById => n.nodeId
    case ByName => n.displayName
  }

  /** A scene entry that goes into the map for f: a live node whose field is not blank. */
  predicate Indexed(n: Option<Node>, f: KeyField)
  {
    n.Some? && !IsNullOrWhiteSpace(FieldOf(n.value, f))
  }

  function KeyOf(n: Node, f: KeyField): string
    requires FieldOf(n, f).Some?
  {
    Key(FieldOf(n, f).value)
  }

  predicate Matches(n: Option<Node>, f: KeyField, k: string)
  {
    Indexed(n, f) && KeyOf(n.value, f) == k
  }

  /** The map BuildDictionaries leaves after its loop has seen `nodes`, in order. */
  function BuildIndex(nodes: seq<Option<Node>>, f: KeyField): map<string, Node>
  {
    if nodes == [] then map[]
    else
      var m := BuildIndex(nodes[..|nodes| - 1], f);
      var n := nodes[|nodes| - 1];
      if Indexed(n, f) && KeyOf(n.value, f) !in m then m[KeyOf(n.value, f) := n.value] else m
  }

  /** Reference definition of a lookup: the first node in sequence order whose key is k. */
  function FirstWith(nodes: seq<Option<Node>>, f: KeyField, k: string): Option<Node>
  {
    if nodes == [] then None
    else if Matches(nodes[0], f, k) then Some(nodes[0].value)
    else FirstWith(nodes[1..], f, k)
  }

  function Lookup(m: map<string, Node>, k: string): Option<Node>
  {
    if k in m then Some(m[k]) else None
  }

  lemma {:induction false} FirstWithSnoc(nodes: seq<Option<Node>>, n: Option<Node>, f: KeyField, k: string)
    ensures FirstWith(nodes + [n], f, k)
         == if FirstWith(nodes, f, k).Some? then FirstWith(nodes, f, k)
            else if Matches(n, f, k) then Some(n.value) else None
  {
    if nodes != [] {
      assert (nodes + [n])[1..] == nodes[1..] + [n];
      FirstWithSnoc(nodes[1..], n, f, k);
    }
  }

  /** The map holds, for every key, exactly the first registered node with that key ("first wins"). */
  lemma {:induction false} IndexIsFirstMatch(nodes: seq<Option<Node>>, f: KeyField, k: string)
    ensures Lookup(BuildIndex(nodes, f), k) == FirstWith(nodes, f, k)
  {
    if nodes != [] {
      var init := nodes[..|nodes| - 1];
      var n := nodes[|nodes| - 1];
      assert nodes == init + [n];
      IndexIsFirstMatch(init, f, k);
      FirstWithSnoc(init, n, f, k);
      if Indexed(n, f) {
        IndexIsFirstMatch(init, f, KeyOf(n.value, f));
      }
    }
  }

  /** FirstWith returns a node of the sequence carrying the key, and no earlier node carries it. */
  lemma {:induction false} FirstWithIsFirst(nodes: seq<Option<Node>>, f: KeyField, k: string)
    ensures FirstWith(nodes, f, k).None? <==> forall j :: 0 <= j < |nodes| ==> !Matches(nodes[j], f, k)
    ensures FirstWith(nodes, f, k).Some? ==>
      exists i :: 0 <= i < |nodes| && nodes[i] == FirstWith(nodes, f, k) && Matches(nodes[i], f, k)
                  && forall j :: 0 <= j < i ==> !Matches(nodes[j], f, k)
  {
    if nodes != [] {
      FirstWithIsFirst(nodes[1..], f, k);
      if Matches(nodes[0], f, k) {
        assert nodes[0] == FirstWith(nodes, f, k);
      } else if FirstWith(nodes[1..], f, k).Some? {
        var i :| 0 <= i < |nodes[1..]| && nodes[1..][i] == FirstWith(nodes[1..], f, k) && Matches(nodes[1..][i], f, k)
                 && forall j :: 0 <= j < i ==> !Matches(nodes[1..][j], f, k);
        assert nodes[i + 1] == FirstWith(nodes, f, k);
        assert forall j :: 0 <= j < i + 1 ==> !Matches(nodes[j], f, k) by {
          forall j | 0 <= j < i + 1
            ensures !Matches(nodes[j], f, k)
          {
            if j > 0 {
              assert nodes[j] == nodes[1..][j - 1];
            }
          }
        }
      } else {
        forall j | 0 <= j < |nodes|
          ensures !Matches(nodes[j], f, k)
        {
          if j > 0 {
            assert nodes[j] == nodes[1..][j - 1];
          }
        }
      }
    }
  }

  /** Every key in a lookup map is non-empty and in normal form (lower case, trimmed). */
  lemma {:induction false} IndexKeysAreKeys(nodes: seq<Option<Node>>, f: KeyField, k: string)
    requires k in BuildIndex(nodes, f)
    ensures k != "" && IsKey(k) && Key(k) == k
    ensures Matches(Some(BuildIndex(nodes, f)[k]), f, k)
  {
    var init := nodes[..|nodes| - 1];
    var n := nodes[|nodes| - 1];
    if k in BuildIndex(init, f) {
      IndexKeysAreKeys(init, f, k);
    } else {
      var raw := FieldOf(n.value, f).value;
      KeyEmptyIffBlank(raw);
      KeyIsKey(raw);
      KeyOfKey(k);
    }
  }

  /** The state of NearestNode's loop (best node, best distance) after scanning `nodes`. */
  function NearestScan(nodes: seq<Option<Node>>, pos: Vec3): (Option<Node>, real)
  {
    if nodes == [] then (None, FloatMax)
    else
      var (best, bestDist) := NearestScan(nodes[..|nodes| - 1], pos);
      var n := nodes[|nodes| - 1];
      if n.Some? && SqrDistance(pos, n.value.position) < bestDist
      then (n, SqrDistance(pos, n.value.position))
      else (best, bestDist)
  }

  function SqrDistanceAt(nodes: seq<Option<Node>>, pos: Vec3, i: int): real
    requires 0 <= i < |nodes| && nodes[i].Some?
  {
    SqrDistance(pos, nodes[i].value.position)
  }

  /**
   * Index i holds the nearest node: no live node is strictly closer, every
   * earlier live node is strictly farther, and it is closer than float.MaxValue.
   */
  predicate IsFirstNearest(nodes: seq<Option<Node>>, pos: Vec3, i: int)
  {
    0 <= i < |nodes| && nodes[i].Some? && SqrDistanceAt(nodes, pos, i) < FloatMax
    && (forall j :: 0 <= j < |nodes| && nodes[j].Some? ==> SqrDistanceAt(nodes, pos, i) <= SqrDistanceAt(nodes, pos, j))
    && (forall j :: 0 <= j < i && nodes[j].Some? ==> SqrDistanceAt(nodes, pos, j) > SqrDistanceAt(nodes, pos, i))
  }

  /** NearestNode is an argmin over squared distance whose ties go to the earliest node. */
  lemma {:induction false} NearestScanIsFirstNearest(nodes: seq<Option<Node>>, pos: Vec3)
    ensures NearestScan(nodes, pos).0.None? <==>
      forall j :: 0 <= j < |nodes| && nodes[j].Some? ==> SqrDistanceAt(nodes, pos, j) >= FloatMax
    ensures NearestScan(nodes, pos).0.None? ==> NearestScan(nodes, pos).1 == FloatMax
    ensures NearestScan(nodes, pos).0.Some? ==>
      exists i :: IsFirstNearest(nodes, pos, i) && nodes[i] == NearestScan(nodes, pos).0
                  && NearestScan(nodes, pos).1 == SqrDistanceAt(nodes, pos, i)
  {
    if nodes != [] {
      var init := nodes[..|nodes| - 1];
      var last := |nodes| - 1;
      NearestScanIsFirstNearest(init, pos);
      var (best, bestDist) := NearestScan(init, pos);
      assert forall j :: 0 <= j < last ==> nodes[j] == init[j];
      if nodes[last].Some? && SqrDistanceAt(nodes, pos, last) < bestDist {
        assert IsFirstNearest(nodes, pos, last);
      } else if best.Some? {
        var i :| IsFirstNearest(init, pos, i) && init[i] == best && bestDist == SqrDistanceAt(init, pos, i);
        assert IsFirstNearest(nodes, pos, i);
      }
    }
  }

  /** The registry's result for `FindByNameOrId`: id match first, then name match. */
  function ByNameOrId(nodes: seq<Option<Node>>, value: Option<string>): Option<Node>
  {
    if IsNullOrWhiteSpace(value) then None
    else
      var byId := FirstWith(nodes, ById, Key(value.value));
      if byId.Some? then byId else FirstWith(nodes, ByName, Key(value.value))
  }

  /** The scan loop of NearestNode, over the registry's node array. */
  method NearestAmong(nodes: seq<Option<Node>>, pos: Vec3) returns (best: Option<Node>)
    ensures best == NearestScan(nodes, pos).0
    ensures best.None? <==> forall j :: 0 <= j < |nodes| && nodes[j].Some? ==> SqrDistanceAt(nodes, pos, j) >= FloatMax
    ensures best.Some? ==> exists i :: IsFirstNearest(nodes, pos, i) && nodes[i] == best
  {
    best := None;
    var bestDist := FloatMax;
    for i := 0 to |nodes|
      invariant (best, bestDist) == NearestScan(nodes[..i], pos)
    {
      assert nodes[..i + 1][..i] == nodes[..i];
      var n := nodes[i];
      if n.None? {
        continue;
      }
      var d := SqrDistance(pos, n.value.position);
      if d < bestDist {
        bestDist := d;
        best := n;
      }
    }
    assert nodes[..|nodes|] == nodes;
    NearestScanIsFirstNearest(nodes, pos);
  }

  class NodeDatabase {
    var nodes: seq<Option<Node>>
    var idMap: map<string, Node>
    var nameMap: map<string, Node>

    /** Both maps are the ones BuildDictionaries builds from the current node array. */
    ghost predicate Valid()
      reads this
    {
      idMap == BuildIndex(nodes, ById) && nameMap == BuildIndex(nodes, ByName)
    }

    constructor ()
      ensures Valid() && nodes == []
    {
      nodes := [];
      idMap := map[];
      nameMap := map[];
    }

    /** Refresh: take the Node components currently in the scene and rebuild both maps. */
    method Refresh(scene: seq<Option<Node>>)
      modifies this
      ensures Valid() && nodes == scene
    {
      nodes := scene;
      BuildDictionaries();
    }

    method BuildDictionaries()
      modifies this
      ensures Valid() && nodes == old(nodes)
    {
      idMap := map[];
      nameMap := map[];
      for i := 0 to |nodes|
        invariant nodes == old(nodes)
        invariant idMap == BuildIndex(nodes[..i], ById)
        invariant nameMap == BuildIndex(nodes[..i], ByName)
      {
        assert nodes[..i + 1][..i] == nodes[..i];
        var n := nodes[i];
        if n.None? {
          continue;
        }
        if !IsNullOrWhiteSpace(n.value.nodeId) {
          var idKey := Key(n.value.nodeId.value);
          if idKey in idMap {
            // duplicate id: a warning is logged and the later node is ignored
          } else {
            idMap := idMap[idKey := n.value];
          }
        }
        if !IsNullOrWhiteSpace(n.value.displayName) {
          var nameKey := Key(n.value.displayName.value);
          if nameKey in nameMap {
            // duplicate display name: a warning is logged and the later node is ignored
          } else {
            nameMap := nameMap[nameKey := n.value];
          }
        }
      }
      assert nodes[..|nodes|] == nodes;
    }

    /** FindNodeById: the first registered node whose normalised id equals the normalised query. */
    function FindNodeById(id: Option<string>): (r: Option<Node>)
      reads this
      requires Valid()
      ensures r == if IsNullOrWhiteSpace(id) then None else FirstWith(nodes, ById, Key(id.value))
    {
      if IsNullOrWhiteSpace(id) then None
      else
        var key := Key(id.value);
        IndexIsFirstMatch(nodes, ById, key);
        if key in idMap then Some(idMap[key]) else None
    }

    /** FindByNameOrId: the id match when there is one, otherwise the name match. */
    function FindByNameOrId(value: Option<string>): (r: Option<Node>)
      reads this
      requires Valid()
      ensures r == ByNameOrId(nodes, value)
      ensures r.Some? ==> exists i :: 0 <= i < |nodes| && nodes[i] == r
    {
      if IsNullOrWhiteSpace(value) then None
      else
        var key := Key(value.value);
        IndexIsFirstMatch(nodes, ById, key);
        IndexIsFirstMatch(nodes, ByName, key);
        FirstWithIsFirst(nodes, ById, key);
        FirstWithIsFirst(nodes, ByName, key);
        if key in idMap then Some(idMap[key])
        else if key in nameMap then Some(nameMap[key])
        else None
    }

    /**
     * NearestNode: refreshes from the scene when the node array is empty, then
     * returns the first node at minimal squared distance from pos.
     */
    method NearestNode(pos: Vec3, scene: seq<Option<Node>>) returns (best: Option<Node>)
      requires Valid()
      modifies this
      ensures Valid()
      ensures old(nodes) != [] ==> unchanged(this)
      ensures old(nodes) == [] ==> nodes == scene
      ensures best == NearestScan(nodes, pos).0
    {
      if |nodes| == 0 {
        Refresh(scene);
      }
      best := NearestAmong(nodes, pos);
    }
  }
}
