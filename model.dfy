// The print-bed model of src/lib/slicer/Model.ts: a Model holds a list of
// ModelObjects, a map of ModelMaterials and a metadata map; a ModelObject
// holds volumes, instances and a cached bounding box guarded by a validity
// flag.
//
// ModelVolume and ModelInstance are declarations only in the source, so the
// model keeps them as values carrying what the modelled code reads of them,
// and whatever their constructors or methods would compute is passed in.

module Models {
  import opened Wrappers
  import opened Points
  import BoundingBoxes

  /**
   * A ModelVolume as ModelObject sees it: the modifier flag, its mesh's face
   * count (mesh.faces.length) and the box its bounding_box() returns.
   */
  datatype Volume = Volume(modifier: bool, facets: nat, box: BoundingBoxes.Box3)

  /** A ModelInstance: rotation, scaling factor and offset on the bed. */
  datatype Instance = Instance(rotation: real, scalingFactor: real, offset: Pointf)

  const EmptyBox: BoundingBoxes.Box3 := BoundingBoxes.Box3(false, BoundingBoxes.Unset)

  /** Every volume box carries corners, which merge reads. */
  predicate VolumeBoxesSet(vs: seq<Volume>)
  {
    forall i :: 0 <= i < |vs| ==> vs[i].box.corners.Set?
  }

  /** The placement of a box by an instance (transform_bounding_box) always yields corners. */
  ghost predicate PlacementSet(place: (Instance, BoundingBoxes.Box3) -> BoundingBoxes.Box3)
  {
    forall inst, b :: place(inst, b).corners.Set?
  }

  // ------------------------------------------------------------- facets

  /** facets_count(): the faces of the non-modifier volumes, counted left to right. */
  function FacetCount(vs: seq<Volume>): (r: nat)
    ensures r == 0 <==> forall i :: 0 <= i < |vs| ==> vs[i].modifier || vs[i].facets == 0
  {
    if |vs| == 0 then 0
    else
      var prefix := vs[..|vs| - 1];
      assert forall i :: 0 <= i < |prefix| ==> prefix[i] == vs[i];
      FacetCount(prefix) + (if vs[|vs| - 1].modifier then 0 else vs[|vs| - 1].facets)
  }

  /** The volumes that are not modifiers, in order. */
  function Solids(vs: seq<Volume>): (r: seq<Volume>)
    ensures |r| <= |vs|
    ensures forall i :: 0 <= i < |r| ==> !r[i].modifier && r[i] in vs
  {
    if |vs| == 0 then []
    else Solids(vs[..|vs| - 1]) + (if vs[|vs| - 1].modifier then [] else [vs[|vs| - 1]])
  }

  /** Counting is additive over concatenation. */
  lemma {:induction false} FacetCountAppend(vs: seq<Volume>, ws: seq<Volume>)
    ensures FacetCount(vs + ws) == FacetCount(vs) + FacetCount(ws)
    decreases |ws|
  {
    if |ws| > 0 {
      var n := |ws|;
      assert (vs + ws)[..|vs + ws| - 1] == vs + ws[..n - 1];
      FacetCountAppend(vs, ws[..n - 1]);
    } else {
      assert vs + ws == vs;
    }
  }

  /** Modifier volumes contribute no facets: the count equals the total over the solid volumes. */
  lemma {:induction false} FacetCountSolids(vs: seq<Volume>)
    ensures FacetCount(vs) == FacetCount(Solids(vs))
    ensures forall i :: 0 <= i < |Solids(vs)| ==> !Solids(vs)[i].modifier
    decreases |vs|
  {
    if |vs| > 0 {
      var n := |vs|;
      FacetCountSolids(vs[..n - 1]);
      var tail := if vs[n - 1].modifier then [] else [vs[n - 1]];
      FacetCountAppend(Solids(vs[..n - 1]), tail);
      assert FacetCount(tail) == (if vs[n - 1].modifier then 0 else vs[n - 1].facets) by {
        if !vs[n - 1].modifier {
          assert tail[..0] == [];
        }
      }
    }
  }

  // --------------------------------------------------------- bounding box

  /** update_bounding_box's first loop: merge the boxes of the non-modifier volumes into an undefined box. */
  function RawBox(vs: seq<Volume>): (r: BoundingBoxes.Box3)
    requires VolumeBoxesSet(vs)
    ensures r.defined ==> r.corners.Set?
  {
    if |vs| == 0 then EmptyBox
    else
      var b := RawBox(vs[..|vs| - 1]);
      if vs[|vs| - 1].modifier then b else BoundingBoxes.MergeBox3(b, vs[|vs| - 1].box)
  }

  /** update_bounding_box's second loop: merge each instance's placement of the raw box. */
  function PlacedBox(insts: seq<Instance>, raw: BoundingBoxes.Box3, place: (Instance, BoundingBoxes.Box3) -> BoundingBoxes.Box3): (r: BoundingBoxes.Box3)
    requires PlacementSet(place)
    ensures r.defined ==> r.corners.Set?
  {
    if |insts| == 0 then EmptyBox
    else BoundingBoxes.MergeBox3(PlacedBox(insts[..|insts| - 1], raw, place), place(insts[|insts| - 1], raw))
  }

  /** The box update_bounding_box stores. */
  function ObjectBox(vs: seq<Volume>, insts: seq<Instance>, place: (Instance, BoundingBoxes.Box3) -> BoundingBoxes.Box3): BoundingBoxes.Box3
    requires VolumeBoxesSet(vs) && PlacementSet(place)
  {
    PlacedBox(insts, RawBox(vs), place)
  }

  /** r's lower corner is below b's and r's upper corner above b's, on every axis. */
  predicate Encloses(r: BoundingBoxes.Box3, b: BoundingBoxes.Box3)
    requires b.corners.Set? && r.corners.Set?
  {
    var rc, bc := r.corners, b.corners;
    rc.min.x <= bc.min.x && rc.min.y <= bc.min.y && rc.min.z <= bc.min.z
    && bc.max.x <= rc.max.x && bc.max.y <= rc.max.y && bc.max.z <= rc.max.z
  }

  /**
   * The raw box is defined exactly when some volume is not a modifier, and
   * then it encloses the box of every non-modifier volume.
   */
  lemma {:induction false} RawBoxCovers(vs: seq<Volume>)
    requires VolumeBoxesSet(vs)
    ensures RawBox(vs).defined <==> exists i :: 0 <= i < |vs| && !vs[i].modifier
    ensures RawBox(vs).defined ==> forall i :: 0 <= i < |vs| && !vs[i].modifier ==> Encloses(RawBox(vs), vs[i].box)
    decreases |vs|
  {
    if |vs| > 0 {
      var n := |vs|;
      var prefix := vs[..n - 1];
      assert forall i :: 0 <= i < n - 1 ==> prefix[i] == vs[i];
      RawBoxCovers(prefix);
    }
  }

  /**
   * The placed box is defined exactly when there is an instance, and then it
   * encloses every instance's placement of the raw box.
   */
  lemma {:induction false} PlacedBoxCovers(insts: seq<Instance>, raw: BoundingBoxes.Box3, place: (Instance, BoundingBoxes.Box3) -> BoundingBoxes.Box3)
    requires PlacementSet(place)
    ensures PlacedBox(insts, raw, place).defined <==> |insts| > 0
    ensures |insts| > 0 ==> forall i :: 0 <= i < |insts| ==> Encloses(PlacedBox(insts, raw, place), place(insts[i], raw))
    decreases |insts|
  {
    var n := |insts|;
    if n > 0 {
      var prefix := insts[..n - 1];
      assert forall i :: 0 <= i < n - 1 ==> prefix[i] == insts[i];
      PlacedBoxCovers(prefix, raw, place);
    }
  }

  // ------------------------------------------------- the instance-list defect

  /**
   * The instance list a ModelObject constructor leaves, as written. The field
   * has no initialiser and the constructor only pushes into it when copying,
   * so a fresh object's list stays undefined (None). `source` is the object
   * copied from, if any, given by its own list, which stays undefined unless
   * clear_instances has run on it: copying such a source throws on `forEach`,
   * and copying a defined, non-empty list throws on the first `push`.
   */
  function ConstructedInstancesAsWritten(source: Option<Option<seq<Instance>>>): (r: Result<Option<seq<Instance>>>)
    ensures r.Ok? ==> r.value.None?
    ensures r.Err? <==> source.Some? && (source.value.None? || |source.value.value| > 0)
  {
    match source
    case None => Ok(None)
    case Some(None) => Err("Cannot read properties of undefined (reading 'forEach')")
    case Some(Some(insts)) => if |insts| == 0 then Ok(None) else Err("Cannot read properties of undefined (reading 'push')")
  }

  /**
   * No constructed object ever gets an instance list, so `instances.length`
   * throws on every one of them, and copying such an object throws as well
   * (unless clear_instances has since given it a list), while the intended
   * constructor copies any list.
   */
  lemma InstancesAsWrittenNeverDefined(source: Option<Option<seq<Instance>>>)
    ensures !(ConstructedInstancesAsWritten(source).Ok? && ConstructedInstancesAsWritten(source).value.Some?)
    ensures ConstructedInstancesAsWritten(None) == Ok(None)
    ensures ConstructedInstancesAsWritten(Some(None)).Err?
    ensures var one := Instance(0.0, 1.0, Pointf(0.0, 0.0));
            ConstructedInstancesAsWritten(Some(Some([one]))).Err? && ConstructedInstances(Some([one])) == [one]
  {
  }

  /** The intended list: empty for a fresh object, a copy of the source's instances otherwise. */
  function ConstructedInstances(source: Option<seq<Instance>>): (r: seq<Instance>)
    ensures source.None? ==> r == []
    ensures source.Some? ==> r == source.value
  {
    match source
    case None => []
    case Some(insts) => insts
  }

  // ------------------------------------------------------ object snapshot

  /** The modelled fields of a ModelObject, as one value. */
  datatype ObjectState = ObjectState(
    name: string,
    partNumber: int,
    volumes: seq<Volume>,
    instances: seq<Instance>,
    box: BoundingBoxes.Box3,
    boxValid: bool)

  const NewObject: ObjectState := ObjectState("", -1, [], ConstructedInstances(None), EmptyBox, false)

  /** The copy constructor: scalar fields and the cached box copied, volumes re-added when asked, instances re-added. */
  function CopyOf(s: ObjectState, copyVolumes: bool): (r: ObjectState)
    ensures r.name == s.name && r.partNumber == s.partNumber && r.box == s.box
    ensures r.volumes == (if copyVolumes then s.volumes else [])
    ensures r.instances == s.instances
    ensures r.boxValid <==> s.boxValid && !(copyVolumes && |s.volumes| > 0)
  {
    var vs := if copyVolumes then s.volumes else [];
    ObjectState(s.name, s.partNumber, vs, ConstructedInstances(Some(s.instances)), s.box, s.boxValid && |vs| == 0)
  }

  /** A copy that carries the volumes has the source's facet count and bounding box inputs. */
  lemma CopyKeepsGeometry(s: ObjectState)
    ensures var c := CopyOf(s, true);
            FacetCount(c.volumes) == FacetCount(s.volumes) && c.instances == s.instances
    ensures var c := CopyOf(s, true);
            VolumeBoxesSet(s.volumes) ==> VolumeBoxesSet(c.volumes) && RawBox(c.volumes) == RawBox(s.volumes)
    ensures FacetCount(CopyOf(s, false).volumes) == 0
  {
  }

  // ------------------------------------------------------------ ModelObject

  class ModelObject {
    var name: string
    var partNumber: int
    var volumes: seq<Volume>
    var instances: seq<Instance>
    var box: BoundingBoxes.Box3
    var boxValid: bool

    function State(): ObjectState
      reads this
    {
      ObjectState(name, partNumber, volumes, instances, box, boxValid)
    }

    /** new ModelObject(model, other, copy_volumes), with the instance list initialised. */
    constructor(other: ModelObject?, copyVolumes: bool)
      ensures other == null ==> State() == NewObject
      ensures other != null ==> State() == CopyOf(old(other.State()), copyVolumes)
    {
      name := "";
      partNumber := -1;
      volumes := [];
      instances := [];
      box := EmptyBox;
      boxValid := false;
      new;
      if other != null {
        name := other.name;
        partNumber := other.partNumber;
        box := other.box;
        boxValid := other.boxValid;
        var sourceVolumes, sourceInstances := other.volumes, other.instances;
        if copyVolumes {
          for i := 0 to |sourceVolumes|
            invariant volumes == sourceVolumes[..i]
            invariant boxValid <==> other.boxValid && i == 0
            invariant instances == [] && name == other.name && partNumber == other.partNumber && box == other.box
          {
            var _ := AddVolume(sourceVolumes[i]);
          }
        }
        for i := 0 to |sourceInstances|
          invariant instances == sourceInstances[..i]
          invariant volumes == (if copyVolumes then sourceVolumes else [])
          invariant boxValid <==> other.boxValid && !(copyVolumes && |sourceVolumes| > 0)
          invariant name == other.name && partNumber == other.partNumber && box == other.box
        {
          var _ := AddInstance(sourceInstances[i]);
        }
      }
    }

    /** add_volume: append the volume and drop the cached box. */
    method AddVolume(volume: Volume) returns (r: Volume)
      modifies this
      ensures r == volume
      ensures volumes == old(volumes) + [volume] && !boxValid
      ensures instances == old(instances) && name == old(name) && partNumber == old(partNumber) && box == old(box)
    {
      volumes := volumes + [volume];
      InvalidateBoundingBox();
      r := volume;
    }

    /** delete_volume: throws on an index outside the list; otherwise removes exactly that volume. */
    method DeleteVolume(idx: int) returns (r: Result<()>)
      modifies this
      ensures r.Err? <==> idx < 0 || idx >= |old(volumes)|
      ensures r.Err? ==> r.error == "Invalid volume index" && State() == old(State())
      ensures r.Ok? ==> volumes == old(volumes[..idx]) + old(volumes[idx + 1..]) && !boxValid
      ensures r.Ok? ==> instances == old(instances) && name == old(name) && partNumber == old(partNumber) && box == old(box)
    {
      if idx < 0 || idx >= |volumes| {
        return Err("Invalid volume index");
      }
      volumes := volumes[..idx] + volumes[idx + 1..];
      InvalidateBoundingBox();
      return Ok(());
    }

    /** clear_volumes. */
    method ClearVolumes()
      modifies this
      ensures volumes == [] && !boxValid
      ensures instances == old(instances) && name == old(name) && partNumber == old(partNumber) && box == old(box)
    {
      volumes := [];
      InvalidateBoundingBox();
    }

    /** add_instance: append the instance built by the ModelInstance constructor. */
    method AddInstance(instance: Instance) returns (r: Instance)
      modifies this
      ensures r == instance
      ensures instances == old(instances) + [instance]
      ensures volumes == old(volumes) && name == old(name) && partNumber == old(partNumber)
      ensures box == old(box) && boxValid == old(boxValid)
    {
      instances := instances + [instance];
      r := instance;
    }

    /** delete_instance: throws on an index outside the list; otherwise removes exactly that instance. */
    method DeleteInstance(idx: int) returns (r: Result<()>)
      modifies this
      ensures r.Err? <==> idx < 0 || idx >= |old(instances)|
      ensures r.Err? ==> r.error == "Invalid instance index"
      ensures r.Ok? ==> instances == old(instances[..idx]) + old(instances[idx + 1..])
      ensures r.Err? ==> instances == old(instances)
      ensures volumes == old(volumes) && name == old(name) && partNumber == old(partNumber)
      ensures box == old(box) && boxValid == old(boxValid)
    {
      if idx < 0 || idx >= |instances| {
        return Err("Invalid instance index");
      }
      instances := instances[..idx] + instances[idx + 1..];
      return Ok(());
    }

    /** delete_last_instance: throws exactly when there is no instance; otherwise drops the last one. */
    method DeleteLastInstance() returns (r: Result<()>)
      modifies this
      ensures r.Err? <==> |old(instances)| == 0
      ensures r.Ok? ==> instances == old(instances[..|instances| - 1])
      ensures r.Ok? ==> |instances| == |old(instances)| - 1
      ensures r.Err? ==> instances == old(instances)
      ensures volumes == old(volumes) && name == old(name) && partNumber == old(partNumber)
      ensures box == old(box) && boxValid == old(boxValid)
    {
      r := DeleteInstance(|instances| - 1);
    }

    /** clear_instances. */
    method ClearInstances()
      modifies this
      ensures instances == []
      ensures volumes == old(volumes) && name == old(name) && partNumber == old(partNumber)
      ensures box == old(box) && boxValid == old(boxValid)
    {
      instances := [];
    }

    /** invalidate_bounding_box. */
    method InvalidateBoundingBox()
      modifies this
      ensures !boxValid
      ensures volumes == old(volumes) && instances == old(instances) && name == old(name)
      ensures partNumber == old(partNumber) && box == old(box)
    {
      boxValid := false;
    }

    /** update_bounding_box: the two merge loops, then the cache is marked valid. */
    method UpdateBoundingBox(place: (Instance, BoundingBoxes.Box3) -> BoundingBoxes.Box3)
      requires VolumeBoxesSet(volumes) && PlacementSet(place)
      modifies this
      ensures volumes == old(volumes) && instances == old(instances) && name == old(name) && partNumber == old(partNumber)
      ensures box == ObjectBox(volumes, instances, place) && boxValid
    {
      var raw := EmptyBox;
      for i := 0 to |volumes|
        invariant raw == RawBox(volumes[..i])
      {
        assert volumes[..i + 1][..i] == volumes[..i];
        if !volumes[i].modifier {
          raw := BoundingBoxes.MergeBox3(raw, volumes[i].box);
        }
      }
      assert volumes[..|volumes|] == volumes;
      var bb := EmptyBox;
      for i := 0 to |instances|
        invariant bb == PlacedBox(instances[..i], raw, place)
      {
        assert instances[..i + 1][..i] == instances[..i];
        bb := BoundingBoxes.MergeBox3(bb, place(instances[i], raw));
      }
      assert instances[..|instances|] == instances;
      box := bb;
      boxValid := true;
    }

    /**
     * bounding_box: recompute only when the cache is invalid; either way the
     * cache is valid afterwards and the returned box is the cached one.
     */
    method BoundingBox(place: (Instance, BoundingBoxes.Box3) -> BoundingBoxes.Box3) returns (b: BoundingBoxes.Box3)
      requires VolumeBoxesSet(volumes) && PlacementSet(place)
      modifies this
      ensures volumes == old(volumes) && instances == old(instances) && name == old(name) && partNumber == old(partNumber)
      ensures boxValid && b == box
      ensures old(boxValid) ==> State() == old(State())
      ensures !old(boxValid) ==> b == ObjectBox(volumes, instances, place)
    {
      if !boxValid {
        UpdateBoundingBox(place);
      }
      b := box;
    }

    /** facets_count: the loop over the volumes, skipping modifiers. */
    method FacetsCount() returns (count: nat)
      ensures count == FacetCount(volumes)
    {
      count := 0;
      for i := 0 to |volumes|
        invariant count == FacetCount(volumes[..i])
      {
        assert volumes[..i + 1][..i] == volumes[..i];
        if !volumes[i].modifier {
          count := count + volumes[i].facets;
        }
      }
      assert volumes[..|volumes|] == volumes;
    }
  }

  /** A second bounding_box call changes nothing and returns the first call's box. */
  method BoundingBoxTwice(o: ModelObject, place: (Instance, BoundingBoxes.Box3) -> BoundingBoxes.Box3) returns (b1: BoundingBoxes.Box3, b2: BoundingBoxes.Box3)
    requires VolumeBoxesSet(o.volumes) && PlacementSet(place)
    modifies o
    ensures o.volumes == old(o.volumes) && o.instances == old(o.instances)
    ensures b1 == b2 && o.boxValid && o.box == b1
    ensures !old(o.boxValid) ==> b1 == ObjectBox(o.volumes, o.instances, place)
  {
    b1 := o.BoundingBox(place);
    ghost var mid := o.State();
    b2 := o.BoundingBox(place);
    assert o.State() == mid;
  }

  // ---------------------------------------------------------- ModelMaterial

  class ModelMaterial {
    var attributes: map<string, string>

    /** new ModelMaterial(model, other): a copy of the other's attributes, or none. */
    constructor(other: ModelMaterial?)
      ensures attributes == (if other == null then map[] else old(other.attributes))
    {
      if other == null {
        attributes := map[];
      } else {
        attributes := other.attributes;
      }
    }

    /** apply, as intended: every entry of the given map is set under its own key, in insertion order. */
    method Apply(entries: seq<(string, string)>)
      modifies this
      ensures attributes == Applied(old(attributes), entries)
    {
      for i := 0 to |entries|
        invariant attributes == Applied(old(attributes), entries[..i])
      {
        assert entries[..i + 1][..i] == entries[..i];
        attributes := attributes[entries[i].0 := entries[i].1];
      }
      assert entries[..|entries|] == entries;
    }
  }

  /** Setting the (key, value) entries of a Map, in its insertion order. */
  function Applied(attrs: map<string, string>, entries: seq<(string, string)>): map<string, string>
  {
    if |entries| == 0 then attrs
    else Applied(attrs, entries[..|entries| - 1])[entries[|entries| - 1].0 := entries[|entries| - 1].1]
  }

  /** The keys of a Map's entry list are distinct. */
  predicate DistinctKeys(entries: seq<(string, string)>)
  {
    forall i, j :: 0 <= i < j < |entries| ==> entries[i].0 != entries[j].0
  }

  /**
   * After apply, each given entry's key maps to its value, the other keys
   * keep their old values, and no other key appears.
   */
  lemma {:induction false} AppliedSetsEntries(attrs: map<string, string>, entries: seq<(string, string)>)
    requires DistinctKeys(entries)
    ensures forall i :: 0 <= i < |entries| ==> entries[i].0 in Applied(attrs, entries) && Applied(attrs, entries)[entries[i].0] == entries[i].1
    ensures forall k :: k in Applied(attrs, entries) <==> k in attrs || exists i :: 0 <= i < |entries| && entries[i].0 == k
    ensures forall k :: k in attrs && (forall i :: 0 <= i < |entries| ==> entries[i].0 != k) ==> Applied(attrs, entries)[k] == attrs[k]
    decreases |entries|
  {
    if |entries| > 0 {
      var n := |entries|;
      var prefix := entries[..n - 1];
      assert forall i :: 0 <= i < n - 1 ==> prefix[i] == entries[i];
      AppliedSetsEntries(attrs, prefix);
    }
  }

  /**
   * apply as written: Map.forEach hands the callback (value, key), which the
   * source names (k, v), so each entry is stored with key and value swapped.
   */
  function AppliedAsWritten(attrs: map<string, string>, entries: seq<(string, string)>): (r: map<string, string>)
    ensures forall i :: 0 <= i < |entries| ==> entries[i].1 in r
    ensures forall k :: k in r ==> k in attrs || exists i :: 0 <= i < |entries| && entries[i].1 == k
  {
    if |entries| == 0 then attrs
    else AppliedAsWritten(attrs, entries[..|entries| - 1])[entries[|entries| - 1].1 := entries[|entries| - 1].0]
  }

  /** Applying { color: red } as written stores red -> color and leaves color unset. */
  lemma ApplyAsWrittenSwaps()
    ensures var e := [("color", "red")];
            AppliedAsWritten(map[], e) == map["red" := "color"]
            && "color" !in AppliedAsWritten(map[], e)
            && Applied(map[], e) == map["color" := "red"]
  {
    var e := [("color", "red")];
    assert e[..0] == [];
  }

  // ------------------------------------------------------------------ Model

  /** Some object in the list has no instance (Array.prototype.some, left to right). */
  function AnyWithoutInstances(objects: seq<ModelObject>): (r: bool)
    reads set o | o in objects
    ensures r <==> exists i :: 0 <= i < |objects| && |objects[i].instances| == 0
  {
    if |objects| == 0 then false
    else |objects[0].instances| == 0 || AnyWithoutInstances(objects[1..])
  }

  class Model {
    var materials: map<string, ModelMaterial>
    var objects: seq<ModelObject>
    var metadata: map<string, string>

    constructor()
      ensures materials == map[] && objects == [] && metadata == map[]
    {
      materials := map[];
      objects := [];
      metadata := map[];
    }

    /** swap: exchange materials, objects and metadata with the other model. */
    method Swap(other: Model)
      modifies this, other
      ensures materials == old(other.materials) && other.materials == old(materials)
      ensures objects == old(other.objects) && other.objects == old(objects)
      ensures metadata == old(other.metadata) && other.metadata == old(metadata)
    {
      var m, o, d := materials, objects, metadata;
      materials := other.materials;
      other.materials := m;
      objects := other.objects;
      other.objects := o;
      metadata := other.metadata;
      other.metadata := d;
    }

    /** add_object: append exactly one new object, built by the ModelObject constructor, and return it. */
    method AddObject(other: ModelObject?, copyVolumes: bool) returns (created: ModelObject)
      modifies this
      ensures fresh(created) && objects == old(objects) + [created]
      ensures other == null ==> created.State() == NewObject
      ensures other != null ==> created.State() == CopyOf(old(other.State()), copyVolumes)
      ensures materials == old(materials) && metadata == old(metadata)
    {
      created := new ModelObject(other, copyVolumes);
      objects := objects + [created];
    }

    /** merge: a copy, volumes included, of each of the other's objects, appended in order. */
    method Merge(other: Model)
      modifies this
      ensures |objects| == |old(objects)| + |old(other.objects)|
      ensures objects[..|old(objects)|] == old(objects)
      ensures forall k :: 0 <= k < |old(other.objects)| ==>
                fresh(objects[|old(objects)| + k]) && objects[|old(objects)| + k].State() == CopyOf(old(other.objects[k].State()), true)
      ensures materials == old(materials) && metadata == old(metadata)
    {
      var source := other.objects;
      ghost var n := |objects|;
      for i := 0 to |source|
        invariant |objects| == n + i && objects[..n] == old(objects)
        invariant forall j :: n <= j < n + i ==> fresh(objects[j])
        invariant forall j :: n <= j < n + i ==> objects[j].State() == CopyOf(old(source[j - n].State()), true)
        invariant materials == old(materials) && metadata == old(metadata)
        invariant forall k :: 0 <= k < |source| ==> source[k].State() == old(source[k].State())
      {
        ghost var before := objects;
        var created := AddObject(source[i], true);
        assert objects == before + [created];
      }
    }

    /** delete_object: throws on an index outside the list; otherwise removes exactly that entry, keeping the order. */
    method DeleteObject(idx: int) returns (r: Result<()>)
      modifies this
      ensures r.Err? <==> idx < 0 || idx >= |old(objects)|
      ensures r.Err? ==> r.error == "Invalid object index" && objects == old(objects)
      ensures r.Ok? ==> objects == old(objects[..idx]) + old(objects[idx + 1..])
      ensures materials == old(materials) && metadata == old(metadata)
    {
      if idx < 0 || idx >= |objects| {
        return Err("Invalid object index");
      }
      objects := objects[..idx] + objects[idx + 1..];
      return Ok(());
    }

    /** clear_objects. */
    method ClearObjects()
      modifies this
      ensures objects == [] && materials == old(materials) && metadata == old(metadata)
    {
      objects := [];
    }

    /** get_material: the material stored under the id, or null. */
    function GetMaterial(id: string): (r: ModelMaterial?)
      reads this
      ensures r != null <==> id in materials
      ensures id in materials ==> r == materials[id]
    {
      if id in materials then materials[id] else null
    }

    /**
     * add_material: with a source, always store a fresh copy under the id;
     * without one, return the stored material or store and return a fresh one.
     */
    method AddMaterial(id: string, other: ModelMaterial?) returns (material: ModelMaterial)
      modifies this
      ensures other != null ==> fresh(material) && material.attributes == old(other.attributes) && materials == old(materials)[id := material]
      ensures other == null && id in old(materials) ==> material == old(materials[id]) && materials == old(materials)
      ensures other == null && id !in old(materials) ==> fresh(material) && material.attributes == map[] && materials == old(materials)[id := material]
      ensures objects == old(objects) && metadata == old(metadata)
    {
      if other != null {
        material := new ModelMaterial(other);
        materials := materials[id := material];
      } else {
        var existing := GetMaterial(id);
        if existing == null {
          material := new ModelMaterial(null);
          materials := materials[id := material];
        } else {
          material := existing;
        }
      }
    }

    /** delete_material: removes that key only. */
    method DeleteMaterial(id: string)
      modifies this
      ensures materials == old(materials) - {id}
      ensures objects == old(objects) && metadata == old(metadata)
    {
      materials := materials - {id};
    }

    /** clear_materials. */
    method ClearMaterials()
      modifies this
      ensures materials == map[] && objects == old(objects) && metadata == old(metadata)
    {
      materials := map[];
    }

    /** has_objects_with_no_instances. */
    function HasObjectsWithNoInstances(): (r: bool)
      reads this, set o | o in objects
      ensures r <==> exists i :: 0 <= i < |objects| && |objects[i].instances| == 0
    {
      AnyWithoutInstances(objects)
    }

    /**
     * add_default_instances: give each object without instances one defaultInstance
     * instance (built by the ModelInstance constructor, passed in); report
     * whether any was added.
     */
    method AddDefaultInstances(defaultInstance: Instance) returns (added: bool)
      modifies set o | o in objects
      ensures added <==> exists i :: 0 <= i < |objects| && |old(objects[i].instances)| == 0
      ensures forall i :: 0 <= i < |objects| ==>
                objects[i].instances == (if |old(objects[i].instances)| == 0 then [defaultInstance] else old(objects[i].instances))
      ensures forall i :: 0 <= i < |objects| ==> objects[i].volumes == old(objects[i].volumes) && objects[i].boxValid == old(objects[i].boxValid)
      ensures forall i :: 0 <= i < |objects| ==>
                objects[i].name == old(objects[i].name) && objects[i].partNumber == old(objects[i].partNumber) && objects[i].box == old(objects[i].box)
      ensures !HasObjectsWithNoInstances()
    {
      added := false;
      for i := 0 to |objects|
        invariant added <==> exists j :: 0 <= j < i && |old(objects[j].instances)| == 0
        invariant forall o | o in objects ::
                    o.instances == (if o in objects[..i] && |old(o.instances)| == 0 then [defaultInstance] else old(o.instances))
                    && o.volumes == old(o.volumes) && o.boxValid == old(o.boxValid)
                    && o.name == old(o.name) && o.partNumber == old(o.partNumber) && o.box == old(o.box)
      {
        var obj := objects[i];
        assert objects[..i + 1] == objects[..i] + [obj];
        if |obj.instances| == 0 {
          var _ := obj.AddInstance(defaultInstance);
          added := true;
        }
      }
      assert objects[..|objects|] == objects;
    }
  }
}
