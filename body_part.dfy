/** The `BodyPart` class: a named node of the rig tree with one driving
    curve, its driven geometries, a link to its father and its children. */
module BodyParts {
  import opened Wrappers
  import opened Strings
  import opened Hierarchy

  /** The `geos` argument of the constructor and of `appendGeos`, which the
      source tells apart by its run-time type: `None`, a string, a list of
      strings, or any other value. */
  datatype GeoArg = NoGeo | Single(geo: string) | Many(geos: seq<string>) | Unsupported

  /** The geometries an argument stands for: none for `None` and for values
      of any other type, one for a string, all of them in order for a list. */
  function GeosOf(a: GeoArg): seq<string>
  {
    match a
    case NoGeo => []
    case Single(g) => [g]
    case Many(gs) => gs
    case Unsupported => []
  }

  /** The "has a mirrored version" flag of `__str__`: the upper-cased name
      contains `RIGHT` or `LEFT`. */
  predicate MirroredName(name: string)
  {
    Contains(Upper(name), "RIGHT") || Contains(Upper(name), "LEFT")
  }

  /** The flag holds exactly when `RIGHT` or `LEFT` starts at some index of
      the upper-cased name. */
  lemma MirroredNameIff(name: string)
    ensures MirroredName(name) <==>
      (exists i :: OccursAt(Upper(name), "RIGHT", i)) || (exists i :: OccursAt(Upper(name), "LEFT", i))
  {
    TagsOccur(name);
  }

  lemma TagsOccur(name: string)
    ensures (Contains(Upper(name), "RIGHT") || Contains(Upper(name), "LEFT")) <==>
      (exists i :: OccursAt(Upper(name), "RIGHT", i)) || (exists i :: OccursAt(Upper(name), "LEFT", i))
  {
    ContainsIff(Upper(name), "RIGHT");
    ContainsIff(Upper(name), "LEFT");
  }

  /** A part named after a left or right side tag is flagged as mirrored. */
  lemma SideTagMirrored(base: string, side: string)
    requires side == "left" || side == "right"
    ensures MirroredName(base + "_" + side)
  {
    var prefix := base + "_";
    UpperConcat(prefix, side);
    forall i | 0 <= i < |side| {
      UpperAt(side, i);
    }
    if side == "left" {
      assert Upper(side) == "LEFT";
      ContainsInfix(Upper(prefix), "LEFT", "");
      assert Upper(prefix) + "LEFT" + "" == Upper(prefix + side);
    } else {
      assert Upper(side) == "RIGHT";
      ContainsInfix(Upper(prefix), "RIGHT", "");
      assert Upper(prefix) + "RIGHT" + "" == Upper(prefix + side);
    }
  }

  class BodyPart {
    var name: string
    var drivingCurve: string
    var geos: seq<string>
    var father: BodyPart?
    var childs: seq<BodyPart>

    /** A part named `name_side`, driven by `curve`, with no father and no
        children yet. */
    constructor (name: string, side: string, curve: string, geos: GeoArg)
      ensures this.name == name + "_" + side
      ensures drivingCurve == curve
      ensures this.geos == GeosOf(geos)
      ensures father == null && childs == []
      ensures GetName() == name + "_" + side
      ensures GetFatherName() == None && GetChildsNames() == []
    {
      this.name := name + "_" + side;
      drivingCurve := curve;
      this.geos := [];
      if geos.Single? {
        this.geos := this.geos + [geos.geo];
      } else if geos.Many? {
        this.geos := geos.geos;
      }
      father := null;
      childs := [];
    }

    /** The name the part was built with, `name_side`. */
    function GetName(): (r: string)
      reads this
      ensures r == name
    {
      name
    }

    /** Adds one geometry for a string, every geometry of a list in order,
        and nothing for any other argument. */
    method AppendGeos(newGeo: GeoArg)
      modifies this`geos
      ensures geos == old(geos) + GeosOf(newGeo)
    {
      if newGeo.Single? {
        geos := geos + [newGeo.geo];
      } else if newGeo.Many? {
        geos := geos + newGeo.geos;
      }
    }

    /** The father's name, or `None` while no father has been defined. */
    function GetFatherName(): (r: Option<string>)
      reads this, father
      ensures r.Some? <==> father != null
      ensures father != null ==> r.value == father.name
    {
      if father != null then Some(father.GetName()) else None
    }

    /** The names of the children, in the order they were received. */
    function GetChildsNames(): (names: seq<string>)
      reads this, childs
      ensures |names| == |childs|
      ensures forall i :: 0 <= i < |childs| ==> names[i] == childs[i].name
    {
      seq(|childs|, i reads this, childs requires 0 <= i < |childs| => childs[i].GetName())
    }

    /** Makes `givenFather` this part's father and appends this part to the
        father's children. */
    method DefineFather(givenFather: BodyPart)
      modifies this`father, givenFather`childs
      ensures father == givenFather
      ensures givenFather.childs == old(givenFather.childs) + [this]
      ensures GetFatherName() == Some(givenFather.GetName())
      ensures givenFather.GetChildsNames() == old(givenFather.GetChildsNames()) + [name]
    {
      father := givenFather;
      givenFather.ReceiveChild(this);
    }

    /** Appends `receivedChild` to the children. */
    method ReceiveChild(receivedChild: BodyPart)
      modifies this`childs
      ensures childs == old(childs) + [receivedChild]
    {
      childs := childs + [receivedChild];
    }

    /** The "has a mirrored version" flag of `__str__`. */
    predicate HasMirroredVersion()
      reads this
      ensures HasMirroredVersion() <==>
        (exists i :: OccursAt(Upper(name), "RIGHT", i)) || (exists i :: OccursAt(Upper(name), "LEFT", i))
    {
      MirroredNameIff(name);
      MirroredName(name)
    }

    /** Annulates the driving curve, then annulates and parents each geometry
        under it, then for each child parents the child's curve under it and
        builds the child. The steps are those of the pre-order walk of the
        tree the part stands for. */
    method BuildHierarchy(ghost t: Tree, ghost nodes: set<BodyPart>) returns (steps: seq<Step>)
      requires Represents(this, t, nodes)
      ensures steps == HierarchyLog(t)
      ensures steps == Blocks(Visits(t, None))
      decreases t
    {
      steps := [Annulate(drivingCurve)];
      for i := 0 to |geos|
        invariant steps + GeoSteps(geos[i..], drivingCurve) == NodeSteps(t)
      {
        GeoStepsUnfold(geos, i, drivingCurve);
        steps := steps + [Annulate(geos[i]), Parent(geos[i], drivingCurve)];
      }
      assert geos[|geos|..] == [];
      for j := 0 to |childs|
        invariant steps + ChildSteps(t, j) == HierarchyLog(t)
      {
        var child := childs[j];
        var built := child.BuildHierarchy(t.children[j], nodes);
        ghost var rest := ChildSteps(t, j + 1);
        assert ChildSteps(t, j) == [Parent(child.drivingCurve, drivingCurve)] + built + rest;
        assert steps + ([Parent(child.drivingCurve, drivingCurve)] + built + rest)
            == (steps + [Parent(child.drivingCurve, drivingCurve)] + built) + rest;
        steps := steps + [Parent(child.drivingCurve, drivingCurve)] + built;
      }
      LogIsPreorderWalk(t);
    }
  }

  /** Part `n` and everything below it, inside `nodes`, has the shape and the
      names of tree `t`. Only a part graph without cycles below `n` can stand
      for a tree. */
  ghost predicate Represents(n: BodyPart, t: Tree, nodes: set<BodyPart>)
    reads nodes
    decreases t
  {
    && n in nodes
    && n.name == t.name
    && n.drivingCurve == t.curve
    && n.geos == t.geos
    && |n.childs| == |t.children|
    && forall i :: 0 <= i < |n.childs| ==> n.childs[i] in nodes && Represents(n.childs[i], t.children[i], nodes)
  }

  /** One turn of the geometry loop of `buildHierarchy`. */
  lemma GeoStepsUnfold(geos: seq<string>, i: int, curve: string)
    requires 0 <= i < |geos|
    ensures GeoSteps(geos[i..], curve) == [Annulate(geos[i]), Parent(geos[i], curve)] + GeoSteps(geos[i + 1..], curve)
  {
    assert geos[i..][1..] == geos[i + 1..];
  }

  /** Adding parts to the node set keeps a part standing for its tree. */
  lemma {:induction false} RepresentsGrow(n: BodyPart, t: Tree, nodes: set<BodyPart>, more: set<BodyPart>)
    requires Represents(n, t, nodes) && nodes <= more
    ensures Represents(n, t, more)
    decreases t
  {
    forall i | 0 <= i < |n.childs| {
      RepresentsGrow(n.childs[i], t.children[i], nodes, more);
    }
  }

  /** Below part `n`, down the shape of tree `t`, every child has the part
      it hangs under as its father: `defineFather` sets both links. This is
      kept apart from `Represents`, which `buildHierarchy` needs and which
      reads only the children. */
  ghost predicate FathersLinked(n: BodyPart, t: Tree, nodes: set<BodyPart>)
    reads nodes
    decreases t
  {
    && n in nodes
    && |n.childs| == |t.children|
    && forall i :: 0 <= i < |n.childs| ==>
         && n.childs[i] in nodes
         && n.childs[i].father == n
         && FathersLinked(n.childs[i], t.children[i], nodes)
  }

  /** Adding parts to the node set keeps the father links below a part. */
  lemma {:induction false} FathersLinkedGrow(n: BodyPart, t: Tree, nodes: set<BodyPart>, more: set<BodyPart>)
    requires FathersLinked(n, t, nodes) && nodes <= more
    ensures FathersLinked(n, t, more)
    decreases t
  {
    forall i | 0 <= i < |n.childs| {
      FathersLinkedGrow(n.childs[i], t.children[i], nodes, more);
    }
  }

  /** Every part of `parts` has a father, and that father is one of `nodes`. */
  ghost predicate FathersWithin(parts: set<BodyPart>, nodes: set<BodyPart>)
    reads parts
  {
    forall c {:trigger c.father} :: c in parts ==> c.father != null && c.father in nodes
  }
}
