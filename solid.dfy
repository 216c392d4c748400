/**
 * `Solid`: the base of the 3D drawables.  It keeps a 3D position, size,
 * origin, rotation and scale, mirrors position and size into the 2D
 * drawable's position, size and depth, has at most one camera as parent,
 * and derives its `SpaceDrawInfo` from its transform on every read.
 */
module Solids {
  import opened LinearAlgebra
  import opened Options
  import opened SpaceDrawInfos
  import opened Cameras

  /** The invalidations a solid raises. */
  datatype Invalidation = MiscGeometry | DrawNodeInvalidation | DrawSize | ParentChanged

  /** What assigning `Parent` does: nothing, a change, or one of its two exceptions. */
  datatype ParentOutcome = ParentUnchanged | ParentReplaced | ObjectDisposedError | MultipleContainersError

  /** The rotation a solid starts with in the source: the all-zero default quaternion. */
  const DefaultRotationAsWritten: Quaternion := Quaternion(0.0, 0.0, 0.0, 0.0)

  /** The info `DrawInfo` computes: the identity info after the solid's transform. */
  function DrawInfoOf(position: Vec3, scale: Vec3, rotation: Quaternion, origin: Vec3): SpaceDrawInfo {
    Transformed(NewSpaceDrawInfo(None, None), position, scale, rotation, origin)
  }

  /** With any rotation quaternion other than zero, the computed matrix and inverse undo each other. */
  lemma DrawInfoConsistent(position: Vec3, scale: Vec3, rotation: Quaternion, origin: Vec3)
    requires LengthSquared(rotation) != 0.0
    ensures Consistent(DrawInfoOf(position, scale, rotation, origin))
  {
    DefaultConsistent();
    TransformedConsistent(NewSpaceDrawInfo(None, None), position, scale, rotation, origin);
  }

  /**
   * A solid whose rotation was never assigned keeps the zero quaternion,
   * and its draw matrix then has no inverse at all.
   */
  lemma DefaultRotationAsWrittenSingular(position: Vec3, scale: Vec3, origin: Vec3, any: Matrix4)
    ensures Mul(DrawInfoOf(position, scale, DefaultRotationAsWritten, origin).matrix, any) != Identity
  {
    ZeroRotationLosesInverse(NewSpaceDrawInfo(None, None), position, scale, DefaultRotationAsWritten, origin, any);
  }

  /** With the identity quaternion as the starting rotation, a new solid's draw info is consistent. */
  lemma DefaultRotationConsistent(position: Vec3, scale: Vec3, origin: Vec3)
    ensures Consistent(DrawInfoOf(position, scale, IdentityQuaternion, origin))
  {
    DrawInfoConsistent(position, scale, IdentityQuaternion, origin);
  }

  /** The outcome of assigning `value` as parent, given whether the solid is disposed and its current parent. */
  function ParentAssignment(isDisposed: bool, current: Camera?, value: Camera?): (r: ParentOutcome)
    ensures isDisposed <==> r == ObjectDisposedError
    ensures r == ParentUnchanged <==> !isDisposed && current == value
    ensures r == MultipleContainersError <==> !isDisposed && current != null && value != null && current != value
  {
    if isDisposed then ObjectDisposedError
    else if current == value then ParentUnchanged
    else if value != null && current != null then MultipleContainersError
    else ParentReplaced
  }

  /**
   * A solid never moves from one camera straight to another: a successful
   * change either attaches a parentless solid or detaches it.
   */
  lemma ParentChangesThroughNull(isDisposed: bool, current: Camera?, value: Camera?)
    requires ParentAssignment(isDisposed, current, value) == ParentReplaced
    ensures current == null || value == null
    ensures current != value
  {}

  class Solid {
    var position: Vec3
    var size: Vec3
    /** The 2D drawable's position, size and depth, which the 3D setters write through. */
    var basePosition: Vec2
    var baseSize: Vec2
    var depth: real
    var parent: Camera?
    var isDisposed: bool
    var childID: int
    var originPosition: Vec3
    var rotation: Quaternion
    var scale: Vec3
    /** The invalidations raised so far, oldest first. */
    var invalidations: seq<Invalidation>
    /** The clock taken from the parent, if any. */
    var clock: Option<Clock>

    /**
     * A new solid: everything zero, unit scale, no parent.  The rotation
     * starts at the identity quaternion rather than at the zero default.
     */
    constructor ()
      ensures position == Zero3 && size == Zero3 && originPosition == Zero3
      ensures basePosition == Vec2(0.0, 0.0) && baseSize == Vec2(0.0, 0.0) && depth == 0.0
      ensures parent == null && !isDisposed && childID == 0
      ensures rotation == IdentityQuaternion && scale == One3
      ensures invalidations == [] && clock == None
    {
      position := Zero3;
      size := Zero3;
      basePosition := Vec2(0.0, 0.0);
      baseSize := Vec2(0.0, 0.0);
      depth := 0.0;
      parent := null;
      isDisposed := false;
      childID := 0;
      originPosition := Zero3;
      rotation := IdentityQuaternion;
      scale := One3;
      invalidations := [];
      clock := None;
    }

    /** `Position`: stores the 3D value, its x and y as the 2D position and its z as the depth. */
    method SetPosition(value: Vec3)
      modifies this`position, this`basePosition, this`depth
      ensures position == value && basePosition == value.Xy() && depth == value.z
    {
      position := value;
      basePosition := value.Xy();
      depth := value.z;
    }

    /** `Size`: stores the 3D value, its x and y as the 2D size and, again, its z as the depth. */
    method SetSize(value: Vec3)
      modifies this`size, this`baseSize, this`depth
      ensures size == value && baseSize == value.Xy() && depth == value.z
    {
      size := value;
      baseSize := value.Xy();
      depth := value.z;
    }

    /**
     * `Parent`: refused on a disposed solid; clearing resets the child id;
     * the current parent is a no-op; a second parent is refused; otherwise
     * the parent is stored, the solid invalidated and, for a camera, its
     * clock taken over.
     */
    method SetParent(value: Camera?) returns (outcome: ParentOutcome)
      modifies this`childID, this`parent, this`invalidations, this`clock
      ensures outcome == ParentAssignment(old(isDisposed), old(parent), value)
      ensures childID == if !isDisposed && value == null then 0 else old(childID)
      ensures outcome == ParentReplaced ==> parent == value
      ensures outcome != ParentReplaced ==> parent == old(parent)
      ensures invalidations == old(invalidations) + if outcome == ParentReplaced then [ParentChanged] else []
      ensures clock == if outcome == ParentReplaced && value != null then Some(value.clock) else old(clock)
    {
      if isDisposed {
        return ObjectDisposedError;
      }
      if value == null {
        childID := 0;
      }
      if parent == value {
        return ParentUnchanged;
      }
      if value != null && parent != null {
        return MultipleContainersError;
      }
      parent := value;
      invalidations := invalidations + [ParentChanged];
      if parent != null {
        clock := Some(parent.clock);
      }
      outcome := ParentReplaced;
    }

    /** `OriginPosition`: always stored, always invalidates the geometry. */
    method SetOriginPosition(value: Vec3)
      modifies this`originPosition, this`invalidations
      ensures originPosition == value
      ensures invalidations == old(invalidations) + [MiscGeometry]
    {
      originPosition := value;
      invalidations := invalidations + [MiscGeometry];
    }

    /** `Rotation`: a no-op for the current value, otherwise stored with a geometry invalidation. */
    method SetRotation(value: Quaternion)
      modifies this`rotation, this`invalidations
      ensures rotation == value
      ensures invalidations == old(invalidations) + if value == old(rotation) then [] else [MiscGeometry]
    {
      if value == rotation {
        return;
      }
      rotation := value;
      invalidations := invalidations + [MiscGeometry];
    }

    /** `Scale`: always stored, always invalidates the geometry. */
    method SetScale(value: Vec3)
      modifies this`scale, this`invalidations
      ensures scale == value
      ensures invalidations == old(invalidations) + [MiscGeometry]
    {
      scale := value;
      invalidations := invalidations + [MiscGeometry];
    }

    /** Disposal as far as this model sees it: the solid is marked disposed. */
    method Dispose()
      modifies this`isDisposed
      ensures isDisposed
    {
      isDisposed := true;
    }

    /** The draw info the current transform gives. */
    function CurrentDrawInfo(): SpaceDrawInfo
      reads this
    {
      DrawInfoOf(position, scale, rotation, originPosition)
    }

    /**
     * `DrawInfo`: computed afresh on every read from the identity info and
     * the current transform (consistent whenever the rotation is not zero,
     * by `DrawInfoConsistent`).
     */
    method ComputeDrawInfo() returns (di: SpaceDrawInfo)
      ensures di == CurrentDrawInfo()
    {
      di := NewSpaceDrawInfo(None, None);
      di := ApplyTransform(di, position, scale, rotation, originPosition);
    }
  }
}
