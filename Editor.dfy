/**
 * The gizmo axis state of the editor (rae/editor/EditorSystem.hpp, class IGizmo): per-axis
 * hover and active flags in two three-element arrays, a visibility flag and a position.
 */
module Editor {
  import opened Types

  datatype Axis = X | Y | Z

  /** `(int)Axis::Count`. */
  const AxisCount: nat := 3

  function AxisIndex(a: Axis): (i: nat)
    ensures i < AxisCount
  {
    match a
    case X => 0
    case Y => 1
    case Z => 2
  }

  /** The cast `(Axis)i`. */
  function AxisOf(i: nat): (a: Axis)
    requires i < AxisCount
    ensures AxisIndex(a) == i
  {
    if i == 0 then X else if i == 1 then Y else Z
  }

  class Gizmo {
    var visible: bool
    var position: Vec3
    const hovers: array<bool>
    const actives: array<bool>

    ghost predicate Valid()
      reads this
    {
      hovers.Length == AxisCount && actives.Length == AxisCount && hovers != actives
    }

    /** Some axis is hovered. */
    ghost predicate AnyHovered()
      reads this, hovers
    {
      exists i :: 0 <= i < hovers.Length && hovers[i]
    }

    /** Some axis is active. */
    ghost predicate AnyActive()
      reads this, actives
    {
      exists i :: 0 <= i < actives.Length && actives[i]
    }

    /** The member initialisers: invisible, nothing hovered, nothing active. */
    constructor ()
      ensures Valid() && fresh(hovers) && fresh(actives)
      ensures !visible
      ensures hovers[..] == [false, false, false] && actives[..] == [false, false, false]
      ensures !AnyHovered() && !AnyActive()
    {
      visible := false;
      position := Vec3(0.0, 0.0, 0.0);
      hovers := new bool[3] [false, false, false];
      actives := new bool[3] [false, false, false];
    }

    function Position(): Vec3
      reads this
    {
      position
    }

    method SetPosition(p: Vec3)
      modifies this
      ensures Position() == p
      ensures visible == old(visible)
    {
      position := p;
    }

    function IsVisible(): bool
      reads this
    {
      visible
    }

    method Show()
      modifies this
      ensures IsVisible()
      ensures position == old(position)
    {
      visible := true;
    }

    method Hide()
      modifies this
      ensures !IsVisible()
      ensures position == old(position)
    {
      visible := false;
    }

    /** `isHovered()`: scan the axes, stop at the first hovered one. */
    method IsHovered() returns (r: bool)
      requires Valid()
      ensures r <==> AnyHovered()
    {
      var i := 0;
      while i < AxisCount
        invariant 0 <= i <= AxisCount
        invariant forall j :: 0 <= j < i ==> !hovers[j]
      {
        if hovers[i] {
          return true;
        }
        i := i + 1;
      }
      return false;
    }

    /** `isActive()`: scan the axes, stop at the first active one. */
    method IsActive() returns (r: bool)
      requires Valid()
      ensures r <==> AnyActive()
    {
      var i := 0;
      while i < AxisCount
        invariant 0 <= i <= AxisCount
        invariant forall j :: 0 <= j < i ==> !actives[j]
      {
        if actives[i] {
          return true;
        }
        i := i + 1;
      }
      return false;
    }

    /**
     * `getActiveAxis()`: the lowest-index active axis. The source has no return past its loop,
     * so calling it with no active axis is undefined; the model requires an active axis.
     */
    method GetActiveAxis() returns (a: Axis)
      requires Valid() && AnyActive()
      ensures actives[AxisIndex(a)]
      ensures forall j :: 0 <= j < AxisIndex(a) ==> !actives[j]
    {
      var i := 0;
      while i < AxisCount
        invariant 0 <= i <= AxisCount
        invariant forall j :: 0 <= j < i ==> !actives[j]
      {
        if actives[i] {
          return AxisOf(i);
        }
        i := i + 1;
      }
      assert false;
      a := X;
    }

    /** `activateHovered()`: copy every hover flag into the active flag of the same axis. */
    method ActivateHovered()
      requires Valid()
      modifies actives
      ensures actives[..] == hovers[..]
      ensures hovers[..] == old(hovers[..])
      ensures AnyActive() == AnyHovered()
    {
      var i := 0;
      while i < AxisCount
        invariant 0 <= i <= AxisCount
        invariant forall j :: 0 <= j < i ==> actives[j] == hovers[j]
      {
        actives[i] := hovers[i];
        i := i + 1;
      }
      assert forall j :: 0 <= j < AxisCount ==> actives[j] == hovers[j];
    }

    /** `deactivate()`: clear every active flag. */
    method Deactivate()
      requires Valid()
      modifies actives
      ensures actives[..] == [false, false, false]
      ensures !AnyActive()
      ensures hovers[..] == old(hovers[..])
    {
      var i := 0;
      while i < AxisCount
        invariant 0 <= i <= AxisCount
        invariant forall j :: 0 <= j < i ==> !actives[j]
      {
        actives[i] := false;
        i := i + 1;
      }
    }
  }
}
