/** The axis setters of the Liskov Substitution example
    (DesignPatterns/SOLID/LiskovSubstitutionPrinciple.cs). Axis values are only
    ever assigned, so the C# `double` is modelled as `real`. */
module Liskov {

  /** The class an `Ellipse_Lsp` object was created as; it decides which
      overrides of the virtual setters run. */
  datatype EllipseClass = EllipseLsp | CircleLsp | CircleV1Lsp

  /** `Ellipse_Lsp` together with its subclasses `Circle_Lsp` and `Circle_v1_Lsp`. */
  class Ellipse {
    const dynamicClass: EllipseClass
    var majorAxis: real
    var minorAxis: real

    /** Both axes are equal. */
    predicate IsRound()
      reads this
    {
      majorAxis == minorAxis
    }

    /** `new Ellipse_Lsp()`, `new Circle_Lsp()` or `new Circle_v1_Lsp()`: the
        auto-properties start at 0. */
    constructor (dynamicClass: EllipseClass)
      ensures this.dynamicClass == dynamicClass && majorAxis == 0.0 && minorAxis == 0.0
    {
      this.dynamicClass := dynamicClass;
      majorAxis, minorAxis := 0.0, 0.0;
    }

    /** `SetMajorAxis`: the base version sets the major axis only; both circle
        overrides call it and then copy the value into the minor axis. */
    method SetMajorAxis(majorAxis: real)
      modifies this
      ensures this.majorAxis == majorAxis
      ensures minorAxis == if dynamicClass == EllipseLsp then old(minorAxis) else majorAxis
      ensures dynamicClass != EllipseLsp ==> IsRound()
    {
      this.majorAxis := majorAxis;
      if dynamicClass != EllipseLsp {
        this.minorAxis := majorAxis;
      }
    }

    /** `SetMinorAxis`: the base version sets the minor axis only; `Circle_Lsp`
        does not override it, `Circle_v1_Lsp` copies the value into the major axis. */
    method SetMinorAxis(minorAxis: real)
      modifies this
      ensures this.minorAxis == minorAxis
      ensures majorAxis == if dynamicClass == CircleV1Lsp then minorAxis else old(majorAxis)
      ensures dynamicClass == CircleV1Lsp ==> IsRound()
    {
      this.minorAxis := minorAxis;
      if dynamicClass == CircleV1Lsp {
        this.majorAxis := minorAxis;
      }
    }

    /** The public setter of the `MajorAxis` auto-property: no override runs. */
    method AssignMajorAxis(value: real)
      modifies this`majorAxis
      ensures majorAxis == value
    {
      majorAxis := value;
    }

    /** The public setter of the `MinorAxis` auto-property: no override runs. */
    method AssignMinorAxis(value: real)
      modifies this`minorAxis
      ensures minorAxis == value
    {
      minorAxis := value;
    }
  }

  /** `TestCircle_Lsp.methodTest`: a `Circle_Lsp` given major axis 5 and then
      minor axis 4 ends with unequal axes. */
  method CircleTest() returns (major: real, minor: real)
    ensures major == 5.0 && minor == 4.0
  {
    var circle := new Ellipse(CircleLsp);
    circle.SetMajorAxis(5.0);
    circle.SetMinorAxis(4.0);
    major, minor := circle.majorAxis, circle.minorAxis;
  }

  /** A client written against `Ellipse_Lsp` sets the major and then the minor
      axis. It gets exactly the axes it asked for unless the object is a
      `Circle_v1_Lsp` asked for two different values; the object ends round
      unless it is an ellipse or a `Circle_Lsp` asked for two different
      values. No circle class gives both. */
  method SetBothAxes(dynamicClass: EllipseClass, major: real, minor: real)
    returns (gotMajor: real, gotMinor: real)
    ensures gotMajor == major && gotMinor == minor <==> dynamicClass != CircleV1Lsp || major == minor
    ensures gotMajor == gotMinor <==> dynamicClass == CircleV1Lsp || major == minor
  {
    var e := new Ellipse(dynamicClass);
    e.SetMajorAxis(major);
    e.SetMinorAxis(minor);
    gotMajor, gotMinor := e.majorAxis, e.minorAxis;
  }

  /** The public auto-property setters bypass `Circle_v1_Lsp`'s overrides and can
      leave it with unequal axes. */
  method PropertySetterBypass() returns (major: real, minor: real)
    ensures major == 5.0 && minor == 4.0
  {
    var circle := new Ellipse(CircleV1Lsp);
    circle.SetMajorAxis(5.0);
    circle.AssignMinorAxis(4.0);
    major, minor := circle.majorAxis, circle.minorAxis;
  }

  /** `Circle_v2_Lsp`: a circle that is not an ellipse, with a single radius. */
  class CircleV2 {
    var radius: real

    constructor ()
      ensures radius == 0.0
    {
      radius := 0.0;
    }

    /** `SetRadius(r)`: the radius becomes r; there is nothing else to change. */
    method SetRadius(radius: real)
      modifies this`radius
      ensures this.radius == radius
    {
      this.radius := radius;
    }
  }
}
