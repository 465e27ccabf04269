/** The axis setters of the draft Liskov Substitution example
    (SOLID/LiskovSubstitutionPrinciple.cs). The draft declares `Circle` three
    times; the first two, both subclasses of `Ellipse`, are told apart here as
    `FirstCircle` and `SecondCircle`, the third, which stands alone, is the class
    `Circle`. Axis values are only assigned, so `double` is modelled as `real`. */
module LiskovDraft {

  /** The class an `Ellipse` object was created as; it decides which
      overrides of the virtual setters run. */
  datatype EllipseClass = EllipseBase | FirstCircle | SecondCircle

  /** `Ellipse` together with its first two `Circle` subclasses. */
  class Ellipse {
    const dynamicClass: EllipseClass
    var majorAxis: real
    var minorAxis: real

    /** Both axes are equal. */
    predicate IsRound()
      reads this
    {
      majorAxis == minorAxis
    }

    /** `new Ellipse()` or `new Circle()` of either subclass: the
        auto-properties start at 0. */
    constructor (dynamicClass: EllipseClass)
      ensures this.dynamicClass == dynamicClass && majorAxis == 0.0 && minorAxis == 0.0
    {
      this.dynamicClass := dynamicClass;
      majorAxis, minorAxis := 0.0, 0.0;
    }

    /** `SetMajorAxis`: the base version sets the major axis only; both circle
        overrides call it and then copy the value into the minor axis. */
    method SetMajorAxis(majorAxis: real)
      modifies this
      ensures this.majorAxis == majorAxis
      ensures minorAxis == if dynamicClass == EllipseBase then old(minorAxis) else majorAxis
      ensures dynamicClass != EllipseBase ==> IsRound()
    {
      this.majorAxis := majorAxis;
      if dynamicClass != EllipseBase {
        this.minorAxis := majorAxis;
      }
    }

    /** `SetMinorAxis`: the base version sets the minor axis only; the first
        `Circle` does not override it, the second copies the value into the major axis. */
    method SetMinorAxis(minorAxis: real)
      modifies this
      ensures this.minorAxis == minorAxis
      ensures majorAxis == if dynamicClass == SecondCircle then minorAxis else old(majorAxis)
      ensures dynamicClass == SecondCircle ==> IsRound()
    {
      this.minorAxis := minorAxis;
      if dynamicClass == SecondCircle {
        this.majorAxis := minorAxis;
      }
    }

    /** The public setter of the `MajorAxis` auto-property: no override runs. */
    method AssignMajorAxis(value: real)
      modifies this`majorAxis
      ensures majorAxis == value
    {
      majorAxis := value;
    }

    /** The public setter of the `MinorAxis` auto-property: no override runs. */
    method AssignMinorAxis(value: real)
      modifies this`minorAxis
      ensures minorAxis == value
    {
      minorAxis := value;
    }
  }

  /** The top-level demonstration: the first `Circle`, given major axis 5 and
      then minor axis 4, ends with unequal axes. */
  method CircleTest() returns (major: real, minor: real)
    ensures major == 5.0 && minor == 4.0
  {
    var circle := new Ellipse(FirstCircle);
    circle.SetMajorAxis(5.0);
    circle.SetMinorAxis(4.0);
    major, minor := circle.majorAxis, circle.minorAxis;
  }

  /** A client written against `Ellipse` sets the major and then the minor
      axis. It gets exactly the axes it asked for unless the object is a
      second `Circle` asked for two different values; the object ends round
      unless it is an ellipse or a first `Circle` asked for two different
      values. No circle class gives both. */
  method SetBothAxes(dynamicClass: EllipseClass, major: real, minor: real)
    returns (gotMajor: real, gotMinor: real)
    ensures gotMajor == major && gotMinor == minor <==> dynamicClass != SecondCircle || major == minor
    ensures gotMajor == gotMinor <==> dynamicClass == SecondCircle || major == minor
  {
    var e := new Ellipse(dynamicClass);
    e.SetMajorAxis(major);
    e.SetMinorAxis(minor);
    gotMajor, gotMinor := e.majorAxis, e.minorAxis;
  }

  /** The public auto-property setters bypass the second `Circle`'s overrides and can
      leave it with unequal axes. */
  method PropertySetterBypass() returns (major: real, minor: real)
    ensures major == 5.0 && minor == 4.0
  {
    var circle := new Ellipse(SecondCircle);
    circle.SetMajorAxis(5.0);
    circle.AssignMinorAxis(4.0);
    major, minor := circle.majorAxis, circle.minorAxis;
  }

  /** The third `Circle`: not an ellipse, with a single radius. */
  class Circle {
    var radius: real

    constructor ()
      ensures radius == 0.0
    {
      radius := 0.0;
    }

    /** `SetRadius(r)`: the radius becomes r; there is nothing else to change. */
    method SetRadius(radius: real)
      modifies this`radius
      ensures this.radius == radius
    {
      this.radius := radius;
    }
  }
}
