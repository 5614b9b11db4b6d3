/** The SOLID examples that compute something: the range of a standard or
    hybrid vehicle (the open-closed principle) and a rectangle whose height
    can be reset (the Liskov substitution principle). */
module SolidPrinciples {

  /** A vehicle; a hybrid one also has an electric range. */
  datatype Vehicle =
    | Vehicle(fuelCapacity: real, fuelEfficiency: real)
    | HybridVehicle(fuelCapacity: real, fuelEfficiency: real, electricRange: real)
  {
    /** The open-closed version: each kind has its own `getRange`, the
        hybrid one overriding the base one. */
    function GetRange(): real
    {
      match this
      case Vehicle(capacity, efficiency) => capacity * efficiency
      case HybridVehicle(capacity, efficiency, electric) => capacity * efficiency + electric
    }

    /** The first version: one `getRange` that asks whether it is running
        on a hybrid and adds the electric range if so. */
    function GetRangeInstanceOf(): real
    {
      var range := fuelCapacity * fuelEfficiency;
      if this.HybridVehicle? then range + electricRange else range
    }
  }

  /** Overriding changes the structure of the code, not its results: the two
      versions give the same range for every vehicle. */
  lemma SameRange(v: Vehicle)
    ensures v.GetRange() == v.GetRangeInstanceOf()
  {
  }

  /** A hybrid reaches as far as the standard vehicle with the same tank
      and efficiency, plus its electric range; a standard one reaches
      capacity times efficiency. */
  lemma HybridExtendsStandard(capacity: real, efficiency: real, electric: real)
    ensures Vehicle(capacity, efficiency).GetRange() == capacity * efficiency
    ensures HybridVehicle(capacity, efficiency, electric).GetRange() ==
      Vehicle(capacity, efficiency).GetRange() + electric
  {
  }

  /** The script's vehicles: (10, 15) reaches 150, and (10, 15, 50) reaches
      200, under both versions. */
  lemma RangeExamples()
    ensures Vehicle(10.0, 15.0).GetRange() == 150.0
    ensures HybridVehicle(10.0, 15.0, 50.0).GetRange() == 200.0
    ensures Vehicle(10.0, 15.0).GetRangeInstanceOf() == 150.0
    ensures HybridVehicle(10.0, 15.0, 50.0).GetRangeInstanceOf() == 200.0
  {
  }

  /** A rectangle; `Square` adds nothing to it, so a square is a rectangle
      built with two equal sides. */
  class Rectangle {
    var height: real
    var width: real

    constructor (height: real, width: real)
      ensures this.height == height && this.width == width
    {
      this.height := height;
      this.width := width;
    }

    /** Both sides equal: what a square is meant to keep. */
    predicate IsSquare()
      reads this
    {
      height == width
    }

    /** Sets the height and nothing else. */
    method SetHeight(newHeight: real)
      modifies this
      ensures height == newHeight && width == old(width)
    {
      height := newHeight;
    }
  }

  /** Setting the height of any square to a different value leaves a shape
      that is no longer a square: the subclass does not keep its own
      invariant under its parent's operation. */
  method SetHeightBreaksSquare(side: real, newHeight: real) returns (wasSquare: bool, isSquare: bool)
    ensures wasSquare
    ensures isSquare <==> newHeight == side
  {
    var square := new Rectangle(side, side);
    wasSquare := square.IsSquare();
    square.SetHeight(newHeight);
    isSquare := square.IsSquare();
  }

  /** The script: a 4 by 5 rectangle and a 4 by 4 square; after
      `setHeight(5)` the square is 5 high and 4 wide. */
  method SquareExample() returns (rectangleSides: (real, real), height: real, width: real, isSquare: bool)
    ensures rectangleSides == (4.0, 5.0)
    ensures height == 5.0 && width == 4.0 && !isSquare
  {
    var rectangle := new Rectangle(4.0, 5.0);
    rectangleSides := (rectangle.height, rectangle.width);
    var square := new Rectangle(4.0, 4.0);
    square.SetHeight(5.0);
    height, width := square.height, square.width;
    isSquare := square.IsSquare();
  }
}
