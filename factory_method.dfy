/** The Factory Method example of DesignPatterns/Creational/Factory02.cs: a
    `Sandwich` whose constructor calls the factory method `CreateIngredients`,
    which each concrete sandwich overrides to fill the ingredient list. */
module FactoryMethod {

  /** The ingredient classes; they have no fields, so only their kind matters. */
  datatype Ingredient = Bread | Turkey | Lettuce | Mayonnaise

  /** The concrete class a `Sandwich` was created as. */
  datatype SandwichClass = TurkeySandwich | Veggie

  /** What each override of `CreateIngredients` adds, in order. Every sandwich
      is bread on both ends, and the veggie one has no turkey. */
  function Recipe(sandwichClass: SandwichClass): (r: seq<Ingredient>)
    ensures |r| >= 2 && r[0] == Bread && r[|r| - 1] == Bread
    ensures sandwichClass == Veggie ==> Turkey !in r
    ensures sandwichClass == TurkeySandwich ==> multiset(r)[Turkey] == 2
  {
    match sandwichClass
    case TurkeySandwich => [Bread, Mayonnaise, Lettuce, Turkey, Turkey, Bread]
    case Veggie => [Bread, Lettuce, Mayonnaise, Bread]
  }

  /** The `List<Ingredient>` object a sandwich owns. */
  class IngredientList {
    var items: seq<Ingredient>

    constructor ()
      ensures items == []
    {
      items := [];
    }

    /** `List.Add`. */
    method Add(ingredient: Ingredient)
      modifies this
      ensures items == old(items) + [ingredient]
    {
      items := items + [ingredient];
    }
  }

  /** `Sandwich` with its two subclasses. */
  class Sandwich {
    const dynamicClass: SandwichClass
    const ingredients: IngredientList

    /** The `Ingredients` property: the sandwich's own list object, not a copy. */
    function Ingredients(): IngredientList {
      ingredients
    }

    /** `new TurkeySandwich()` or `new Veggie()`: the base constructor starts an
        empty list and calls the factory method once. */
    constructor (dynamicClass: SandwichClass)
      ensures this.dynamicClass == dynamicClass
      ensures fresh(ingredients)
      ensures ingredients.items == Recipe(dynamicClass)
    {
      this.dynamicClass := dynamicClass;
      ingredients := new IngredientList();
      new;
      CreateIngredients();
    }

    /** `CreateIngredients`, dispatched on the concrete class: adds the recipe
        to the list one ingredient at a time. */
    method CreateIngredients()
      modifies ingredients
      ensures ingredients.items == old(ingredients.items) + Recipe(dynamicClass)
    {
      match dynamicClass
      case TurkeySandwich =>
        Ingredients().Add(Bread);
        Ingredients().Add(Mayonnaise);
        Ingredients().Add(Lettuce);
        Ingredients().Add(Turkey);
        Ingredients().Add(Turkey);
        Ingredients().Add(Bread);
      case Veggie =>
        Ingredients().Add(Bread);
        Ingredients().Add(Lettuce);
        Ingredients().Add(Mayonnaise);
        Ingredients().Add(Bread);
    }
  }

  /** The two sandwiches of `TestRecipeFactory.TestMain` hold six and four
      ingredients. */
  method TestSandwiches() returns (turkey: seq<Ingredient>, veggie: seq<Ingredient>)
    ensures turkey == [Bread, Mayonnaise, Lettuce, Turkey, Turkey, Bread]
    ensures veggie == [Bread, Lettuce, Mayonnaise, Bread]
  {
    var t := new Sandwich(TurkeySandwich);
    var v := new Sandwich(Veggie);
    turkey, veggie := t.Ingredients().items, v.Ingredients().items;
  }

  /** Because `Ingredients` hands out the list itself, adding to what it returns
      changes the sandwich. */
  method IngredientsAreShared() returns (count: nat)
    ensures count == 7
  {
    var t := new Sandwich(TurkeySandwich);
    var list := t.Ingredients();
    list.Add(Lettuce);
    count := |t.ingredients.items|;
  }
}
