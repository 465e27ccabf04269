/** The Abstract Factory example of DesignPatterns/Creational/AbstractFactory.cs:
    two recipe factories, each making a sandwich and a dessert of one family,
    and `TestFactory`, which picks a factory by a letter. */
module AbstractFactory {
  import opened Wrappers

  /** The concrete products; they have no fields. */
  datatype Sandwich = BLT | GrilledCheese
  datatype Dessert = CremeBrulee | IceCreamSundae

  /** The audience a product is meant for. */
  datatype Family = Adult | Kid

  function SandwichFamily(s: Sandwich): Family {
    if s == BLT then Adult else Kid
  }

  function DessertFamily(d: Dessert): Family {
    if d == CremeBrulee then Adult else Kid
  }

  /** `AdultCuisineFactory` and `KidCuisineFactory`. */
  datatype RecipeFactory = AdultCuisineFactory | KidCuisineFactory {
    /** The family this factory serves. */
    function Serves(): Family {
      if AdultCuisineFactory? then Adult else Kid
    }

    /** `CreateSandwich`: a sandwich of the factory's family. */
    function CreateSandwich(): (s: Sandwich)
      ensures SandwichFamily(s) == Serves()
    {
      match this
      case AdultCuisineFactory => BLT
      case KidCuisineFactory => GrilledCheese
    }

    /** `CreateDessert`: a dessert of the factory's family. */
    function CreateDessert(): (d: Dessert)
      ensures DessertFamily(d) == Serves()
    {
      match this
      case AdultCuisineFactory => CremeBrulee
      case KidCuisineFactory => IceCreamSundae
    }
  }

  /** The exception of the `default` case. */
  datatype Exception = NotImplementedException

  /** The `switch (input)` of `TestFactory`: 'A' and 'C', matched exactly. */
  function SelectFactory(input: char): (r: Result<RecipeFactory, Exception>)
    ensures r.Success? <==> input == 'A' || input == 'C'
    ensures r.Success? ==> (r.value.Serves() == Adult <==> input == 'A')
    ensures r.Failure? ==> r.error == NotImplementedException
  {
    match input
    case 'A' => Success(AdultCuisineFactory)
    case 'C' => Success(KidCuisineFactory)
    case _ => Failure(NotImplementedException)
  }

  /** `TestFactory(input)` without its printing: the meal it creates, or the
      exception thrown before anything is created. */
  function TestFactory(input: char): (r: Result<(Sandwich, Dessert), Exception>)
    ensures r.Success? <==> SelectFactory(input).Success?
    ensures r.Success? ==> SandwichFamily(r.value.0) == DessertFamily(r.value.1)
    ensures r.Failure? ==> r.error == NotImplementedException
  {
    match SelectFactory(input)
    case Failure(e) => Failure(e)
    case Success(factory) => Success((factory.CreateSandwich(), factory.CreateDessert()))
  }

  /** The two calls of `TestMain`, and a letter in the wrong case. */
  lemma TestFactoryMeals()
    ensures TestFactory('A') == Success((BLT, CremeBrulee))
    ensures TestFactory('C') == Success((GrilledCheese, IceCreamSundae))
    ensures TestFactory('a') == Failure(NotImplementedException)
  {
  }
}
