/** The Factory Method example of DesignPatterns/Creational/Factory00.cs: two
    air-conditioner modes, one factory per mode, and an `AirConditioner` that
    looks the factory up in a table keyed by the requested action. The
    temperature is only stored, so the C# `double` is modelled as `real`. */
module AirConditioning {
  import opened Wrappers

  /** The `Actions` enumeration. */
  datatype Actions = Cooling | Warming

  /** `IAirConditioner` with its two implementations; each holds the
      temperature it was created with in a read-only field. */
  datatype Conditioner =
    | CoolingUnit(temperature: real)
    | WarmingUnit(temperature: real)
  {
    /** The action this kind of unit performs. */
    function Performs(): Actions {
      if CoolingUnit? then Cooling else Warming
    }
  }

  /** `CoolingFactory` and `WarmingFactory`. */
  datatype AirConditionerFactory = CoolingFactory | WarmingFactory {
    /** `Create(temperature)`: a new unit of the factory's mode holding the
        temperature unchanged. */
    function Create(temperature: real): (r: Conditioner)
      ensures r.temperature == temperature
      ensures r.CoolingUnit? <==> this == CoolingFactory
    {
      match this
      case CoolingFactory => CoolingUnit(temperature)
      case WarmingFactory => WarmingUnit(temperature)
    }
  }

  /** The exception a `Dictionary` lookup raises for a missing key. */
  datatype Exception = KeyNotFoundException

  /** `AirConditioner`: its private, read-only table of factories. */
  datatype AirConditioner = AirConditioner(factories: map<Actions, AirConditionerFactory>) {
    /** `ExecuteCreation(action, temperature)`: look the factory up (the
        dictionary indexer throws for a missing key) and create the unit. */
    function ExecuteCreation(action: Actions, temperature: real): (r: Result<Conditioner, Exception>)
      ensures r.Success? <==> action in factories
      ensures r.Failure? ==> r.error == KeyNotFoundException
      ensures r.Success? ==> r.value.temperature == temperature
    {
      if action in factories then Success(factories[action].Create(temperature))
      else Failure(KeyNotFoundException)
    }
  }

  /** `new AirConditioner()`: one factory per action, each of that action's mode. */
  function NewAirConditioner(): (ac: AirConditioner)
    ensures ac.factories.Keys == {Cooling, Warming}
    ensures forall a, t :: a in ac.factories ==> ac.factories[a].Create(t).Performs() == a
  {
    AirConditioner(map[Cooling := CoolingFactory, Warming := WarmingFactory])
  }

  /** `AirConditioner.InitializeFactories`: the same table as the constructor. */
  function InitializeFactories(): (ac: AirConditioner)
    ensures ac.factories.Keys == {Cooling, Warming}
  {
    NewAirConditioner()
  }

  /** On an air conditioner built by either entry point, every action succeeds
      and yields a unit of exactly that action holding the temperature. */
  lemma ExecuteCreationTotal(action: Actions, temperature: real)
    ensures NewAirConditioner().ExecuteCreation(action, temperature).Success?
    ensures var unit := NewAirConditioner().ExecuteCreation(action, temperature).value;
            unit.Performs() == action && unit.temperature == temperature
    ensures InitializeFactories().ExecuteCreation(action, temperature)
         == NewAirConditioner().ExecuteCreation(action, temperature)
  {
  }
}
