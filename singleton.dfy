/** The Singleton example of DesignPatterns/Creational/Singleton.cs: `TheBell`,
    created lazily by its `GetInstance` property. The lock around the lazy
    initialisation only matters with several threads and is not modelled. */
module Singleton {

  /** `TheBell`. Its constructor is private; `GetInstance` is the one caller. */
  class TheBell {
    constructor ()
    {
    }
  }

  /** The static state of `TheBell`: the `bellConnection` field, and a ghost
      count of the instances `GetInstance` has created. */
  class TheBellStatics {
    var bellConnection: TheBell?
    ghost var created: nat

    /** At most one instance ever exists, and it is the stored one. */
    ghost predicate Valid()
      reads this
    {
      && created <= 1
      && (bellConnection == null <==> created == 0)
    }

    /** The static fields before the first access. */
    constructor ()
      ensures Valid() && bellConnection == null && created == 0
    {
      bellConnection := null;
      created := 0;
    }

    /** The `GetInstance` getter: the first access creates and stores the
        instance, every later one returns the stored instance. */
    method GetInstance() returns (bell: TheBell)
      requires Valid()
      modifies this
      ensures Valid()
      ensures bell == bellConnection
      ensures old(bellConnection) == null ==> fresh(bell) && created == 1
      ensures old(bellConnection) != null ==> bell == old(bellConnection) && created == old(created)
    {
      if bellConnection == null {
        bellConnection := new TheBell();
        created := created + 1;
      }
      bell := bellConnection;
    }
  }

  /** `Singleton.testSingleton`: two successive accesses return the same object. */
  method TestSingleton() returns (same: bool)
    ensures same
  {
    var statics := new TheBellStatics();
    var bell := statics.GetInstance();
    var otherBell := statics.GetInstance();
    same := bell == otherBell;
  }
}
