/**
 * The registry of the standard coupon frequencies, keyed by convention name.
 */
module Frequencies {
  import opened Common

  /** A frequency: its convention name and the number of periods in a year. */
  datatype Frequency = SimpleFrequency(conventionName: string, periodsPerYear: nat)

  // The four standard frequencies. SimpleFrequency is not part of this model:
  // the names and period counts below stand for its constants.
  const MONTHLY: Frequency := SimpleFrequency("Monthly", 12)
  const ANNUALLY: Frequency := SimpleFrequency("Annual", 1)
  const SEMI_ANNUALLY: Frequency := SimpleFrequency("Semi-annual", 2)
  const QUARTERLY: Frequency := SimpleFrequency("Quarterly", 4)

  /** The registry filled by the constructor, written out. */
  function StandardRegistry(): (m: map<string, Frequency>)
    ensures forall name :: name in m ==> m[name].conventionName == name
  {
    map[MONTHLY.conventionName := MONTHLY, ANNUALLY.conventionName := ANNUALLY,
        SEMI_ANNUALLY.conventionName := SEMI_ANNUALLY, QUARTERLY.conventionName := QUARTERLY]
  }

  class FrequencyFactory {
    var conventionMap: map<string, Frequency>

    /** Every frequency is stored under its own convention name. */
    ghost predicate Valid()
      reads this
    {
      forall name :: name in conventionMap ==> conventionMap[name].conventionName == name
    }

    constructor ()
      ensures Valid()
      ensures conventionMap == StandardRegistry()
    {
      conventionMap := map[];
      new;
      Store(MONTHLY);
      Store(ANNUALLY);
      Store(SEMI_ANNUALLY);
      Store(QUARTERLY);
    }

    /** Registers a frequency under its convention name, replacing any earlier one of that name. */
    method Store(freq: Frequency)
      modifies this
      requires Valid()
      ensures Valid()
      ensures conventionMap == old(conventionMap)[freq.conventionName := freq]
    {
      conventionMap := conventionMap[freq.conventionName := freq];
    }

    /**
     * The frequency registered under `name`, or none (null) if there is none;
     * a registered frequency carries the name it was looked up by.
     */
    function GetFrequency(name: string): (r: Option<Frequency>)
      reads this
      ensures r.Some? <==> name in conventionMap
      ensures r.Some? ==> r.value == conventionMap[name]
      ensures Valid() && r.Some? ==> r.value.conventionName == name
    {
      if name in conventionMap then Some(conventionMap[name]) else None
    }
  }

  /**
   * A freshly built registry: each of the four standard names gives its
   * frequency, and every other name gives none.
   */
  method StandardLookup(name: string) returns (r: Option<Frequency>)
    ensures name == "Monthly" ==> r == Some(MONTHLY)
    ensures name == "Annual" ==> r == Some(ANNUALLY)
    ensures name == "Semi-annual" ==> r == Some(SEMI_ANNUALLY)
    ensures name == "Quarterly" ==> r == Some(QUARTERLY)
    ensures r.None? <==> name !in {"Monthly", "Annual", "Semi-annual", "Quarterly"}
    ensures r.Some? ==> r.value.conventionName == name
  {
    var factory := new FrequencyFactory();
    r := factory.GetFrequency(name);
  }

  /**
   * Storing a frequency whose name is already registered replaces the old
   * entry; other names are not affected, and a lookup is repeatable.
   */
  method StoreReplaces(factory: FrequencyFactory, freq: Frequency, other: string)
    returns (found: Option<Frequency>, again: Option<Frequency>, otherBefore: Option<Frequency>,
             otherAfter: Option<Frequency>)
    modifies factory
    requires factory.Valid()
    requires other != freq.conventionName
    ensures found == again == Some(freq)
    ensures otherBefore == otherAfter
  {
    otherBefore := factory.GetFrequency(other);
    factory.Store(freq);
    found := factory.GetFrequency(freq.conventionName);
    again := factory.GetFrequency(freq.conventionName);
    otherAfter := factory.GetFrequency(other);
  }
}
