/**
 * The base of function definitions: a unique identifier that can be set
 * once, no required live data and no default parameters.
 */
module FunctionDefinition {
  import opened Common

  /** A value specification; only its identity matters here. */
  datatype ValueSpecification = ValueSpecification(valueName: string, targetId: string)

  /** Function parameters; the base class supplies the empty kind. */
  datatype FunctionParameters = EmptyFunctionParameters | Parameters(values: map<string, string>)

  /** The context a function is initialised with; not consulted by the base class. */
  datatype FunctionCompilationContext = FunctionCompilationContext(name: string)

  class AbstractFunction {
    var uniqueIdentifier: Option<string>

    constructor ()
      ensures uniqueIdentifier == None
    {
      uniqueIdentifier := None;
    }

    method GetUniqueIdentifier() returns (id: Option<string>)
      ensures id == uniqueIdentifier
    {
      id := uniqueIdentifier;
    }

    /**
     * Stores the identifier unless one is already stored, in which case it
     * throws and the stored one stays. Storing null leaves the function
     * without an identifier, so a later call can still set one.
     */
    method SetUniqueIdentifier(id: Option<string>) returns (outcome: Outcome)
      modifies this
      ensures old(uniqueIdentifier).Some? ==>
        outcome == Fail(IllegalState("Function unique ID already set")) && uniqueIdentifier == old(uniqueIdentifier)
      ensures old(uniqueIdentifier).None? ==> outcome == Pass && uniqueIdentifier == id
    {
      if uniqueIdentifier.Some? {
        return Fail(IllegalState("Function unique ID already set"));
      }
      uniqueIdentifier := id;
      outcome := Pass;
    }

    /** The base class's initialisation does nothing: the identifier stays as it was. */
    method Init(context: FunctionCompilationContext)
      modifies this
      ensures uniqueIdentifier == old(uniqueIdentifier)
    {
    }

    function RequiredLiveData(): (specs: set<ValueSpecification>)
      ensures forall spec :: spec !in specs
    {
      {}
    }

    function DefaultParameters(): (parameters: FunctionParameters)
      ensures parameters.EmptyFunctionParameters?
    {
      EmptyFunctionParameters
    }
  }

  /**
   * The write-once protocol from a fresh function: null leaves it unset, the
   * first identifier sticks, and every later one is refused.
   */
  method WriteOnceProtocol(first: string, second: string)
    returns (nullSet: Outcome, firstSet: Outcome, secondSet: Outcome, finalId: Option<string>)
    ensures nullSet == Pass && firstSet == Pass
    ensures secondSet.Fail? && secondSet.error.IllegalState?
    ensures finalId == Some(first)
  {
    var definition := new AbstractFunction();
    nullSet := definition.SetUniqueIdentifier(None);
    firstSet := definition.SetUniqueIdentifier(Some(first));
    secondSet := definition.SetUniqueIdentifier(Some(second));
    definition.Init(FunctionCompilationContext("compilation"));
    finalId := definition.GetUniqueIdentifier();
  }
}
