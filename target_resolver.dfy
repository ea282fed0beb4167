/**
 * Resolution of computation target specifications to targets: primitives
 * stand for themselves; securities, positions and portfolio nodes are looked
 * up in the security and position masters.
 */
module TargetResolver {
  import opened Common

  /** The scheme of identifiers that are security identity keys. */
  const SECURITY_IDENTITY_KEY_DOMAIN: string := "SecurityIdentityKey"

  datatype Identifier = Identifier(scheme: string, value: string)

  datatype IdentifierBundle = IdentifierBundle(identifiers: set<Identifier>)

  datatype Security = Security(uniqueId: string, name: string)
  datatype Position = Position(uniqueId: string)
  datatype PortfolioNode = PortfolioNode(uniqueId: string)

  /** The four handled kinds of target, and any other. */
  datatype ComputationTargetType =
    | PRIMITIVE
    | SECURITY
    | POSITION
    | MULTIPLE_POSITIONS
    | OtherTargetType(typeName: string)

  datatype ComputationTargetSpecification = ComputationTargetSpecification(
    targetType: ComputationTargetType,
    identifier: Identifier)

  datatype TargetValue =
    | PrimitiveValue(id: Identifier)
    | SecurityValue(security: Security)
    | PositionValue(position: Position)
    | PortfolioNodeValue(node: PortfolioNode)

  datatype ComputationTarget = ComputationTarget(targetType: ComputationTargetType, value: TargetValue)

  /** The security master's lookups: by identity key, and by bundle (hits in iteration order). */
  datatype SecurityMaster = SecurityMaster(
    getSecurity: Identifier -> Option<Security>,
    getSecurities: IdentifierBundle -> seq<Security>)

  datatype PositionMaster = PositionMaster(
    getPosition: Identifier -> Option<Position>,
    getPortfolioNode: Identifier -> Option<PortfolioNode>)

  datatype DefaultComputationTargetResolver = DefaultComputationTargetResolver(
    securityMaster: SecurityMaster,
    positionMaster: PositionMaster)

  /** Both masters are required. */
  function NewResolver(securityMaster: Option<SecurityMaster>, positionMaster: Option<PositionMaster>)
    : (r: Result<DefaultComputationTargetResolver>)
    ensures r.Success? <==> securityMaster.Some? && positionMaster.Some?
    ensures securityMaster.None? ==> r == Failure(NullArgument("Security Master"))
    ensures securityMaster.Some? && positionMaster.None? ==> r == Failure(NullArgument("Position master"))
    ensures r.Success? ==>
      r.value.securityMaster == securityMaster.value && r.value.positionMaster == positionMaster.value
  {
    if securityMaster.None? then Failure(NullArgument("Security Master"))
    else if positionMaster.None? then Failure(NullArgument("Position master"))
    else Success(DefaultComputationTargetResolver(securityMaster.value, positionMaster.value))
  }

  /**
   * An identity key is looked up directly; any other identifier through a
   * one-identifier bundle, whose first hit wins.
   */
  function ResolveSecurity(master: SecurityMaster, identifier: Identifier): (r: Option<Security>)
    ensures identifier.scheme == SECURITY_IDENTITY_KEY_DOMAIN ==> r == master.getSecurity(identifier)
    ensures identifier.scheme != SECURITY_IDENTITY_KEY_DOMAIN ==>
      var hits := master.getSecurities(IdentifierBundle({identifier}));
      && (r.None? <==> |hits| == 0)
      && (r.Some? ==> r.value == hits[0])
  {
    if identifier.scheme == SECURITY_IDENTITY_KEY_DOMAIN then
      master.getSecurity(identifier)
    else
      var securities := master.getSecurities(IdentifierBundle({identifier}));
      if |securities| == 0 then None else Some(securities[0])
  }

  /**
   * Resolves a specification. A missing object gives no target (null); a
   * target type outside the four handled ones is an error.
   */
  function Resolve(resolver: DefaultComputationTargetResolver, spec: ComputationTargetSpecification)
    : (r: Result<Option<ComputationTarget>>)
    ensures r.Failure? <==> spec.targetType.OtherTargetType?
    ensures r.Failure? ==> r.error.NotImplemented?
    ensures r.Success? && r.value.Some? ==> r.value.value.targetType == spec.targetType
    ensures spec.targetType == PRIMITIVE ==>
      r == Success(Some(ComputationTarget(PRIMITIVE, PrimitiveValue(spec.identifier))))
    ensures spec.targetType == SECURITY ==>
      var found := ResolveSecurity(resolver.securityMaster, spec.identifier);
      r == Success(if found.None? then None else Some(ComputationTarget(SECURITY, SecurityValue(found.value))))
    ensures spec.targetType == POSITION ==>
      var found := resolver.positionMaster.getPosition(spec.identifier);
      r == Success(if found.None? then None else Some(ComputationTarget(POSITION, PositionValue(found.value))))
    ensures spec.targetType == MULTIPLE_POSITIONS ==>
      var found := resolver.positionMaster.getPortfolioNode(spec.identifier);
      r == Success(if found.None? then None
                   else Some(ComputationTarget(MULTIPLE_POSITIONS, PortfolioNodeValue(found.value))))
  {
    match spec.targetType
    case PRIMITIVE =>
      Success(Some(ComputationTarget(spec.targetType, PrimitiveValue(spec.identifier))))
    case SECURITY =>
      var security := ResolveSecurity(resolver.securityMaster, spec.identifier);
      if security.None? then Success(None)
      else Success(Some(ComputationTarget(SECURITY, SecurityValue(security.value))))
    case POSITION =>
      var position := resolver.positionMaster.getPosition(spec.identifier);
      if position.None? then Success(None)
      else Success(Some(ComputationTarget(POSITION, PositionValue(position.value))))
    case MULTIPLE_POSITIONS =>
      var node := resolver.positionMaster.getPortfolioNode(spec.identifier);
      if node.None? then Success(None)
      else Success(Some(ComputationTarget(MULTIPLE_POSITIONS, PortfolioNodeValue(node.value))))
    case OtherTargetType(name) =>
      Failure(NotImplemented("Unhandled computation target type " + name))
  }

  /**
   * Primitives are resolved without consulting either master: two resolvers
   * over any masters agree on them.
   */
  lemma PrimitiveIgnoresMasters(a: DefaultComputationTargetResolver, b: DefaultComputationTargetResolver,
                                spec: ComputationTargetSpecification)
    requires spec.targetType == PRIMITIVE
    ensures Resolve(a, spec) == Resolve(b, spec)
  {
  }

  /**
   * Several bundle hits: the first one wins, and which others there are does
   * not matter.
   */
  lemma FirstHitWins(m1: SecurityMaster, m2: SecurityMaster, identifier: Identifier)
    requires identifier.scheme != SECURITY_IDENTITY_KEY_DOMAIN
    requires var h1, h2 := m1.getSecurities(IdentifierBundle({identifier})), m2.getSecurities(IdentifierBundle({identifier}));
             |h1| > 0 && |h2| > 0 && h1[0] == h2[0]
    ensures ResolveSecurity(m1, identifier) == ResolveSecurity(m2, identifier)
    ensures ResolveSecurity(m1, identifier) == Some(m1.getSecurities(IdentifierBundle({identifier}))[0])
  {
  }
}
