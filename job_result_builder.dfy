/**
 * The message builder for calculation job results. A message is a flat list
 * of named fields; a job result is written as the fields of its job
 * specification, then one `duration` field, one `computeNodeId` field and one
 * `resultItems` field per result item, and read back by field name.
 *
 * How a job specification or a result item becomes a message (and back) is
 * up to the serialisation context; the model takes that conversion as a
 * `Codec` value and states what it must satisfy for the round trip to hold.
 */
module JobResultBuilder {
  import opened Common

  datatype FieldValue =
    | LongValue(n: Int64)
    | StringValue(s: string)
    | MessageValue(fields: seq<Field>)

  datatype Field = Field(name: string, value: FieldValue)

  type Message = seq<Field>

  const DURATION_FIELD_NAME: string := "duration"
  const ITEMS_FIELD_NAME: string := "resultItems"
  const COMPUTE_NODE_ID_FIELD_NAME: string := "computeNodeId"

  /** A job result, with its constructor's argument order: specification, duration, items, node id. */
  datatype CalculationJobResult<S, I> = CalculationJobResult(
    specification: S,
    duration: Int64,
    resultItems: seq<I>,
    computeNodeId: string)

  /** The serialisation context's conversion between objects of one type and messages. */
  datatype Codec<!T> = Codec(toMessage: T -> Message, fromMessage: Message -> Option<T>)

  predicate Reserved(name: string) {
    name == DURATION_FIELD_NAME || name == ITEMS_FIELD_NAME || name == COMPUTE_NODE_ID_FIELD_NAME
  }

  /** The fields of `msg` whose name is not one of the three this builder writes, in order. */
  function WithoutReserved(msg: Message): (r: Message)
    ensures |r| <= |msg|
    ensures forall f :: f in r ==> f in msg && !Reserved(f.name)
  {
    if msg == [] then []
    else if Reserved(msg[0].name) then WithoutReserved(msg[1..])
    else [msg[0]] + WithoutReserved(msg[1..])
  }

  /** An item conversion that reads back what it writes. */
  ghost predicate ItemCodecRoundTrips<I(!new)>(itemCodec: Codec<I>) {
    forall item :: itemCodec.fromMessage(itemCodec.toMessage(item)) == Some(item)
  }

  /**
   * A specification conversion that reads back what it writes, never writes a
   * field with a reserved name, and only looks at fields it could have written.
   */
  ghost predicate SpecCodecWellBehaved<S(!new)>(specCodec: Codec<S>) {
    && (forall spec :: specCodec.fromMessage(specCodec.toMessage(spec)) == Some(spec))
    && (forall spec, f :: f in specCodec.toMessage(spec) ==> !Reserved(f.name))
    && (forall msg {:trigger WithoutReserved(msg)} ::
          specCodec.fromMessage(msg) == specCodec.fromMessage(WithoutReserved(msg)))
  }

  // ---------------------------------------------------------------------------
  // Writing a message

  /** One `resultItems` field per item, in item order. */
  function ItemFields<I>(itemCodec: Codec<I>, items: seq<I>): (r: Message)
    ensures |r| == |items|
    ensures forall i :: 0 <= i < |items| ==> r[i] == Field(ITEMS_FIELD_NAME, MessageValue(itemCodec.toMessage(items[i])))
  {
    seq(|items|, i requires 0 <= i < |items| => Field(ITEMS_FIELD_NAME, MessageValue(itemCodec.toMessage(items[i]))))
  }

  /** The sub-message of each encoded item, in item order. */
  function ItemValues<I>(itemCodec: Codec<I>, items: seq<I>): (r: seq<FieldValue>)
    ensures |r| == |items|
    ensures forall i :: 0 <= i < |items| ==> r[i] == MessageValue(itemCodec.toMessage(items[i]))
  {
    seq(|items|, i requires 0 <= i < |items| => MessageValue(itemCodec.toMessage(items[i])))
  }

  /**
   * The message `buildMessage` produces for a job result: the specification's
   * fields, then duration, then node id, then one `resultItems` field per
   * item in order.
   */
  function Encoded<S, I>(specCodec: Codec<S>, itemCodec: Codec<I>, result: CalculationJobResult<S, I>): (msg: Message)
    ensures var n := |specCodec.toMessage(result.specification)|;
      && |msg| == n + 2 + |result.resultItems|
      && msg[..n] == specCodec.toMessage(result.specification)
      && msg[n] == Field(DURATION_FIELD_NAME, LongValue(result.duration))
      && msg[n + 1] == Field(COMPUTE_NODE_ID_FIELD_NAME, StringValue(result.computeNodeId))
      && forall i :: 0 <= i < |result.resultItems| ==>
           msg[n + 2 + i] == Field(ITEMS_FIELD_NAME, MessageValue(itemCodec.toMessage(result.resultItems[i])))
  {
    specCodec.toMessage(result.specification)
      + [Field(DURATION_FIELD_NAME, LongValue(result.duration)),
         Field(COMPUTE_NODE_ID_FIELD_NAME, StringValue(result.computeNodeId))]
      + ItemFields(itemCodec, result.resultItems)
  }

  /** Builds the message field by field, as the builder does. */
  method BuildMessage<S, I>(specCodec: Codec<S>, itemCodec: Codec<I>, result: CalculationJobResult<S, I>)
    returns (msg: Message)
    ensures msg == Encoded(specCodec, itemCodec, result)
  {
    msg := specCodec.toMessage(result.specification);
    msg := msg + [Field(DURATION_FIELD_NAME, LongValue(result.duration))];
    msg := msg + [Field(COMPUTE_NODE_ID_FIELD_NAME, StringValue(result.computeNodeId))];
    ghost var header := msg;
    var i := 0;
    while i < |result.resultItems|
      invariant 0 <= i <= |result.resultItems|
      invariant msg == header + ItemFields(itemCodec, result.resultItems[..i])
    {
      msg := msg + [Field(ITEMS_FIELD_NAME, MessageValue(itemCodec.toMessage(result.resultItems[i])))];
      i := i + 1;
      assert ItemFields(itemCodec, result.resultItems[..i])
          == ItemFields(itemCodec, result.resultItems[..i - 1])
             + [Field(ITEMS_FIELD_NAME, MessageValue(itemCodec.toMessage(result.resultItems[i - 1])))];
    }
    assert result.resultItems[..i] == result.resultItems;
  }

  // ---------------------------------------------------------------------------
  // Reading a message

  /** The value of the first field called `name`, as the message's typed getters find it. */
  function FirstNamed(msg: Message, name: string): (r: Option<FieldValue>)
    ensures r.None? <==> forall f :: f in msg ==> f.name != name
    ensures r.Some? ==> exists i :: 0 <= i < |msg| && msg[i] == Field(name, r.value)
                          && forall j :: 0 <= j < i ==> msg[j].name != name
  {
    if msg == [] then None
    else if msg[0].name == name then Some(msg[0].value)
    else
      var r := FirstNamed(msg[1..], name);
      assert forall f :: f in msg[1..] ==> f in msg;
      assert r.Some? ==> exists i :: 1 <= i < |msg| && msg[i] == Field(name, r.value)
                          && forall j :: 0 <= j < i ==> msg[j].name != name by {
        if r.Some? {
          var i :| 0 <= i < |msg[1..]| && msg[1..][i] == Field(name, r.value)
                   && forall j :: 0 <= j < i ==> msg[1..][j].name != name;
          assert msg[i + 1] == Field(name, r.value);
          assert forall j :: 1 <= j < i + 1 ==> msg[j].name != name by {
            forall j | 1 <= j < i + 1 ensures msg[j].name != name {
              assert msg[j] == msg[1..][j - 1];
            }
          }
        }
      }
      r
  }

  /** The values of all fields called `name`, in message order. */
  function AllNamed(msg: Message, name: string): (r: seq<FieldValue>)
    ensures |r| <= |msg|
  {
    if msg == [] then []
    else if msg[0].name == name then [msg[0].value] + AllNamed(msg[1..], name)
    else AllNamed(msg[1..], name)
  }

  /** Reads one item from a `resultItems` field value, which must be a sub-message. */
  function DecodeItem<I>(itemCodec: Codec<I>, value: FieldValue): (r: Result<I>)
    ensures value.MessageValue? && itemCodec.fromMessage(value.fields).Some? ==>
              r == Success(itemCodec.fromMessage(value.fields).value)
    ensures !value.MessageValue? ==> r.Failure? && r.error.ClassCast?
  {
    match value
    case MessageValue(fields) =>
      (match itemCodec.fromMessage(fields)
       case Some(item) => Success(item)
       case None => Failure(DecodeFailure("result item")))
    case _ => Failure(ClassCast("resultItems field is not a message"))
  }

  /** Reads every item in order; the first one that cannot be read is the error. */
  function DecodeItems<I>(itemCodec: Codec<I>, values: seq<FieldValue>): (r: Result<seq<I>>)
    ensures r.Success? ==> |r.value| == |values|
    decreases |values|
  {
    if values == [] then Success([])
    else
      match DecodeItems(itemCodec, values[..|values| - 1])
      case Failure(e) => Failure(e)
      case Success(items) =>
        match DecodeItem(itemCodec, values[|values| - 1])
        case Failure(e) => Failure(e)
        case Success(item) => Success(items + [item])
  }

  /**
   * The job result `buildObject` reads from a message: the specification from
   * the whole message, duration and node id from the first fields of those
   * names, the items from every `resultItems` field in order.
   */
  function Decoded<S, I>(specCodec: Codec<S>, itemCodec: Codec<I>, msg: Message): (r: Result<CalculationJobResult<S, I>>)
    ensures r.Success? <==>
      && specCodec.fromMessage(msg).Some?
      && FirstNamed(msg, DURATION_FIELD_NAME).Some? && FirstNamed(msg, DURATION_FIELD_NAME).value.LongValue?
      && FirstNamed(msg, COMPUTE_NODE_ID_FIELD_NAME).Some?
      && FirstNamed(msg, COMPUTE_NODE_ID_FIELD_NAME).value.StringValue?
      && DecodeItems(itemCodec, AllNamed(msg, ITEMS_FIELD_NAME)).Success?
    ensures r.Success? ==>
      && specCodec.fromMessage(msg) == Some(r.value.specification)
      && FirstNamed(msg, DURATION_FIELD_NAME) == Some(LongValue(r.value.duration))
      && FirstNamed(msg, COMPUTE_NODE_ID_FIELD_NAME) == Some(StringValue(r.value.computeNodeId))
      && DecodeItems(itemCodec, AllNamed(msg, ITEMS_FIELD_NAME)) == Success(r.value.resultItems)
    ensures specCodec.fromMessage(msg).None? ==> r == Failure(DecodeFailure("job specification"))
    ensures specCodec.fromMessage(msg).Some? && FirstNamed(msg, DURATION_FIELD_NAME).None? ==>
      r == Failure(NullPointer("no duration field"))
    ensures (&& specCodec.fromMessage(msg).Some?
             && FirstNamed(msg, DURATION_FIELD_NAME).Some? && FirstNamed(msg, DURATION_FIELD_NAME).value.LongValue?
             && FirstNamed(msg, COMPUTE_NODE_ID_FIELD_NAME).None?) ==>
      r == Failure(NullPointer("no computeNodeId field"))
  {
    match specCodec.fromMessage(msg)
    case None => Failure(DecodeFailure("job specification"))
    case Some(spec) =>
      match FirstNamed(msg, DURATION_FIELD_NAME)
      case None => Failure(NullPointer("no duration field"))
      case Some(durationValue) =>
        if !durationValue.LongValue? then Failure(DecodeFailure("duration is not a long"))
        else
          match FirstNamed(msg, COMPUTE_NODE_ID_FIELD_NAME)
          case None => Failure(NullPointer("no computeNodeId field"))
          case Some(nodeValue) =>
            if !nodeValue.StringValue? then Failure(DecodeFailure("computeNodeId is not a string"))
            else
              match DecodeItems(itemCodec, AllNamed(msg, ITEMS_FIELD_NAME))
              case Failure(e) => Failure(e)
              case Success(items) => Success(CalculationJobResult(spec, durationValue.n, items, nodeValue.s))
  }

  /** Reads the message as the builder does, appending items one field at a time. */
  method BuildObject<S, I>(specCodec: Codec<S>, itemCodec: Codec<I>, msg: Message)
    returns (r: Result<CalculationJobResult<S, I>>)
    ensures r == Decoded(specCodec, itemCodec, msg)
  {
    var spec := specCodec.fromMessage(msg);
    if spec.None? {
      return Failure(DecodeFailure("job specification"));
    }
    var durationValue := FirstNamed(msg, DURATION_FIELD_NAME);
    if durationValue.None? {
      return Failure(NullPointer("no duration field"));
    }
    if !durationValue.value.LongValue? {
      return Failure(DecodeFailure("duration is not a long"));
    }
    var nodeValue := FirstNamed(msg, COMPUTE_NODE_ID_FIELD_NAME);
    if nodeValue.None? {
      return Failure(NullPointer("no computeNodeId field"));
    }
    if !nodeValue.value.StringValue? {
      return Failure(DecodeFailure("computeNodeId is not a string"));
    }
    var values := AllNamed(msg, ITEMS_FIELD_NAME);
    var jobItems: seq<I> := [];
    var i := 0;
    while i < |values|
      invariant 0 <= i <= |values|
      invariant DecodeItems(itemCodec, values[..i]) == Success(jobItems)
    {
      assert values[..i + 1][..i] == values[..i];
      var item := DecodeItem(itemCodec, values[i]);
      if item.Failure? {
        assert DecodeItems(itemCodec, values[..i + 1]) == Failure(item.error);
        DecodeItemsFailurePersists(itemCodec, values, i + 1);
        return Failure(item.error);
      }
      jobItems := jobItems + [item.value];
      i := i + 1;
    }
    assert values[..i] == values;
    r := Success(CalculationJobResult(spec.value, durationValue.value.n, jobItems, nodeValue.value.s));
  }

  /** Once a prefix of the item fields fails to read, the whole list fails with the same error. */
  lemma {:induction false} DecodeItemsFailurePersists<I>(itemCodec: Codec<I>, values: seq<FieldValue>, k: nat)
    requires k <= |values|
    requires DecodeItems(itemCodec, values[..k]).Failure?
    ensures DecodeItems(itemCodec, values) == DecodeItems(itemCodec, values[..k])
    decreases |values| - k
  {
    if k == |values| {
      assert values[..k] == values;
    } else {
      assert values[..k + 1][..k] == values[..k];
      DecodeItemsFailurePersists(itemCodec, values, k + 1);
    }
  }

  // ---------------------------------------------------------------------------
  // Properties

  lemma {:induction false} WithoutReservedAppend(a: Message, b: Message)
    ensures WithoutReserved(a + b) == WithoutReserved(a) + WithoutReserved(b)
    decreases |a|
  {
    if a == [] {
      assert a + b == b;
    } else {
      assert (a + b)[1..] == a[1..] + b;
      WithoutReservedAppend(a[1..], b);
    }
  }

  /** A message whose fields all carry unreserved names is kept whole. */
  lemma {:induction false} WithoutReservedKeeps(msg: Message)
    requires forall f :: f in msg ==> !Reserved(f.name)
    ensures WithoutReserved(msg) == msg
    decreases |msg|
  {
    if msg != [] {
      assert forall f :: f in msg[1..] ==> f in msg;
      WithoutReservedKeeps(msg[1..]);
    }
  }

  /** A message whose fields all carry reserved names disappears. */
  lemma {:induction false} WithoutReservedDrops(msg: Message)
    requires forall i :: 0 <= i < |msg| ==> Reserved(msg[i].name)
    ensures WithoutReserved(msg) == []
    decreases |msg|
  {
    if msg != [] {
      WithoutReservedDrops(msg[1..]);
    }
  }

  lemma {:induction false} AllNamedAppend(a: Message, b: Message, name: string)
    ensures AllNamed(a + b, name) == AllNamed(a, name) + AllNamed(b, name)
    decreases |a|
  {
    if a == [] {
      assert a + b == b;
    } else {
      assert (a + b)[1..] == a[1..] + b;
      AllNamedAppend(a[1..], b, name);
    }
  }

  lemma {:induction false} AllNamedAbsent(msg: Message, name: string)
    requires forall f :: f in msg ==> f.name != name
    ensures AllNamed(msg, name) == []
    decreases |msg|
  {
    if msg != [] {
      assert forall f :: f in msg[1..] ==> f in msg;
      AllNamedAbsent(msg[1..], name);
    }
  }

  lemma {:induction false} FirstNamedSkips(a: Message, b: Message, name: string)
    requires forall f :: f in a ==> f.name != name
    ensures FirstNamed(a + b, name) == FirstNamed(b, name)
    decreases |a|
  {
    if a != [] {
      assert (a + b)[1..] == a[1..] + b;
      assert forall f :: f in a[1..] ==> f in a;
      FirstNamedSkips(a[1..], b, name);
    } else {
      assert a + b == b;
    }
  }

  /** The `resultItems` fields of the item part are exactly the encoded items, in order. */
  lemma {:induction false} ItemFieldsValues<I>(itemCodec: Codec<I>, items: seq<I>)
    ensures AllNamed(ItemFields(itemCodec, items), ITEMS_FIELD_NAME)
         == ItemValues(itemCodec, items)
    decreases |items|
  {
    if items != [] {
      var fields := ItemFields(itemCodec, items);
      assert fields[1..] == ItemFields(itemCodec, items[1..]);
      ItemFieldsValues(itemCodec, items[1..]);
    }
  }

  /** Reading back the encoded items of a round-tripping item conversion gives the items. */
  lemma {:induction false} DecodeEncodedItems<I(!new)>(itemCodec: Codec<I>, items: seq<I>)
    requires ItemCodecRoundTrips(itemCodec)
    ensures DecodeItems(itemCodec, ItemValues(itemCodec, items))
         == Success(items)
    decreases |items|
  {
    var values := ItemValues(itemCodec, items);
    if items != [] {
      var n := |items| - 1;
      assert values[..n] == ItemValues(itemCodec, items[..n]);
      DecodeEncodedItems(itemCodec, items[..n]);
      assert items[..n] + [items[n]] == items;
    }
  }

  /** The number of `resultItems` fields of a written message equals the number of items. */
  lemma ItemFieldCount<S(!new), I>(specCodec: Codec<S>, itemCodec: Codec<I>, result: CalculationJobResult<S, I>)
    requires SpecCodecWellBehaved(specCodec)
    ensures |AllNamed(Encoded(specCodec, itemCodec, result), ITEMS_FIELD_NAME)| == |result.resultItems|
  {
    EncodedItemValues(specCodec, itemCodec, result);
  }

  lemma EncodedItemValues<S(!new), I>(specCodec: Codec<S>, itemCodec: Codec<I>, result: CalculationJobResult<S, I>)
    requires SpecCodecWellBehaved(specCodec)
    ensures AllNamed(Encoded(specCodec, itemCodec, result), ITEMS_FIELD_NAME)
         == ItemValues(itemCodec, result.resultItems)
  {
    var specFields := specCodec.toMessage(result.specification);
    var header := [Field(DURATION_FIELD_NAME, LongValue(result.duration)),
                   Field(COMPUTE_NODE_ID_FIELD_NAME, StringValue(result.computeNodeId))];
    var items := ItemFields(itemCodec, result.resultItems);
    AllNamedAppend(specFields + header, items, ITEMS_FIELD_NAME);
    AllNamedAppend(specFields, header, ITEMS_FIELD_NAME);
    AllNamedAbsent(specFields, ITEMS_FIELD_NAME);
    assert AllNamed(header, ITEMS_FIELD_NAME) == [];
    ItemFieldsValues(itemCodec, result.resultItems);
  }

  /** The specification conversion, applied to a whole written message, finds the specification. */
  lemma EncodedSpecification<S(!new), I>(specCodec: Codec<S>, itemCodec: Codec<I>, result: CalculationJobResult<S, I>)
    requires SpecCodecWellBehaved(specCodec)
    ensures specCodec.fromMessage(Encoded(specCodec, itemCodec, result)) == Some(result.specification)
  {
    var specFields := specCodec.toMessage(result.specification);
    var rest := [Field(DURATION_FIELD_NAME, LongValue(result.duration)),
                 Field(COMPUTE_NODE_ID_FIELD_NAME, StringValue(result.computeNodeId))]
                + ItemFields(itemCodec, result.resultItems);
    assert Encoded(specCodec, itemCodec, result) == specFields + rest;
    WithoutReservedAppend(specFields, rest);
    WithoutReservedKeeps(specFields);
    WithoutReservedDrops(rest);
    assert WithoutReserved(specFields + rest) == specFields;
  }

  /** Duration and node id are the first fields of those names in a written message. */
  lemma EncodedHeader<S(!new), I>(specCodec: Codec<S>, itemCodec: Codec<I>, result: CalculationJobResult<S, I>)
    requires SpecCodecWellBehaved(specCodec)
    ensures FirstNamed(Encoded(specCodec, itemCodec, result), DURATION_FIELD_NAME) == Some(LongValue(result.duration))
    ensures FirstNamed(Encoded(specCodec, itemCodec, result), COMPUTE_NODE_ID_FIELD_NAME)
         == Some(StringValue(result.computeNodeId))
  {
  }

  /**
   * Round trip: reading a written job result gives back the same
   * specification, duration, items and node id, provided the context's
   * conversions round-trip and the specification stays clear of the three
   * field names this builder uses.
   */
  lemma RoundTrip<S(!new), I(!new)>(specCodec: Codec<S>, itemCodec: Codec<I>, result: CalculationJobResult<S, I>)
    requires SpecCodecWellBehaved(specCodec)
    requires ItemCodecRoundTrips(itemCodec)
    ensures Decoded(specCodec, itemCodec, Encoded(specCodec, itemCodec, result)) == Success(result)
  {
    var msg := Encoded(specCodec, itemCodec, result);
    EncodedSpecification(specCodec, itemCodec, result);
    EncodedHeader(specCodec, itemCodec, result);
    EncodedItemValues(specCodec, itemCodec, result);
    DecodeEncodedItems(itemCodec, result.resultItems);
    assert DecodeItems(itemCodec, AllNamed(msg, ITEMS_FIELD_NAME)) == Success(result.resultItems);
  }
}
