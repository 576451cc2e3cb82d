/** GingerTemplate.Core.Services.LoggingService: the correlation id shared by
    log entries and the properties attached to each entry. The ambient
    `AsyncLocal` slot is the `correlationId` field; the id an `Activity` or a
    new `Guid` would supply is the `generated` parameter. */
module Logging {
  import opened Base
  import opened StringExtensions

  /** A log property value: null, a string, or any other boxed object. */
  datatype PropertyValue = NullValue | Text(text: string) | Boxed(handle: nat)

  const CorrelationKey := "CorrelationId"

  /** The id `EnsureCorrelationId` settles on: a non-blank explicit id, else a
      non-blank stored id, else the generated one. */
  function CorrelationFor(stored: Option<string>, explicit: Option<string>, generated: string): (id: string)
    requires !IsNullOrWhiteSpace(Some(generated))
    ensures !IsNullOrWhiteSpace(Some(id))
    ensures !IsNullOrWhiteSpace(explicit) ==> id == explicit.value
    ensures IsNullOrWhiteSpace(explicit) && !IsNullOrWhiteSpace(stored) ==> id == stored.value
    ensures IsNullOrWhiteSpace(explicit) && IsNullOrWhiteSpace(stored) ==> id == generated
  {
    if !IsNullOrWhiteSpace(explicit) then explicit.value
    else if !IsNullOrWhiteSpace(stored) then stored.value
    else generated
  }

  /** `MergeProperties` given the id: a copy of the caller's entries (none for
      null) with "CorrelationId" set to that id. */
  function Merge(properties: Option<map<string, PropertyValue>>, id: string): (merged: map<string, PropertyValue>)
    ensures CorrelationKey in merged && merged[CorrelationKey] == Text(id)
    ensures properties.None? ==> merged.Keys == {CorrelationKey}
    ensures properties.Some? ==> merged.Keys == properties.value.Keys + {CorrelationKey}
    ensures properties.Some? ==>
              forall k | k in properties.value && k != CorrelationKey :: merged[k] == properties.value[k]
  {
    (if properties.Some? then properties.value else map[])[CorrelationKey := Text(id)]
  }

  class LoggingService {
    /** The ambient correlation slot; `None` is an unset (null) value. */
    var correlationId: Option<string>

    constructor ()
      ensures correlationId == None
    {
      correlationId := None;
    }

    /** `EnsureCorrelationId`: a non-blank explicit id is stored and
        returned; otherwise a non-blank stored id is returned unchanged;
        otherwise the generated id is stored and returned. */
    method EnsureCorrelationId(explicit: Option<string>, generated: string) returns (id: string)
      requires !IsNullOrWhiteSpace(Some(generated))
      modifies this
      ensures id == CorrelationFor(old(correlationId), explicit, generated)
      ensures correlationId == if !IsNullOrWhiteSpace(explicit) || IsNullOrWhiteSpace(old(correlationId))
                               then Some(id) else old(correlationId)
    {
      if !IsNullOrWhiteSpace(explicit) {
        correlationId := explicit;
        return explicit.value;
      }
      if !IsNullOrWhiteSpace(correlationId) {
        return correlationId.value;
      }
      correlationId := Some(generated);
      return generated;
    }

    /** `CurrentCorrelationId`: `EnsureCorrelationId` with no explicit id. */
    method CurrentCorrelationId(generated: string) returns (id: string)
      requires !IsNullOrWhiteSpace(Some(generated))
      modifies this
      ensures id == CorrelationFor(old(correlationId), None, generated)
      ensures correlationId == Some(id)
    {
      id := EnsureCorrelationId(None, generated);
    }

    /** `BeginCorrelationScope`: settles the id and opens a logger scope
        holding it as its only state. */
    method BeginCorrelationScope(explicit: Option<string>, generated: string) returns (scope: map<string, PropertyValue>)
      requires !IsNullOrWhiteSpace(Some(generated))
      modifies this
      ensures scope == map[CorrelationKey := Text(CorrelationFor(old(correlationId), explicit, generated))]
      ensures correlationId == Some(CorrelationFor(old(correlationId), explicit, generated))
    {
      var id := EnsureCorrelationId(explicit, generated);
      scope := map[CorrelationKey := Text(id)];
    }

    /** `MergeProperties`: the caller's entries plus the current id. */
    method MergeProperties(properties: Option<map<string, PropertyValue>>, generated: string)
      returns (merged: map<string, PropertyValue>)
      requires !IsNullOrWhiteSpace(Some(generated))
      modifies this
      ensures merged == Merge(properties, CorrelationFor(old(correlationId), None, generated))
      ensures correlationId == Some(CorrelationFor(old(correlationId), None, generated))
    {
      var id := EnsureCorrelationId(None, generated);
      merged := Merge(properties, id);
    }
  }

  /** Once an id is settled, later calls without an explicit id return it,
      whatever id they could have generated. */
  lemma {:induction false} CorrelationIsSticky(stored: Option<string>, explicit: Option<string>, g1: string, g2: string)
    requires !IsNullOrWhiteSpace(Some(g1)) && !IsNullOrWhiteSpace(Some(g2))
    ensures var first := CorrelationFor(stored, explicit, g1);
            CorrelationFor(Some(first), None, g2) == first
  {
    var first := CorrelationFor(stored, explicit, g1);
    assert !IsNullOrWhiteSpace(Some(first));
  }

  /** A blank explicit id is the same as none. */
  lemma BlankExplicitIgnored(stored: Option<string>, explicit: Option<string>, generated: string)
    requires !IsNullOrWhiteSpace(Some(generated))
    requires IsNullOrWhiteSpace(explicit)
    ensures CorrelationFor(stored, explicit, generated) == CorrelationFor(stored, None, generated)
  {
  }

  /** A caller's own "CorrelationId" entry is overridden. */
  lemma CallerCorrelationOverridden(properties: map<string, PropertyValue>, id: string)
    requires CorrelationKey in properties && properties[CorrelationKey] != Text(id)
    ensures Merge(Some(properties), id)[CorrelationKey] != properties[CorrelationKey]
    ensures |Merge(Some(properties), id)| == |properties|
  {
    assert Merge(Some(properties), id).Keys == properties.Keys;
  }
}
