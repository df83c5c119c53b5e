/**
 * The operator sets of the date and date-time field types: the form's
 * option list drops the segment-only operators, the operator list keeps
 * only the twelve date operators, and segments see the parent's list.
 * The parent type's arrays are inputs, in their order.
 */
module DateOperatorTrait {
  import opened Wrappers
  import opened Php

  /** The operators only segment filters support. */
  const SegmentOnly: set<string> := {"between", "!between", "inLast", "inNext"}

  /** The operators a date field offers. */
  const Allowed: set<string> := {"=", "!=", "gt", "gte", "lt", "lte", "empty", "!empty", "between", "!between", "inLast", "inNext"}

  /** `getOperatorOptions`: the parent's options with the segment-only keys unset. */
  function OperatorOptions<V(!new)>(parentOptions: Array<string, V>): Array<string, V> {
    KeepKeys(parentOptions, k => k !in SegmentOnly)
  }

  /** `getOperators`: `array_intersect_key` of the parent's operators with the allowed keys. */
  function Operators<V(!new)>(parentOperators: Array<string, V>): Array<string, V> {
    KeepKeys(parentOperators, k => k in Allowed)
  }

  /** `getOperatorsForSegment`: the parent's operators, every one of them. */
  function OperatorsForSegment<V>(parentOperators: Array<string, V>): (r: Array<string, V>)
    ensures forall k :: ArrayGet(r, k) == ArrayGet(parentOperators, k)
  {
    parentOperators
  }

  /**
   * An option is offered exactly when the parent offers it and it is not a
   * segment-only operator, with the parent's label, in the parent's order.
   */
  lemma OperatorOptionsMeaning<V(!new)>(parentOptions: Array<string, V>, k: string)
    ensures ArrayGet(OperatorOptions(parentOptions), k) == if k in SegmentOnly then None else ArrayGet(parentOptions, k)
    ensures Subsequence(OperatorOptions(parentOptions), parentOptions)
  {
    KeepKeysGet(parentOptions, k => k !in SegmentOnly, k);
    KeepKeysKeepsOrder(parentOptions, k => k !in SegmentOnly);
  }

  /**
   * An operator is listed exactly when the parent lists it and it is one of
   * the twelve allowed, with the parent's definition, in the parent's order.
   */
  lemma OperatorsMeaning<V(!new)>(parentOperators: Array<string, V>, k: string)
    ensures ArrayGet(Operators(parentOperators), k) == if k in Allowed then ArrayGet(parentOperators, k) else None
    ensures ArrayKeys(Operators(parentOperators)) == ArrayKeys(parentOperators) * Allowed
    ensures Subsequence(Operators(parentOperators), parentOperators)
  {
    KeepKeysGet(parentOperators, k => k in Allowed, k);
    KeepKeysKeepsOrder(parentOperators, k => k in Allowed);
    forall j | j in ArrayKeys(parentOperators) * Allowed
      ensures j in ArrayKeys(Operators(parentOperators))
    {
      var e :| e in parentOperators && e.0 == j;
      assert e in Operators(parentOperators);
    }
  }

  /**
   * The segment-only operators are never among the form's options, yet are
   * among the operators whenever the parent has them.
   */
  lemma SegmentOnlyOperators<V(!new)>(parentOptions: Array<string, V>, parentOperators: Array<string, V>, k: string)
    requires k in SegmentOnly
    ensures ArrayGet(OperatorOptions(parentOptions), k).None?
    ensures ArrayGet(Operators(parentOperators), k) == ArrayGet(parentOperators, k)
  {
    OperatorOptionsMeaning(parentOptions, k);
    OperatorsMeaning(parentOperators, k);
  }

  /** Every operator of the form is also available to segments, with the same definition. */
  lemma OperatorsWithinSegmentOperators<V(!new)>(parentOperators: Array<string, V>, k: string)
    requires k in ArrayKeys(Operators(parentOperators))
    ensures ArrayGet(OperatorsForSegment(parentOperators), k) == ArrayGet(Operators(parentOperators), k)
  {
    OperatorsMeaning(parentOperators, k);
  }
}
