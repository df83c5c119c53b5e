/**
 * The form subscriber: custom objects offered as form objects, and each of
 * an object's custom fields offered as a form field whose list holds the
 * items' values of that field. The models' answers are inputs.
 */
module FormSubscriber {
  import opened Wrappers
  import opened Php

  /** A custom object with what the subscriber reads of it. */
  datatype CustomObject = CustomObject(alias: string, name: string, customFields: seq<CustomField>)

  /** A custom field with what the subscriber reads of it. */
  datatype CustomField = CustomField(alias: string, name: string, fieldType: string)

  /** A custom field value of a populated item: its field's alias and its value. */
  datatype CustomFieldValue = CustomFieldValue(fieldAlias: string, value: Value)

  /** The form's `ObjectCrate(key, name)`. */
  datatype ObjectCrate = ObjectCrate(key: string, name: string)

  /** The form's `FieldCrate(key, name, type, ['list' => list])`. */
  datatype FieldCrate = FieldCrate(key: string, name: string, fieldType: string, list: Array<int, Value>)

  /** The event collecting form objects. */
  class ObjectCollectEvent {
    var objects: seq<ObjectCrate>

    constructor()
      ensures objects == []
    {
      objects := [];
    }

    method AppendObject(crate: ObjectCrate)
      modifies this
      ensures objects == old(objects) + [crate]
    {
      objects := objects + [crate];
    }
  }

  /** The event collecting the fields of one form object. */
  class FieldCollectEvent {
    const objectAlias: string
    var fields: seq<FieldCrate>

    constructor(objectAlias: string)
      ensures this.objectAlias == objectAlias && fields == []
    {
      this.objectAlias := objectAlias;
      fields := [];
    }

    method AppendField(crate: FieldCrate)
      modifies this
      ensures fields == old(fields) + [crate]
    {
      fields := fields + [crate];
    }
  }

  /** The crate of each object, in order. */
  function ObjectCrates(objects: seq<CustomObject>): (r: seq<ObjectCrate>)
    ensures |r| == |objects|
    ensures forall i :: 0 <= i < |objects| ==> r[i] == ObjectCrate(objects[i].alias, objects[i].name)
  {
    if |objects| == 0 then [] else ObjectCrates(objects[..|objects| - 1]) + [ObjectCrate(objects[|objects| - 1].alias, objects[|objects| - 1].name)]
  }

  /** `onObjectCollect`: one crate per custom object the model fetches, in order. */
  method OnObjectCollect(event: ObjectCollectEvent, entities: seq<CustomObject>)
    modifies event
    ensures event.objects == old(event.objects) + ObjectCrates(entities)
  {
    var i := 0;
    while i < |entities|
      invariant 0 <= i <= |entities|
      invariant event.objects == old(event.objects) + ObjectCrates(entities[..i])
    {
      var entity := entities[i];
      assert entities[..i + 1][..i] == entities[..i];
      event.AppendObject(ObjectCrate(entity.alias, entity.name));
      i := i + 1;
    }
    assert entities[..|entities|] == entities;
  }

  /** The value of the last custom field value of the item for the alias, or null. */
  function LastMatchingValue(values: seq<CustomFieldValue>, alias: string): Value {
    if |values| == 0 then Null
    else if values[|values| - 1].fieldAlias == alias then values[|values| - 1].value
    else LastMatchingValue(values[..|values| - 1], alias)
  }

  /**
   * The value picked is that of the last entry of the alias, or null when
   * none has it.
   */
  lemma {:induction false} LastMatchingValueIsLast(values: seq<CustomFieldValue>, alias: string)
    ensures (forall i :: 0 <= i < |values| ==> values[i].fieldAlias != alias) ==> LastMatchingValue(values, alias) == Null
    ensures forall i :: 0 <= i < |values| && values[i].fieldAlias == alias
                        && (forall j :: i < j < |values| ==> values[j].fieldAlias != alias)
                        ==> LastMatchingValue(values, alias) == values[i].value
  {
    if |values| > 0 {
      var n := |values| - 1;
      var init := values[..n];
      LastMatchingValueIsLast(init, alias);
      if forall i :: 0 <= i < |values| ==> values[i].fieldAlias != alias {
        assert forall i :: 0 <= i < |init| ==> init[i].fieldAlias != alias by {
          forall i | 0 <= i < |init| ensures init[i].fieldAlias != alias {
            assert init[i] == values[i];
          }
        }
      }
      forall i | 0 <= i < |values| && values[i].fieldAlias == alias
                 && (forall j :: i < j < |values| ==> values[j].fieldAlias != alias)
        ensures LastMatchingValue(values, alias) == values[i].value
      {
        if i < n {
          assert values[n].fieldAlias != alias;
          assert init[i] == values[i];
          forall j | i < j < |init| ensures init[j].fieldAlias != alias {
            assert init[j] == values[j];
          }
        }
      }
    }
  }

  /** The loop inside the mapping closure: the last value whose field has the alias. */
  method PickValue(customFieldValues: seq<CustomFieldValue>, alias: string) returns (value: Value)
    ensures value == LastMatchingValue(customFieldValues, alias)
  {
    value := Null;
    var i := 0;
    while i < |customFieldValues|
      invariant 0 <= i <= |customFieldValues|
      invariant value == LastMatchingValue(customFieldValues[..i], alias)
    {
      assert customFieldValues[..i + 1][..i] == customFieldValues[..i];
      if customFieldValues[i].fieldAlias == alias {
        value := customFieldValues[i].value;
      }
      i := i + 1;
    }
    assert customFieldValues[..|customFieldValues|] == customFieldValues;
  }

  /** The `array_map` of `getCustomFieldValues`: each item, by its key, to its value for the field. */
  function ItemValues(field: CustomField, items: Array<int, seq<CustomFieldValue>>): (r: Array<int, Value>)
    ensures |r| == |items|
    ensures forall i :: 0 <= i < |items| ==> r[i] == (items[i].0, LastMatchingValue(items[i].1, field.alias))
  {
    if |items| == 0 then []
    else [(items[0].0, LastMatchingValue(items[0].1, field.alias))] + ItemValues(field, items[1..])
  }

  /**
   * `getCustomFieldValues`: each item (with its custom field values, as the
   * item model populates them) maps to its value for the field; null values
   * are then filtered out, the others keeping their item's key.
   */
  function FieldValueList(field: CustomField, items: Array<int, seq<CustomFieldValue>>): Array<int, Value> {
    FilterValues(ItemValues(field, items), v => v != Null)
  }

  /**
   * An item's entry is listed exactly when its value for the field is not
   * null, under the item's key, and the list keeps the items' order.
   */
  lemma FieldValueListMeaning(field: CustomField, items: Array<int, seq<CustomFieldValue>>)
    ensures forall e :: e in FieldValueList(field, items) <==>
              e.1 != Null && exists i :: 0 <= i < |items| && e == (items[i].0, LastMatchingValue(items[i].1, field.alias))
    ensures Subsequence(FieldValueList(field, items), ItemValues(field, items))
  {
    var m := ItemValues(field, items);
    FilterValuesKeepsOrder(m, v => v != Null);
    forall e | e in m
      ensures exists i :: 0 <= i < |items| && e == (items[i].0, LastMatchingValue(items[i].1, field.alias))
    {
      var i :| 0 <= i < |m| && m[i] == e;
    }
  }

  /** The crate of each field, every one listing the same items. */
  function FieldCrates(fields: seq<CustomField>, items: Array<int, seq<CustomFieldValue>>): (r: seq<FieldCrate>)
    ensures |r| == |fields|
    ensures forall i :: 0 <= i < |fields| ==>
              r[i] == FieldCrate(fields[i].alias, fields[i].name, fields[i].fieldType, FieldValueList(fields[i], items))
  {
    if |fields| == 0 then []
    else
      var f := fields[|fields| - 1];
      FieldCrates(fields[..|fields| - 1], items) + [FieldCrate(f.alias, f.name, f.fieldType, FieldValueList(f, items))]
  }

  /**
   * `onFieldCollect`: nothing when no custom object has the event's alias;
   * otherwise one crate per custom field of the object, in order, each
   * listing the values of the object's items (`itemsOf`, populated).
   */
  method OnFieldCollect(event: FieldCollectEvent, fetchByAlias: string -> Option<CustomObject>,
                        itemsOf: CustomObject -> Array<int, seq<CustomFieldValue>>)
    modifies event
    ensures fetchByAlias(event.objectAlias).None? ==> event.fields == old(event.fields)
    ensures fetchByAlias(event.objectAlias).Some? ==>
              var o := fetchByAlias(event.objectAlias).value;
              event.fields == old(event.fields) + FieldCrates(o.customFields, itemsOf(o))
  {
    var found := fetchByAlias(event.objectAlias);
    if found.None? {
      return;
    }
    var customObject := found.value;
    var i := 0;
    while i < |customObject.customFields|
      invariant 0 <= i <= |customObject.customFields|
      invariant event.fields == old(event.fields) + FieldCrates(customObject.customFields[..i], itemsOf(customObject))
    {
      var field := customObject.customFields[i];
      assert customObject.customFields[..i + 1][..i] == customObject.customFields[..i];
      var items := itemsOf(customObject);
      var list := FieldValueList(field, items);
      event.AppendField(FieldCrate(field.alias, field.name, field.fieldType, list));
      i := i + 1;
    }
    assert customObject.customFields[..|customObject.customFields|] == customObject.customFields;
  }
}
