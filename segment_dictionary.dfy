/**
 * The segment dictionary registration: every custom field of a published
 * custom object becomes a `cmf_<field id>` translation for the segment
 * filter query builder, and every such object one `cmo_<object id>`
 * translation, registered before the first of its fields. The field rows are
 * the input the database query returns.
 */
module SegmentDictionary {
  import opened Wrappers
  import opened Php

  /** A row of the query: the field's id, label and type and its object's id. */
  datatype FieldRow = FieldRow(id: nat, fieldLabel: string, fieldType: string, customObjectId: nat)

  /** The query builder services a translation names. */
  datatype QueryBuilder = CustomItemFilterQueryBuilder | CustomFieldFilterQueryBuilder

  /** A dictionary translation: its query builder, its value table (fields only) and its id. */
  datatype Translation = Translation(builder: QueryBuilder, table: Option<string>, field: nat)

  /** The thrown `InvalidArgumentException`. */
  datatype InvalidArgument = InvalidArgument(message: string)

  /** The field types a segment can filter on. */
  const SupportedTypes: set<string> := {"number", "text", "datetime"}

  /** `createTranslation`: the field's translation, or an exception for an unsupported type. */
  function CreateTranslation(row: FieldRow): (r: Result<Translation, InvalidArgument>)
    ensures r.Ok? <==> row.fieldType in SupportedTypes
    ensures r.Ok? ==> r.value.builder == CustomFieldFilterQueryBuilder && r.value.field == row.id
                      && r.value.table == Some("custom_field_value_" + row.fieldType)
  {
    if row.fieldType !in SupportedTypes then Err(InvalidArgument("Given custom field type does not exist: " + row.fieldType))
    else Ok(Translation(CustomFieldFilterQueryBuilder, Some("custom_field_value_" + row.fieldType), row.id))
  }

  /** The translation of a custom object. */
  function ObjectTranslation(objectId: nat): Translation {
    Translation(CustomItemFilterQueryBuilder, None, objectId)
  }

  function ObjectKey(objectId: nat): string {
    "cmo_" + NatToString(objectId)
  }

  function FieldKey(fieldId: nat): string {
    "cmf_" + NatToString(fieldId)
  }

  /** Object keys and field keys never collide, and each names one id. */
  lemma KeysDistinct(a: nat, b: nat)
    ensures ObjectKey(a) != FieldKey(b)
    ensures ObjectKey(a) == ObjectKey(b) ==> a == b
    ensures FieldKey(a) == FieldKey(b) ==> a == b
  {
    assert ObjectKey(a)[2] != FieldKey(b)[2];
    if ObjectKey(a) == ObjectKey(b) {
      assert NatToString(a) == ObjectKey(a)[4..];
      NatToStringInjective(a, b);
    }
    if FieldKey(a) == FieldKey(b) {
      assert NatToString(a) == FieldKey(a)[4..];
      NatToStringInjective(a, b);
    }
  }

  /** The dictionary being generated: the event's translations, the objects registered, and an abort. */
  datatype State = State(translations: Array<string, Translation>, registered: seq<nat>, error: Option<InvalidArgument>)

  /**
   * One row: its object's translation when the object is new, then its own
   * translation, or the exception (after the object's translation).
   */
  function Step(s: State, row: FieldRow): State {
    var o := row.customObjectId;
    var s1 := if o in s.registered then s
              else s.(translations := ArraySet(s.translations, ObjectKey(o), ObjectTranslation(o)), registered := s.registered + [o]);
    match CreateTranslation(row)
    case Err(e) => s1.(error := Some(e))
    case Ok(t) => s1.(translations := ArraySet(s1.translations, FieldKey(row.id), t))
  }

  /** The rows in order from the event's translations; an exception ends the loop. */
  function Generate(rows: seq<FieldRow>, initial: Array<string, Translation>): State {
    if |rows| == 0 then State(initial, [], None)
    else
      var s := Generate(rows[..|rows| - 1], initial);
      if s.error.Some? then s else Step(s, rows[|rows| - 1])
  }

  /** The event collecting translations; `addTranslation` assigns its key. */
  class DictionaryEvent {
    var translations: Array<string, Translation>

    constructor(translations: Array<string, Translation>)
      ensures this.translations == translations
    {
      this.translations := translations;
    }

    method AddTranslation(key: string, translation: Translation)
      modifies this
      ensures translations == ArraySet(old(translations), key, translation)
    {
      translations := ArraySet(translations, key, translation);
    }
  }

  /** Once aborted, later rows change nothing. */
  lemma {:induction false} AbortIsFinal(rows: seq<FieldRow>, initial: Array<string, Translation>, i: nat)
    requires i <= |rows|
    requires Generate(rows[..i], initial).error.Some?
    ensures Generate(rows, initial) == Generate(rows[..i], initial)
    decreases |rows|
  {
    if i < |rows| {
      var init := rows[..|rows| - 1];
      assert init[..i] == rows[..i];
      AbortIsFinal(init, initial, i);
    } else {
      assert rows[..i] == rows;
    }
  }

  /** The body of the row loop, on the event and the registered objects. */
  method AddRow(event: DictionaryEvent, registeredObjects: seq<nat>, field: FieldRow)
    returns (registered: seq<nat>, error: Option<InvalidArgument>)
    modifies event
    ensures State(event.translations, registered, error) == Step(State(old(event.translations), registeredObjects, None), field)
  {
    registered := registeredObjects;
    var coId := field.customObjectId;
    if coId !in registered {
      event.AddTranslation(ObjectKey(coId), ObjectTranslation(coId));
      registered := registered + [coId];
    }
    var translation := CreateTranslation(field);
    if translation.Err? {
      return registered, Some(translation.error);
    }
    event.AddTranslation(FieldKey(field.id), translation.value);
    return registered, None;
  }

  /**
   * `onGenerateSegmentDictionary`: the rows in order, each registering its
   * object when new and then its own translation; an unsupported type throws
   * (`error`) after what was already added.
   */
  method OnGenerateSegmentDictionary(event: DictionaryEvent, rows: seq<FieldRow>) returns (error: Option<InvalidArgument>)
    modifies event
    ensures event.translations == Generate(rows, old(event.translations)).translations
    ensures error == Generate(rows, old(event.translations)).error
  {
    ghost var initial := event.translations;
    var registeredObjects: seq<nat> := [];
    var i := 0;
    while i < |rows|
      invariant 0 <= i <= |rows|
      invariant initial == old(event.translations)
      invariant Generate(rows[..i], initial) == State(event.translations, registeredObjects, None)
    {
      GenerateOneMore(rows, initial, i);
      registeredObjects, error := AddRow(event, registeredObjects, rows[i]);
      if error.Some? {
        AbortIsFinal(rows, initial, i + 1);
        return error;
      }
      i := i + 1;
    }
    assert rows[..|rows|] == rows;
    return None;
  }

  /** One more row of the loop. */
  lemma GenerateOneMore(rows: seq<FieldRow>, initial: Array<string, Translation>, i: nat)
    requires i < |rows|
    ensures Generate(rows[..i + 1], initial)
            == if Generate(rows[..i], initial).error.Some? then Generate(rows[..i], initial)
               else Step(Generate(rows[..i], initial), rows[i])
  {
    assert rows[..i + 1][..i] == rows[..i];
  }

  /** The registered objects only grow: each prefix of the rows registers a prefix of the objects. */
  lemma {:induction false} RegisteredOnlyGrows(rows: seq<FieldRow>, initial: Array<string, Translation>, i: nat)
    requires i <= |rows|
    ensures Generate(rows[..i], initial).registered <= Generate(rows, initial).registered
    decreases |rows|
  {
    if i < |rows| {
      var init := rows[..|rows| - 1];
      assert init[..i] == rows[..i];
      RegisteredOnlyGrows(init, initial, i);
    } else {
      assert rows[..i] == rows;
    }
  }

  /** No translation is ever removed, an abort included. */
  lemma {:induction false} TranslationsOnlyGrow(rows: seq<FieldRow>, initial: Array<string, Translation>, i: nat)
    requires i <= |rows|
    ensures ArrayKeys(Generate(rows[..i], initial).translations) <= ArrayKeys(Generate(rows, initial).translations)
    decreases |rows|
  {
    if i < |rows| {
      var init := rows[..|rows| - 1];
      assert init[..i] == rows[..i];
      TranslationsOnlyGrow(init, initial, i);
    } else {
      assert rows[..i] == rows;
    }
  }

  /** Each object registered once, with its translation in the dictionary. */
  ghost predicate ObjectsRegistered(s: State) {
    (forall i, j :: 0 <= i < j < |s.registered| ==> s.registered[i] != s.registered[j])
    && forall o :: o in s.registered ==> ArrayGet(s.translations, ObjectKey(o)) == Some(ObjectTranslation(o))
  }

  lemma StepKeepsObjectsRegistered(s: State, row: FieldRow)
    requires ObjectsRegistered(s)
    ensures ObjectsRegistered(Step(s, row))
  {
    var o := row.customObjectId;
    var s1 := if o in s.registered then s
              else s.(translations := ArraySet(s.translations, ObjectKey(o), ObjectTranslation(o)), registered := s.registered + [o]);
    forall p | p in s1.registered
      ensures ArrayGet(s1.translations, ObjectKey(p)) == Some(ObjectTranslation(p))
    {
      KeysDistinct(p, o);
    }
    assert ObjectsRegistered(s1);
    if CreateTranslation(row).Ok? {
      var t := CreateTranslation(row).value;
      forall p | p in s1.registered
        ensures ArrayGet(ArraySet(s1.translations, FieldKey(row.id), t), ObjectKey(p)) == Some(ObjectTranslation(p))
      {
        KeysDistinct(p, row.id);
      }
    }
  }

  /**
   * Each object is registered once and its translation stays in the
   * dictionary, an abort included.
   */
  lemma {:induction false} ObjectsRegisteredOnce(rows: seq<FieldRow>, initial: Array<string, Translation>)
    ensures ObjectsRegistered(Generate(rows, initial))
  {
    if |rows| > 0 {
      ObjectsRegisteredOnce(rows[..|rows| - 1], initial);
      if Generate(rows[..|rows| - 1], initial).error.None? {
        StepKeepsObjectsRegistered(Generate(rows[..|rows| - 1], initial), rows[|rows| - 1]);
      }
    }
  }

  /** Without an abort, the objects registered are exactly the objects of the rows. */
  lemma {:induction false} RegisteredAreRowObjects(rows: seq<FieldRow>, initial: Array<string, Translation>)
    requires Generate(rows, initial).error.None?
    ensures forall o :: o in Generate(rows, initial).registered <==> o in RowObjects(rows)
  {
    if |rows| > 0 {
      var init := rows[..|rows| - 1];
      var row := rows[|rows| - 1];
      RegisteredAreRowObjects(init, initial);
      StepRegisters(Generate(init, initial), row);
      RowObjectsSnoc(rows);
    }
  }

  /** The objects of the rows. */
  ghost function RowObjects(rows: seq<FieldRow>): set<nat> {
    set r | r in rows :: r.customObjectId
  }

  lemma RowObjectsSnoc(rows: seq<FieldRow>)
    requires |rows| > 0
    ensures RowObjects(rows) == RowObjects(rows[..|rows| - 1]) + {rows[|rows| - 1].customObjectId}
  {
    var init := rows[..|rows| - 1];
    assert rows == init + [rows[|rows| - 1]];
    assert forall r :: r in rows <==> r in init || r == rows[|rows| - 1];
  }

  /** A step registers its row's object, and nothing else. */
  lemma StepRegisters(s: State, row: FieldRow)
    ensures forall o :: o in Step(s, row).registered <==> o in s.registered || o == row.customObjectId
  {
  }

  /** A step writes its field's translation and no other field's. */
  lemma StepFieldTranslation(s: State, row: FieldRow, id: nat)
    requires Step(s, row).error.None?
    ensures ArrayGet(Step(s, row).translations, FieldKey(id))
            == if id == row.id then Some(CreateTranslation(row).value) else ArrayGet(s.translations, FieldKey(id))
  {
    KeysDistinct(row.customObjectId, id);
    KeysDistinct(id, row.id);
  }

  /**
   * Without an abort, and with distinct field ids as the database gives them,
   * every row's field has its own translation in the dictionary.
   */
  lemma {:induction false} EveryFieldTranslated(rows: seq<FieldRow>, initial: Array<string, Translation>)
    requires Generate(rows, initial).error.None?
    requires forall i, j :: 0 <= i < j < |rows| ==> rows[i].id != rows[j].id
    ensures forall k :: 0 <= k < |rows| ==>
              CreateTranslation(rows[k]).Ok?
              && ArrayGet(Generate(rows, initial).translations, FieldKey(rows[k].id)) == Some(CreateTranslation(rows[k]).value)
  {
    if |rows| > 0 {
      var init := rows[..|rows| - 1];
      var row := rows[|rows| - 1];
      EveryFieldTranslated(init, initial);
      forall k | 0 <= k < |rows|
        ensures CreateTranslation(rows[k]).Ok?
        ensures ArrayGet(Generate(rows, initial).translations, FieldKey(rows[k].id)) == Some(CreateTranslation(rows[k]).value)
      {
        StepFieldTranslation(Generate(init, initial), row, rows[k].id);
        if k < |rows| - 1 {
          assert init[k] == rows[k];
        }
      }
    }
  }

  /**
   * A row of an object not yet registered, into a dictionary holding neither
   * key, appends the object's translation and then the field's, in that order.
   */
  lemma ObjectBeforeItsFirstField(s: State, row: FieldRow)
    requires row.customObjectId !in s.registered
    requires ObjectKey(row.customObjectId) !in ArrayKeys(s.translations)
    requires FieldKey(row.id) !in ArrayKeys(s.translations)
    requires row.fieldType in SupportedTypes
    ensures Step(s, row).translations
            == s.translations + [(ObjectKey(row.customObjectId), ObjectTranslation(row.customObjectId)),
                                 (FieldKey(row.id), CreateTranslation(row).value)]
    ensures Step(s, row).registered == s.registered + [row.customObjectId]
  {
    var o := row.customObjectId;
    KeysDistinct(o, row.id);
    StepOfNewObject(s, row);
    AppendTwoNewKeys(s.translations, ObjectKey(o), ObjectTranslation(o), FieldKey(row.id), CreateTranslation(row).value);
  }

  /** A supported row of a new object sets the object's key, then the field's. */
  lemma StepOfNewObject(s: State, row: FieldRow)
    requires row.customObjectId !in s.registered
    requires row.fieldType in SupportedTypes
    ensures var o := row.customObjectId;
      Step(s, row).translations
      == ArraySet(ArraySet(s.translations, ObjectKey(o), ObjectTranslation(o)), FieldKey(row.id), CreateTranslation(row).value)
    ensures Step(s, row).registered == s.registered + [row.customObjectId]
  {
  }

  /** Setting two distinct new keys appends their entries in order. */
  lemma AppendTwoNewKeys<K(!new), V>(a: Array<K, V>, k1: K, v1: V, k2: K, v2: V)
    requires k1 !in ArrayKeys(a) && k2 !in ArrayKeys(a) && k1 != k2
    ensures ArraySet(ArraySet(a, k1, v1), k2, v2) == a + [(k1, v1), (k2, v2)]
  {
    ArraySetNewKey(a, k1, v1);
    ArraySetNewKey(a + [(k1, v1)], k2, v2);
    SeqAssoc(a, [(k1, v1)], [(k2, v2)]);
  }

  /** A row of an unsupported type aborts, after registering its object's translation when new. */
  lemma UnsupportedTypeAborts(s: State, row: FieldRow)
    requires row.fieldType !in SupportedTypes
    ensures Step(s, row).error == Some(InvalidArgument("Given custom field type does not exist: " + row.fieldType))
    ensures Step(s, row).translations
            == if row.customObjectId in s.registered then s.translations
               else ArraySet(s.translations, ObjectKey(row.customObjectId), ObjectTranslation(row.customObjectId))
  {
  }
}
