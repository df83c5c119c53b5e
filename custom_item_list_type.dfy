/**
 * The choices of the custom item list form type: for each custom object, by
 * its alias, an `Any` choice for the whole object when it has items, then
 * one choice per item, by item name. The objects and each object's items are
 * inputs, as the models return them.
 */
module CustomItemListType {
  import opened Wrappers
  import opened Php

  /** A custom object as the choices use it. */
  datatype CustomObject = CustomObject(id: int, alias: string)

  /** A custom item as the choices use it. */
  datatype CustomItem = CustomItem(id: int, name: string)

  /** The choices: by object alias, the choice labels and their values. */
  type Choices = Array<string, Array<string, Value>>

  /** One assignment `$choices[$alias][$choice] = $value`. */
  datatype Write = Write(alias: string, choice: string, value: Value)

  /** The value of the `Any` choice of an object. */
  function AnyChoice(o: CustomObject): Value {
    Str("object_" + IntToString(o.id))
  }

  /** The assignments for an object's items, in order. */
  function ItemWrites(alias: string, items: seq<CustomItem>): seq<Write> {
    if |items| == 0 then []
    else ItemWrites(alias, items[..|items| - 1]) + [Write(alias, items[|items| - 1].name, Int(items[|items| - 1].id))]
  }

  /** The assignments for one object: `Any` when it has items, then its items. */
  function ObjectWrites(o: CustomObject, items: seq<CustomItem>): seq<Write> {
    (if |items| > 0 then [Write(o.alias, "Any", AnyChoice(o))] else []) + ItemWrites(o.alias, items)
  }

  /** The assignments for all objects, in order. */
  function AllWrites(objects: seq<CustomObject>, itemsOf: CustomObject -> seq<CustomItem>): seq<Write> {
    if |objects| == 0 then []
    else AllWrites(objects[..|objects| - 1], itemsOf) + ObjectWrites(objects[|objects| - 1], itemsOf(objects[|objects| - 1]))
  }

  /** The group of an alias, empty when absent (PHP creates it on first write). */
  function Group(choices: Choices, alias: string): Array<string, Value> {
    match ArrayGet(choices, alias)
    case None => []
    case Some(g) => g
  }

  /** Carries out one assignment. */
  function Assign(choices: Choices, w: Write): Choices {
    ArraySet(choices, w.alias, ArraySet(Group(choices, w.alias), w.choice, w.value))
  }

  /** Carries out the assignments in order. */
  function Apply(choices: Choices, ws: seq<Write>): Choices {
    if |ws| == 0 then choices else Assign(Apply(choices, ws[..|ws| - 1]), ws[|ws| - 1])
  }

  /** The choices built from the objects. */
  function ChoicesOf(objects: seq<CustomObject>, itemsOf: CustomObject -> seq<CustomItem>): Choices {
    Apply([], AllWrites(objects, itemsOf))
  }

  /** The choice value of a choice in a group, if any. */
  function ChoiceValue(choices: Choices, alias: string, choice: string): Option<Value> {
    match ArrayGet(choices, alias)
    case None => None
    case Some(g) => ArrayGet(g, choice)
  }

  /** The value of the last assignment to a choice of a group, if any. */
  function LastWrite(ws: seq<Write>, alias: string, choice: string): Option<Value> {
    if |ws| == 0 then None
    else if ws[|ws| - 1].alias == alias && ws[|ws| - 1].choice == choice then Some(ws[|ws| - 1].value)
    else LastWrite(ws[..|ws| - 1], alias, choice)
  }

  /** Some assignment is in the group of the alias. */
  predicate SomeWrite(ws: seq<Write>, alias: string) {
    exists i :: 0 <= i < |ws| && ws[i].alias == alias
  }

  /** Some object of the alias has items. */
  predicate SomeObjectHasItems(objects: seq<CustomObject>, itemsOf: CustomObject -> seq<CustomItem>, alias: string) {
    exists k :: 0 <= k < |objects| && objects[k].alias == alias && |itemsOf(objects[k])| > 0
  }

  lemma ApplyAppend(c: Choices, ws: seq<Write>, w: Write)
    ensures Apply(c, ws + [w]) == Assign(Apply(c, ws), w)
  {
    assert (ws + [w])[..|ws|] == ws;
  }

  /** Later assignments overwrite earlier ones: each choice holds the value last assigned to it. */
  lemma {:induction false} LastWriteWins(ws: seq<Write>, alias: string, choice: string)
    ensures ChoiceValue(Apply([], ws), alias, choice) == LastWrite(ws, alias, choice)
  {
    if |ws| > 0 {
      LastWriteWins(ws[..|ws| - 1], alias, choice);
    }
  }

  /** A group exists exactly when something was assigned in it. */
  lemma {:induction false} GroupExists(ws: seq<Write>, alias: string)
    ensures ArrayGet(Apply([], ws), alias).Some? <==> SomeWrite(ws, alias)
  {
    if |ws| > 0 {
      var n := |ws| - 1;
      var init := ws[..n];
      GroupExists(init, alias);
      AssignKeepsGroups(Apply([], init), ws[n], alias);
      var before := ArrayGet(Apply([], init), alias).Some?;
      var after := ArrayGet(Apply([], ws), alias).Some?;
      assert after == (before || ws[n].alias == alias);
      GroupExistsStep(ws, init, alias, before);
    }
  }

  lemma GroupExistsStep(ws: seq<Write>, init: seq<Write>, alias: string, before: bool)
    requires |ws| > 0 && init == ws[..|ws| - 1]
    requires before <==> SomeWrite(init, alias)
    ensures (before || ws[|ws| - 1].alias == alias) <==> SomeWrite(ws, alias)
  {
    var n := |ws| - 1;
    if before {
      var i :| 0 <= i < n && init[i].alias == alias;
      assert ws[i] == init[i];
    }
    if SomeWrite(ws, alias) {
      var i :| 0 <= i < |ws| && ws[i].alias == alias;
      if i < n {
        assert init[i] == ws[i];
      }
    }
  }

  /** An assignment creates its own group and no other. */
  lemma AssignKeepsGroups(c: Choices, w: Write, alias: string)
    ensures ArrayGet(Assign(c, w), alias).Some? <==> ArrayGet(c, alias).Some? || w.alias == alias
  {
  }

  lemma {:induction false} ApplyConcat(c: Choices, ws1: seq<Write>, ws2: seq<Write>)
    ensures Apply(c, ws1 + ws2) == Apply(Apply(c, ws1), ws2)
    decreases |ws2|
  {
    if |ws2| == 0 {
      assert ws1 + ws2 == ws1;
    } else {
      assert (ws1 + ws2)[..|ws1 + ws2| - 1] == ws1 + ws2[..|ws2| - 1];
      ApplyConcat(c, ws1, ws2[..|ws2| - 1]);
    }
  }

  /** An assignment in the last part takes precedence over one in the first. */
  lemma {:induction false} LastWriteAppend(ws1: seq<Write>, ws2: seq<Write>, alias: string, choice: string)
    ensures LastWrite(ws1 + ws2, alias, choice)
            == if LastWrite(ws2, alias, choice).Some? then LastWrite(ws2, alias, choice) else LastWrite(ws1, alias, choice)
    decreases |ws2|
  {
    if |ws2| == 0 {
      assert ws1 + ws2 == ws1;
    } else {
      assert (ws1 + ws2)[..|ws1 + ws2| - 1] == ws1 + ws2[..|ws2| - 1];
      LastWriteAppend(ws1, ws2[..|ws2| - 1], alias, choice);
    }
  }

  /** An object's assignments are all in its own group, and it has some exactly when it has items. */
  lemma {:induction false} ObjectWritesInGroup(o: CustomObject, items: seq<CustomItem>)
    ensures forall i :: 0 <= i < |ObjectWrites(o, items)| ==> ObjectWrites(o, items)[i].alias == o.alias
    ensures |ObjectWrites(o, items)| > 0 <==> |items| > 0
  {
    ItemWritesInGroup(o.alias, items);
  }

  lemma {:induction false} ItemWritesInGroup(alias: string, items: seq<CustomItem>)
    ensures |ItemWrites(alias, items)| == |items|
    ensures forall i :: 0 <= i < |items| ==> ItemWrites(alias, items)[i] == Write(alias, items[i].name, Int(items[i].id))
  {
    if |items| > 0 {
      ItemWritesInGroup(alias, items[..|items| - 1]);
    }
  }

  /**
   * An alias has a group exactly when some object of that alias has items:
   * an object without items adds no entry, and objects sharing an alias
   * share one group.
   */
  lemma {:induction false} GroupExistsIffItems(objects: seq<CustomObject>, itemsOf: CustomObject -> seq<CustomItem>, alias: string)
    ensures ArrayGet(ChoicesOf(objects, itemsOf), alias).Some?
            <==> SomeObjectHasItems(objects, itemsOf, alias)
  {
    var ws := AllWrites(objects, itemsOf);
    GroupExists(ws, alias);
    WritesInGroupIffItems(objects, itemsOf, alias);
    assert ChoicesOf(objects, itemsOf) == Apply([], ws);
  }

  lemma {:induction false} WritesInGroupIffItems(objects: seq<CustomObject>, itemsOf: CustomObject -> seq<CustomItem>, alias: string)
    ensures SomeWrite(AllWrites(objects, itemsOf), alias)
            <==> SomeObjectHasItems(objects, itemsOf, alias)
  {
    if |objects| > 0 {
      var init := objects[..|objects| - 1];
      var o := objects[|objects| - 1];
      WritesInGroupIffItems(init, itemsOf, alias);
      var a := AllWrites(init, itemsOf);
      var b := ObjectWrites(o, itemsOf(o));
      assert AllWrites(objects, itemsOf) == a + b;
      WriteInConcat(a, b, alias);
      WriteInObjectGroup(o, itemsOf(o), alias);
      ObjectWithItemsSnoc(objects, itemsOf, alias);
    }
  }

  lemma WriteInConcat(a: seq<Write>, b: seq<Write>, alias: string)
    ensures SomeWrite(a + b, alias)
            <==> SomeWrite(a, alias) || SomeWrite(b, alias)
  {
    if SomeWrite(a + b, alias) {
      var i :| 0 <= i < |a + b| && (a + b)[i].alias == alias;
      if i < |a| {
        assert a[i] == (a + b)[i];
      } else {
        assert b[i - |a|] == (a + b)[i];
      }
    }
    if SomeWrite(a, alias) {
      var i :| 0 <= i < |a| && a[i].alias == alias;
      assert (a + b)[i] == a[i];
    }
    if SomeWrite(b, alias) {
      var i :| 0 <= i < |b| && b[i].alias == alias;
      assert (a + b)[|a| + i] == b[i];
    }
  }

  lemma WriteInObjectGroup(o: CustomObject, items: seq<CustomItem>, alias: string)
    ensures SomeWrite(ObjectWrites(o, items), alias)
            <==> o.alias == alias && |items| > 0
  {
    ObjectWritesInGroup(o, items);
    if o.alias == alias && |items| > 0 {
      assert ObjectWrites(o, items)[0].alias == alias;
    }
  }

  lemma ObjectWithItemsSnoc(objects: seq<CustomObject>, itemsOf: CustomObject -> seq<CustomItem>, alias: string)
    requires |objects| > 0
    ensures var init := objects[..|objects| - 1];
      var o := objects[|objects| - 1];
      SomeObjectHasItems(objects, itemsOf, alias)
      <==> SomeObjectHasItems(init, itemsOf, alias)
           || (o.alias == alias && |itemsOf(o)| > 0)
  {
    var init := objects[..|objects| - 1];
    if SomeObjectHasItems(objects, itemsOf, alias) {
      var k :| 0 <= k < |objects| && objects[k].alias == alias && |itemsOf(objects[k])| > 0;
      if k < |init| {
        assert init[k] == objects[k];
      }
    }
    if SomeObjectHasItems(init, itemsOf, alias) {
      var k :| 0 <= k < |init| && init[k].alias == alias && |itemsOf(init[k])| > 0;
      assert objects[k] == init[k];
    }
  }

  /**
   * The `Any` choice of an object with items is `object_<id>`, unless one of
   * its items is named `Any` or a later object of the same alias has items.
   */
  lemma AnyChoiceOfLastObject(pre: seq<CustomObject>, o: CustomObject, post: seq<CustomObject>, itemsOf: CustomObject -> seq<CustomItem>)
    requires |itemsOf(o)| > 0
    requires forall i :: 0 <= i < |itemsOf(o)| ==> itemsOf(o)[i].name != "Any"
    requires forall k :: 0 <= k < |post| ==> post[k].alias != o.alias || |itemsOf(post[k])| == 0
    ensures ChoiceValue(ChoicesOf(pre + [o] + post, itemsOf), o.alias, "Any") == Some(AnyChoice(o))
  {
    var objects := pre + [o] + post;
    AllWritesSplit(pre + [o], post, itemsOf);
    AllWritesSnoc(pre, o, itemsOf);
    NoWritesWithoutItems(post, itemsOf, o.alias);
    ItemWritesNotAny(o.alias, itemsOf(o));
    var w := ObjectWrites(o, itemsOf(o));
    LastWriteAppend([Write(o.alias, "Any", AnyChoice(o))], ItemWrites(o.alias, itemsOf(o)), o.alias, "Any");
    assert LastWrite(w, o.alias, "Any") == Some(AnyChoice(o));
    LastWriteAppend(AllWrites(pre, itemsOf), w, o.alias, "Any");
    LastWriteAppend(AllWrites(pre + [o], itemsOf), AllWrites(post, itemsOf), o.alias, "Any");
    assert LastWrite(AllWrites(objects, itemsOf), o.alias, "Any") == Some(AnyChoice(o));
    LastWriteWins(AllWrites(objects, itemsOf), o.alias, "Any");
  }

  lemma {:induction false} ItemWritesNotAny(alias: string, items: seq<CustomItem>)
    requires forall i :: 0 <= i < |items| ==> items[i].name != "Any"
    ensures LastWrite(ItemWrites(alias, items), alias, "Any").None?
  {
    if |items| > 0 {
      ItemWritesNotAny(alias, items[..|items| - 1]);
    }
  }

  lemma {:induction false} AllWritesSplit(objects: seq<CustomObject>, post: seq<CustomObject>, itemsOf: CustomObject -> seq<CustomItem>)
    ensures AllWrites(objects + post, itemsOf) == AllWrites(objects, itemsOf) + AllWrites(post, itemsOf)
    decreases |post|
  {
    if |post| == 0 {
      assert objects + post == objects;
    } else {
      var pre := post[..|post| - 1];
      var last := post[|post| - 1];
      assert objects + post == (objects + pre) + [last];
      assert post == pre + [last];
      AllWritesSplit(objects, pre, itemsOf);
      AllWritesSnoc(objects + pre, last, itemsOf);
      AllWritesSnoc(pre, last, itemsOf);
      SeqAssoc(AllWrites(objects, itemsOf), AllWrites(pre, itemsOf), ObjectWrites(last, itemsOf(last)));
    }
  }

  lemma AllWritesSnoc(objects: seq<CustomObject>, last: CustomObject, itemsOf: CustomObject -> seq<CustomItem>)
    ensures AllWrites(objects + [last], itemsOf) == AllWrites(objects, itemsOf) + ObjectWrites(last, itemsOf(last))
  {
    assert (objects + [last])[..|objects|] == objects;
  }

  lemma {:induction false} NoWritesWithoutItems(objects: seq<CustomObject>, itemsOf: CustomObject -> seq<CustomItem>, alias: string)
    requires forall k :: 0 <= k < |objects| ==> objects[k].alias != alias || |itemsOf(objects[k])| == 0
    ensures forall choice :: LastWrite(AllWrites(objects, itemsOf), alias, choice).None?
  {
    if |objects| > 0 {
      var o := objects[|objects| - 1];
      NoWritesWithoutItems(objects[..|objects| - 1], itemsOf, alias);
      ObjectWritesInGroup(o, itemsOf(o));
      forall choice
        ensures LastWrite(AllWrites(objects, itemsOf), alias, choice).None?
      {
        LastWriteAppend(AllWrites(objects[..|objects| - 1], itemsOf), ObjectWrites(o, itemsOf(o)), alias, choice);
        NoWriteOutsideGroup(ObjectWrites(o, itemsOf(o)), alias, choice);
      }
    }
  }

  lemma {:induction false} NoWriteOutsideGroup(ws: seq<Write>, alias: string, choice: string)
    requires forall i :: 0 <= i < |ws| ==> ws[i].alias != alias
    ensures LastWrite(ws, alias, choice).None?
  {
    if |ws| > 0 {
      NoWriteOutsideGroup(ws[..|ws| - 1], alias, choice);
    }
  }

  /** One more item of the inner loop. */
  lemma ItemChoiceStep(choices: Choices, head: seq<Write>, alias: string, items: seq<CustomItem>, m: nat)
    requires m < |items|
    ensures Apply(choices, head + ItemWrites(alias, items[..m + 1]))
            == Assign(Apply(choices, head + ItemWrites(alias, items[..m])), Write(alias, items[m].name, Int(items[m].id)))
  {
    var w := Write(alias, items[m].name, Int(items[m].id));
    assert items[..m + 1][..m] == items[..m];
    assert ItemWrites(alias, items[..m + 1]) == ItemWrites(alias, items[..m]) + [w];
    SeqAssoc(head, ItemWrites(alias, items[..m]), [w]);
    ApplyAppend(choices, head + ItemWrites(alias, items[..m]), w);
  }

  /** The inner loop of the `choices` closure: `Any` when the object has items, then each item. */
  method AddObjectChoices(choices: Choices, customObject: CustomObject, items: seq<CustomItem>) returns (r: Choices)
    ensures r == Apply(choices, ObjectWrites(customObject, items))
  {
    r := choices;
    ghost var head: seq<Write> := [];
    if |items| > 0 {
      var any := Write(customObject.alias, "Any", AnyChoice(customObject));
      head := [any];
      r := Assign(r, any);
      assert r == Apply(choices, head);
    }
    var m := 0;
    while m < |items|
      invariant 0 <= m <= |items|
      invariant r == Apply(choices, head + ItemWrites(customObject.alias, items[..m]))
    {
      var item := items[m];
      ItemChoiceStep(choices, head, customObject.alias, items, m);
      r := Assign(r, Write(customObject.alias, item.name, Int(item.id)));
      m := m + 1;
    }
    assert items[..|items|] == items;
  }

  /**
   * The `choices` closure: for each object, `Any` when it has items, then
   * each item by name, each assignment in turn.
   */
  method BuildChoices(customObjects: seq<CustomObject>, itemsOf: CustomObject -> seq<CustomItem>) returns (choices: Choices)
    ensures choices == ChoicesOf(customObjects, itemsOf)
  {
    choices := [];
    var n := 0;
    while n < |customObjects|
      invariant 0 <= n <= |customObjects|
      invariant choices == Apply([], AllWrites(customObjects[..n], itemsOf))
    {
      var customObject := customObjects[n];
      assert customObjects[..n + 1][..n] == customObjects[..n];
      var items := itemsOf(customObject);
      ApplyConcat([], AllWrites(customObjects[..n], itemsOf), ObjectWrites(customObject, items));
      choices := AddObjectChoices(choices, customObject, items);
      n := n + 1;
    }
    assert customObjects[..|customObjects|] == customObjects;
  }
}
