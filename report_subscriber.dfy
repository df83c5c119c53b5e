/**
 * The report subscriber: one report table per custom object, under the
 * `custom.objects` group, built from a list of custom objects that the
 * repository is asked for at most once per process (the list is cached in a
 * static field, shared by every instance).
 */
module ReportSubscriber {
  import opened Wrappers
  import opened Php

  const Prefix: string := "co."
  const ContextCustomObjects: string := "custom.objects"

  /** A custom object with what the subscriber reads of it. */
  datatype CustomObject = CustomObject(id: int, namePlural: string)

  /** A report table: its display name, its columns and its group. */
  datatype Table = Table(displayName: string, columns: Array<string, Value>, group: string)

  /** The custom object repository; `findAllCalls` counts the queries it ran. */
  class CustomObjectRepository {
    const all: seq<CustomObject>
    var findAllCalls: nat

    constructor(all: seq<CustomObject>)
      ensures this.all == all && findAllCalls == 0
    {
      this.all := all;
      findAllCalls := 0;
    }

    method FindAll() returns (r: seq<CustomObject>)
      modifies this
      ensures r == all && findAllCalls == old(findAllCalls) + 1
    {
      findAllCalls := findAllCalls + 1;
      r := all;
    }
  }

  /** The static `$customObjects`: one per process, shared by every subscriber. */
  class StaticCache {
    var customObjects: Option<seq<CustomObject>>

    constructor()
      ensures customObjects.None?
    {
      customObjects := None;
    }
  }

  /** The report builder event: what it answers, and the tables added to it by context. */
  class ReportBuilderEvent {
    const checkContext: seq<string> -> bool
    const standardColumns: string -> Array<string, Value>
    const categoryColumns: Array<string, Value>
    var tables: Array<string, Table>

    constructor(checkContext: seq<string> -> bool, standardColumns: string -> Array<string, Value>,
                categoryColumns: Array<string, Value>)
      ensures this.checkContext == checkContext && this.standardColumns == standardColumns
      ensures this.categoryColumns == categoryColumns && tables == []
    {
      this.checkContext := checkContext;
      this.standardColumns := standardColumns;
      this.categoryColumns := categoryColumns;
      tables := [];
    }

    method AddTable(context: string, displayName: string, columns: Array<string, Value>, group: string)
      modifies this
      ensures tables == ArraySet(old(tables), context, Table(displayName, columns, group))
    {
      tables := ArraySet(tables, context, Table(displayName, columns, group));
    }
  }

  /** `getContext`: the report context of a custom object. */
  function GetContext(o: CustomObject): string {
    ContextCustomObjects + "." + IntToString(o.id)
  }

  /** Distinct objects have distinct contexts, all under the custom objects group. */
  lemma GetContextInjective(a: CustomObject, b: CustomObject)
    ensures GetContext(a)[..|ContextCustomObjects| + 1] == "custom.objects."
    ensures GetContext(a) == GetContext(b) ==> a.id == b.id
  {
    var n := |ContextCustomObjects| + 1;
    if GetContext(a) == GetContext(b) {
      assert IntToString(a.id) == GetContext(a)[n..];
      assert IntToString(b.id) == GetContext(b)[n..];
      IntToStringRoundTrip(a.id);
      IntToStringRoundTrip(b.id);
    }
  }

  /** The contexts of the objects, in order. */
  function Contexts(objects: seq<CustomObject>): (r: seq<string>)
    ensures |r| == |objects|
    ensures forall i :: 0 <= i < |objects| ==> r[i] == GetContext(objects[i])
  {
    if |objects| == 0 then []
    else
      var init := Contexts(objects[..|objects| - 1]);
      var last := GetContext(objects[|objects| - 1]);
      assert forall i :: 0 <= i < |init| ==> (init + [last])[i] == init[i];
      init + [last]
  }

  /** The tables after one `addTable` per object, in order. */
  function AddTables(tables: Array<string, Table>, objects: seq<CustomObject>, columns: Array<string, Value>): Array<string, Table> {
    if |objects| == 0 then tables
    else
      var o := objects[|objects| - 1];
      ArraySet(AddTables(tables, objects[..|objects| - 1], columns), GetContext(o), Table(o.namePlural, columns, ContextCustomObjects))
  }

  /** With distinct object ids, every object has exactly its table, all sharing the columns. */
  lemma {:induction false} OneTablePerObject(tables: Array<string, Table>, objects: seq<CustomObject>, columns: Array<string, Value>)
    requires forall i, j :: 0 <= i < j < |objects| ==> objects[i].id != objects[j].id
    ensures forall i :: 0 <= i < |objects| ==>
              ArrayGet(AddTables(tables, objects, columns), GetContext(objects[i]))
              == Some(Table(objects[i].namePlural, columns, ContextCustomObjects))
  {
    if |objects| > 0 {
      var init := objects[..|objects| - 1];
      var o := objects[|objects| - 1];
      OneTablePerObject(tables, init, columns);
      forall i | 0 <= i < |objects|
        ensures ArrayGet(AddTables(tables, objects, columns), GetContext(objects[i]))
                == Some(Table(objects[i].namePlural, columns, ContextCustomObjects))
      {
        if i < |objects| - 1 {
          assert init[i] == objects[i];
          GetContextInjective(objects[i], o);
          LastTableElsewhere(tables, objects, columns, GetContext(objects[i]));
        } else {
          LastTableHere(tables, objects, columns);
        }
      }
    }
  }

  /** A context no object has keeps the table it had. */
  lemma {:induction false} OtherTablesUnchanged(tables: Array<string, Table>, objects: seq<CustomObject>, columns: Array<string, Value>, context: string)
    requires forall i :: 0 <= i < |objects| ==> GetContext(objects[i]) != context
    ensures ArrayGet(AddTables(tables, objects, columns), context) == ArrayGet(tables, context)
  {
    if |objects| > 0 {
      var init := objects[..|objects| - 1];
      forall i | 0 <= i < |init| ensures GetContext(init[i]) != context {
        assert init[i] == objects[i];
      }
      OtherTablesUnchanged(tables, init, columns, context);
      LastTableElsewhere(tables, objects, columns, context);
    }
  }

  /** The last object's table is set at its context. */
  lemma LastTableHere(tables: Array<string, Table>, objects: seq<CustomObject>, columns: Array<string, Value>)
    requires |objects| > 0
    ensures var o := objects[|objects| - 1];
      ArrayGet(AddTables(tables, objects, columns), GetContext(o)) == Some(Table(o.namePlural, columns, ContextCustomObjects))
  {
  }

  /** Adding the last object's table leaves every other context as the earlier objects left it. */
  lemma LastTableElsewhere(tables: Array<string, Table>, objects: seq<CustomObject>, columns: Array<string, Value>, context: string)
    requires |objects| > 0 && GetContext(objects[|objects| - 1]) != context
    ensures ArrayGet(AddTables(tables, objects, columns), context)
            == ArrayGet(AddTables(tables, objects[..|objects| - 1], columns), context)
  {
  }

  /** The loop of `onReportBuilder`: one `addTable` per object, in order. */
  method AddObjectTables(event: ReportBuilderEvent, customObjects: seq<CustomObject>, columns: Array<string, Value>)
    modifies event
    ensures event.tables == AddTables(old(event.tables), customObjects, columns)
  {
    var i := 0;
    while i < |customObjects|
      invariant 0 <= i <= |customObjects|
      invariant event.tables == AddTables(old(event.tables), customObjects[..i], columns)
    {
      var customObject := customObjects[i];
      assert customObjects[..i + 1][..i] == customObjects[..i];
      event.AddTable(GetContext(customObject), customObject.namePlural, columns, ContextCustomObjects);
      i := i + 1;
    }
    assert customObjects[..|customObjects|] == customObjects;
  }

  /** The objects the next `getCustomObjects` returns: the cached list, or the repository's. */
  function CustomObjects(cache: StaticCache, repository: CustomObjectRepository): seq<CustomObject>
    reads cache
  {
    if cache.customObjects.Some? then cache.customObjects.value else repository.all
  }

  /** A report subscriber; every instance shares the process's static cache. */
  class Subscriber {
    const repository: CustomObjectRepository
    const cache: StaticCache

    constructor(repository: CustomObjectRepository, cache: StaticCache)
      ensures this.repository == repository && this.cache == cache
    {
      this.repository := repository;
      this.cache := cache;
    }

    /**
     * `getCustomObjects`: the cached list when there is one; otherwise the
     * repository's `findAll`, which fills the cache.
     */
    method GetCustomObjects() returns (r: seq<CustomObject>)
      modifies cache, repository
      ensures r == old(CustomObjects(cache, repository)) && cache.customObjects == Some(r)
      ensures repository.findAllCalls == old(repository.findAllCalls) + if old(cache.customObjects).None? then 1 else 0
    {
      if cache.customObjects.Some? {
        return cache.customObjects.value;
      }
      r := repository.FindAll();
      cache.customObjects := Some(r);
    }

    /**
     * `onReportBuilder`: nothing unless the event is for one of the custom
     * objects' contexts; then one table per object, with its plural name,
     * the standard (prefixed `co.`) and category columns, in the custom
     * objects group.
     */
    method OnReportBuilder(event: ReportBuilderEvent)
      requires event != cache as object && event != repository as object
      modifies event, cache, repository
      ensures cache.customObjects == Some(old(CustomObjects(cache, repository)))
      ensures repository.findAllCalls == old(repository.findAllCalls) + if old(cache.customObjects).None? then 1 else 0
      ensures !event.checkContext(Contexts(old(CustomObjects(cache, repository)))) ==> event.tables == old(event.tables)
      ensures event.checkContext(Contexts(old(CustomObjects(cache, repository)))) ==>
                event.tables == AddTables(old(event.tables), old(CustomObjects(cache, repository)),
                                          ArrayMerge(event.standardColumns(Prefix), event.categoryColumns))
    {
      ghost var objects := CustomObjects(cache, repository);
      var customObjects := GetCustomObjects();
      if !event.checkContext(Contexts(customObjects)) {
        return;
      }
      var columns := ArrayMerge(event.standardColumns(Prefix), event.categoryColumns);
      customObjects := GetCustomObjects();
      assert customObjects == objects;
      AddObjectTables(event, customObjects, columns);
    }
  }

  /**
   * Two subscribers sharing the process's cache, each asked for the list:
   * both get the list the first one loads (or found cached), the first
   * queries its repository only when the cache was empty, and the second
   * never queries a repository of its own. With one shared repository the
   * query count thus grows by at most one.
   */
  method SharedAcrossInstances(first: Subscriber, second: Subscriber) returns (a: seq<CustomObject>, b: seq<CustomObject>)
    requires first.cache == second.cache
    modifies first.cache, first.repository, second.repository
    ensures a == old(CustomObjects(first.cache, first.repository)) && b == a
    ensures first.cache.customObjects == Some(a)
    ensures first.repository.findAllCalls
            == old(first.repository.findAllCalls) + if old(first.cache.customObjects).None? then 1 else 0
    ensures first.repository != second.repository ==>
              second.repository.findAllCalls == old(second.repository.findAllCalls)
  {
    a := first.GetCustomObjects();
    b := second.GetCustomObjects();
  }

  /**
   * Two reports built by one subscriber: the repository is queried at most
   * once between them, and the cache ends up holding the objects the first
   * report was built from.
   */
  method TwoReports(s: Subscriber, first: ReportBuilderEvent, second: ReportBuilderEvent)
    requires first != s.cache as object && first != s.repository as object
    requires second != s.cache as object && second != s.repository as object
    modifies first, second, s.cache, s.repository
    ensures s.repository.findAllCalls <= old(s.repository.findAllCalls) + 1
    ensures s.cache.customObjects == Some(old(CustomObjects(s.cache, s.repository)))
  {
    s.OnReportBuilder(first);
    s.OnReportBuilder(second);
  }
}
