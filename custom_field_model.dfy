/**
 * The custom field model: metadata stamping, alias sanitising and
 * de-duplication, entity lookup, and the query arguments it hands to the
 * repository (with the creator limit for users who may not view others'
 * fields). The repository, the permission provider, the alias cleaner and
 * the clock are services passed in.
 */
module CustomFieldModel {
  import opened Wrappers
  import opened Php

  /** The user a change is recorded against. */
  datatype User = User(id: int, name: string)

  /** A UTC timestamp; its value plays no part in the rules modelled here. */
  datatype DateTime = DateTime(utc: int)

  /** A custom field entity, with the fields the model sets. */
  class CustomField {
    var id: Option<int>
    var name: string
    var alias: string
    var createdBy: Option<User>
    var createdByUser: string
    var dateAdded: Option<DateTime>
    var modifiedBy: Option<User>
    var modifiedByUser: string
    var dateModified: Option<DateTime>

    constructor(id: Option<int>, name: string, alias: string)
      ensures this.id == id && this.name == name && this.alias == alias
      ensures createdBy.None? && createdByUser == "" && dateAdded.None?
      ensures modifiedBy.None? && modifiedByUser == "" && dateModified.None?
    {
      this.id := id;
      this.name := name;
      this.alias := alias;
      createdBy := None;
      createdByUser := "";
      dateAdded := None;
      modifiedBy := None;
      modifiedByUser := "";
      dateModified := None;
    }

    /** A field not yet saved has no id. */
    predicate IsNew()
      reads this
    {
      id.None?
    }
  }

  /** The thrown `NotFoundException`. */
  datatype NotFound = NotFound(id: int)

  /**
   * The model's collaborators: the current user, the entity lookup of the
   * parent model, the repository's `isAliasUnique` and `getEntities`, the
   * inherited `cleanAlias` (called with no prefix, no length limit and `-`
   * for spaces), and whether `viewother` is granted.
   */
  datatype Services = Services(
    user: User,
    getEntity: int -> Option<CustomField>,
    isAliasUnique: (string, Option<int>) -> bool,
    cleanAlias: string -> string,
    getEntities: Args -> seq<int>,
    viewOtherGranted: bool)

  // ---------------------------------------------------------------------------
  // fetchEntity

  /** `fetchEntity`: the entity, or `NotFoundException` exactly when the lookup finds none. */
  function FetchEntity(id: int, svc: Services): (r: Result<CustomField, NotFound>)
    ensures r.Err? <==> svc.getEntity(id).None?
    ensures r.Err? ==> r.error == NotFound(id)
    ensures r.Ok? ==> Some(r.value) == svc.getEntity(id)
  {
    match svc.getEntity(id)
    case None => Err(NotFound(id))
    case Some(f) => Ok(f)
  }

  // ---------------------------------------------------------------------------
  // Alias

  /** The alias `sanitizeAlias` stores: the cleaned alias, or the cleaned name when the alias is empty. */
  function SanitizedAlias(alias: string, name: string, cleanAlias: string -> string): string {
    cleanAlias(if IsEmpty(Str(alias)) then name else alias)
  }

  /** PHP's `empty` on a string alias: the empty string and `"0"` fall back to the name. */
  lemma SanitizedAliasFallsBack(alias: string, name: string, cleanAlias: string -> string)
    ensures alias == "" || alias == "0" ==> SanitizedAlias(alias, name, cleanAlias) == cleanAlias(name)
    ensures alias != "" && alias != "0" ==> SanitizedAlias(alias, name, cleanAlias) == cleanAlias(alias)
  {
  }

  /** `sanitizeAlias`: stores the sanitized alias; nothing else changes. */
  method SanitizeAlias(entity: CustomField, svc: Services)
    modifies entity
    ensures entity.alias == SanitizedAlias(old(entity.alias), entity.name, svc.cleanAlias)
    ensures entity.id == old(entity.id) && entity.name == old(entity.name)
    ensures entity.createdBy == old(entity.createdBy) && entity.createdByUser == old(entity.createdByUser)
    ensures entity.dateAdded == old(entity.dateAdded) && entity.modifiedBy == old(entity.modifiedBy)
    ensures entity.modifiedByUser == old(entity.modifiedByUser) && entity.dateModified == old(entity.dateModified)
  {
    var dirtyAlias := entity.alias;
    if IsEmpty(Str(dirtyAlias)) {
      dirtyAlias := entity.name;
    }
    var cleanAlias := svc.cleanAlias(dirtyAlias);
    entity.alias := cleanAlias;
  }

  /**
   * The k-th alias `ensureUniqueAlias` tries: the counter is appended to the
   * previous candidate, so the candidates are `base`, `base1`, `base12`, ...
   */
  function Candidate(base: string, k: nat): string {
    if k == 0 then base else Candidate(base, k - 1) + IntToString(k)
  }

  /** Each candidate properly extends every earlier one, so no alias is tried twice. */
  lemma {:induction false} CandidateExtends(base: string, i: nat, j: nat)
    requires i < j
    ensures Candidate(base, i) < Candidate(base, j)
    decreases j
  {
    assert |IntToString(j)| > 0;
    if i < j - 1 {
      CandidateExtends(base, i, j - 1);
    }
  }

  /** The candidates are pairwise distinct. */
  lemma CandidatesDistinct(base: string, i: nat, j: nat)
    requires i != j
    ensures Candidate(base, i) != Candidate(base, j)
  {
    if i < j {
      CandidateExtends(base, i, j);
    } else {
      CandidateExtends(base, j, i);
    }
  }

  /**
   * The number of the first candidate from `k` on for which the repository
   * answers false; `stop` is some candidate where it does.
   */
  function FirstTaken(base: string, id: Option<int>, isAliasUnique: (string, Option<int>) -> bool, k: nat, stop: nat): (r: nat)
    requires k <= stop && !isAliasUnique(Candidate(base, stop), id)
    ensures k <= r <= stop && !isAliasUnique(Candidate(base, r), id)
    ensures forall i :: k <= i < r ==> isAliasUnique(Candidate(base, i), id)
    decreases stop - k
  {
    if !isAliasUnique(Candidate(base, k), id) then k else FirstTaken(base, id, isAliasUnique, k + 1, stop)
  }

  /** The first such candidate does not depend on which witness `stop` was named. */
  lemma FirstTakenIsFirst(base: string, id: Option<int>, isAliasUnique: (string, Option<int>) -> bool, stop: nat, j: nat)
    requires !isAliasUnique(Candidate(base, stop), id)
    requires !isAliasUnique(Candidate(base, j), id)
    requires forall i :: 0 <= i < j ==> isAliasUnique(Candidate(base, i), id)
    ensures FirstTaken(base, id, isAliasUnique, 0, stop) == j
  {
  }

  /**
   * `ensureUniqueAlias`: tries the candidates in turn while the repository
   * answers true and keeps the first one it answers false for; the alias is
   * written only when it differs. The loop ends only if the repository
   * answers false for some candidate, named by the ghost `stop`.
   */
  method EnsureUniqueAlias(entity: CustomField, svc: Services, ghost stop: nat)
    requires !svc.isAliasUnique(Candidate(entity.alias, stop), entity.id)
    modifies entity
    ensures entity.alias == Candidate(old(entity.alias), FirstTaken(old(entity.alias), old(entity.id), svc.isAliasUnique, 0, stop))
    ensures entity.id == old(entity.id) && entity.name == old(entity.name)
    ensures entity.createdBy == old(entity.createdBy) && entity.createdByUser == old(entity.createdByUser)
    ensures entity.dateAdded == old(entity.dateAdded) && entity.modifiedBy == old(entity.modifiedBy)
    ensures entity.modifiedByUser == old(entity.modifiedByUser) && entity.dateModified == old(entity.dateModified)
  {
    ghost var base := entity.alias;
    var testAlias := entity.alias;
    var isUnique := svc.isAliasUnique(testAlias, entity.id);
    var counter := 1;
    while isUnique
      invariant 1 <= counter <= stop + 1
      invariant testAlias == Candidate(base, counter - 1)
      invariant isUnique == svc.isAliasUnique(testAlias, entity.id)
      invariant forall i :: 0 <= i < counter - 1 ==> svc.isAliasUnique(Candidate(base, i), entity.id)
      decreases stop - counter
    {
      testAlias := testAlias + IntToString(counter);
      isUnique := svc.isAliasUnique(testAlias, entity.id);
      counter := counter + 1;
    }
    FirstTakenIsFirst(base, entity.id, svc.isAliasUnique, stop, counter - 1);
    if testAlias != entity.alias {
      entity.alias := testAlias;
    }
  }

  /** The alias `setAlias` ends with: the first taken candidate after the sanitized alias. */
  function AliasAfterSet(alias: string, name: string, id: Option<int>, svc: Services, stop: nat): string
    requires !svc.isAliasUnique(Candidate(SanitizedAlias(alias, name, svc.cleanAlias), stop), id)
  {
    var base := SanitizedAlias(alias, name, svc.cleanAlias);
    Candidate(base, FirstTaken(base, id, svc.isAliasUnique, 0, stop))
  }

  /** When the repository answers false for the sanitized alias, that alias is kept as it is. */
  lemma SanitizedAliasKeptWhenTaken(alias: string, name: string, id: Option<int>, svc: Services)
    requires !svc.isAliasUnique(SanitizedAlias(alias, name, svc.cleanAlias), id)
    ensures AliasAfterSet(alias, name, id, svc, 0) == SanitizedAlias(alias, name, svc.cleanAlias)
  {
  }

  /** The alias set always starts with the sanitized alias and is taken by the repository's answer. */
  lemma {:induction false} AliasAfterSetExtendsSanitized(alias: string, name: string, id: Option<int>, svc: Services, stop: nat)
    requires !svc.isAliasUnique(Candidate(SanitizedAlias(alias, name, svc.cleanAlias), stop), id)
    ensures SanitizedAlias(alias, name, svc.cleanAlias) <= AliasAfterSet(alias, name, id, svc, stop)
    ensures !svc.isAliasUnique(AliasAfterSet(alias, name, id, svc, stop), id)
  {
    var base := SanitizedAlias(alias, name, svc.cleanAlias);
    var r := FirstTaken(base, id, svc.isAliasUnique, 0, stop);
    if r > 0 {
      CandidateExtends(base, 0, r);
    }
  }

  /** `setAlias`: sanitize, then make unique. */
  method SetAlias(entity: CustomField, svc: Services, ghost stop: nat)
    requires !svc.isAliasUnique(Candidate(SanitizedAlias(entity.alias, entity.name, svc.cleanAlias), stop), entity.id)
    modifies entity
    ensures entity.alias == AliasAfterSet(old(entity.alias), old(entity.name), old(entity.id), svc, stop)
    ensures entity.id == old(entity.id) && entity.name == old(entity.name)
    ensures entity.createdBy == old(entity.createdBy) && entity.createdByUser == old(entity.createdByUser)
    ensures entity.dateAdded == old(entity.dateAdded) && entity.modifiedBy == old(entity.modifiedBy)
    ensures entity.modifiedByUser == old(entity.modifiedByUser) && entity.dateModified == old(entity.dateModified)
  {
    SanitizeAlias(entity, svc);
    EnsureUniqueAlias(entity, svc, stop);
  }

  /**
   * `setMetadata`: a new field gets its creator, creation date and alias;
   * every field gets its modifier and modification date. `stop` names a
   * candidate the repository answers false for (needed only for a new field).
   */
  method SetMetadata(entity: CustomField, svc: Services, now: DateTime, ghost stop: nat)
    requires entity.IsNew() ==> !svc.isAliasUnique(Candidate(SanitizedAlias(entity.alias, entity.name, svc.cleanAlias), stop), entity.id)
    modifies entity
    ensures entity.id == old(entity.id) && entity.name == old(entity.name)
    ensures entity.modifiedBy == Some(svc.user) && entity.modifiedByUser == svc.user.name
    ensures entity.dateModified == Some(now)
    ensures old(entity.IsNew()) ==>
              entity.createdBy == Some(svc.user) && entity.createdByUser == svc.user.name
              && entity.dateAdded == Some(now)
              && entity.alias == AliasAfterSet(old(entity.alias), old(entity.name), old(entity.id), svc, stop)
    ensures !old(entity.IsNew()) ==>
              entity.createdBy == old(entity.createdBy) && entity.createdByUser == old(entity.createdByUser)
              && entity.dateAdded == old(entity.dateAdded) && entity.alias == old(entity.alias)
  {
    var user := svc.user;
    if entity.IsNew() {
      entity.createdBy := Some(user);
      entity.createdByUser := user.name;
      entity.dateAdded := Some(now);
      SetAlias(entity, svc, stop);
    }
    entity.modifiedBy := Some(user);
    entity.modifiedByUser := user.name;
    entity.dateModified := Some(now);
  }

  // ---------------------------------------------------------------------------
  // Query arguments

  /** A forced filter condition `['column' => …, 'expr' => …, 'value' => …]`. */
  datatype Condition = Condition(column: string, expr: string, value: Value)

  /** An integer-keyed PHP array of conditions, in insertion order. */
  type Conditions = Array<int, Condition>

  /** The `filter` argument: its `force` list and any other entries. */
  datatype FilterArg = FilterArg(force: Option<Conditions>, other: map<string, Value>)

  /** The arguments of `getEntities`: the `filter` entry and the other options. */
  datatype Args = Args(filter: Option<FilterArg>, options: map<string, Value>)

  /** The condition restricting fields to those the user created. */
  function CreatorCondition(user: User): Condition {
    Condition("e.createdBy", "eq", Int(user.id))
  }

  /**
   * `addCreatorLimit`: unchanged when `viewother` is granted; otherwise
   * `filter` and `filter.force` are created when absent and the creator
   * condition is added at key 0 by array union.
   */
  function AddCreatorLimit(args: Args, svc: Services): (r: Args)
    ensures svc.viewOtherGranted ==> r == args
    ensures !svc.viewOtherGranted ==>
              r.options == args.options && r.filter.Some? && r.filter.value.force.Some?
              && (args.filter.Some? ==> r.filter.value.other == args.filter.value.other)
  {
    if svc.viewOtherGranted then args
    else
      var filter := if args.filter.Some? then args.filter.value else FilterArg(None, map[]);
      var force := if filter.force.Some? then filter.force.value else [];
      args.(filter := Some(filter.(force := Some(ArrayUnion(force, [(0, CreatorCondition(svc.user))])))))
  }

  /** The forced conditions a query ends with: those given, or none. */
  function Forced(args: Args): Conditions {
    if args.filter.Some? && args.filter.value.force.Some? then args.filter.value.force.value else []
  }

  /**
   * Without `viewother` the given forced conditions are kept entry for entry,
   * and the creator condition is forced exactly when no condition had key 0.
   */
  lemma CreatorLimitByUnion(args: Args, svc: Services, k: int)
    requires !svc.viewOtherGranted
    ensures ArrayGet(Forced(AddCreatorLimit(args, svc)), k)
            == if k in ArrayKeys(Forced(args)) then ArrayGet(Forced(args), k)
               else if k == 0 then Some(CreatorCondition(svc.user)) else None
    ensures Forced(AddCreatorLimit(args, svc))[..|Forced(args)|] == Forced(args)
    ensures 0 in ArrayKeys(Forced(args)) ==> Forced(AddCreatorLimit(args, svc)) == Forced(args)
  {
    var one: Conditions := [(0, CreatorCondition(svc.user))];
    ArrayUnionGet(Forced(args), one, k);
    ArrayGetMeaning(Forced(args), k);
    ArrayGetMeaning(Forced(args), 0);
    assert one[..0] == [];
  }

  /** The arguments `fetchCustomFieldsForObject` passes: the object's published fields, by order. */
  function CustomFieldsForObjectArgs(objectId: int): Args {
    Args(
      Some(FilterArg(Some([(0, Condition("e.customObject", "eq", Int(objectId))),
                           (1, Condition("e.isPublished", "eq", Bool(true)))]), map[])),
      map["orderBy" := Str("e.order"), "orderByDir" := Str("ASC"), "ignore_paginator" := Bool(true)])
  }

  /** `fetchEntities`: the repository's entities for the arguments with the creator limit added. */
  function FetchEntities(args: Args, svc: Services): seq<int> {
    svc.getEntities(AddCreatorLimit(args, svc))
  }

  /** `fetchCustomFieldsForObject`. */
  function FetchCustomFieldsForObject(objectId: int, svc: Services): seq<int> {
    FetchEntities(CustomFieldsForObjectArgs(objectId), svc)
  }

  /**
   * The fields of an object are always requested with exactly the object and
   * published conditions: since they already use key 0, the array union
   * leaves out the creator condition even when `viewother` is denied.
   */
  lemma CustomFieldsForObjectHaveNoCreatorLimit(objectId: int, svc: Services)
    ensures Forced(AddCreatorLimit(CustomFieldsForObjectArgs(objectId), svc)) == Forced(CustomFieldsForObjectArgs(objectId))
    ensures FetchCustomFieldsForObject(objectId, svc)
            == svc.getEntities(if svc.viewOtherGranted then CustomFieldsForObjectArgs(objectId)
                               else CustomFieldsForObjectArgs(objectId).(filter := Some(FilterArg(Some(Forced(CustomFieldsForObjectArgs(objectId))), map[]))))
  {
    var args := CustomFieldsForObjectArgs(objectId);
    if !svc.viewOtherGranted {
      assert 0 in ArrayKeys(Forced(args)) by {
        assert Forced(args)[0] in Forced(args);
      }
      CreatorLimitByUnion(args, svc, 0);
    }
  }
}
