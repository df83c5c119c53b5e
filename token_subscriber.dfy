/**
 * The token subscriber's replacement logic: custom-object tokens of an email
 * (`decodeTokens`), dynamic-content blocks whose filters test custom-object
 * data (`onTokenReplacement`), and the per-contact lookup of custom field
 * values behind them (`getCustomFieldDataForLead`, `getCustomFieldValue(s)`).
 * Repositories, the token formatter and the format listeners are oracles.
 */
module TokenSubscriber {
  import opened Wrappers
  import opened Php
  import opened TokenMatcher

  // ---------------------------------------------------------------------------
  // Custom items and their field values

  /** A custom field value of an item, with what its custom field says about it. */
  datatype FieldValue = FieldValue(value: Value, fieldType: string, defaultValue: Value)

  /** A custom item as populated from the table data: its name and its values by field alias. */
  datatype ItemData = ItemData(name: Value, fields: map<string, FieldValue>)

  /** The value, or the field's default value when it is empty. */
  function WithDefault(fv: FieldValue): (r: FieldValue)
    ensures r.fieldType == fv.fieldType && r.defaultValue == fv.defaultValue
    ensures !IsEmpty(fv.value) ==> r == fv
    ensures IsEmpty(fv.value) ==> r.value == fv.defaultValue
  {
    if IsEmpty(fv.value) then fv.(value := fv.defaultValue) else fv
  }

  /**
   * What one item contributes: its name for the alias `name`, nothing when it
   * has no value for the alias, otherwise its value (the default when empty),
   * kept raw for select fields when `keepRawChoices`, else rendered as text.
   */
  function ItemValue(item: ItemData, alias: string, keepRawChoices: bool, valueToString: FieldValue -> string): seq<Value> {
    if alias == "name" then [item.name]
    else if alias !in item.fields then []
    else
      var fv := WithDefault(item.fields[alias]);
      if keepRawChoices && (fv.fieldType == "multiselect" || fv.fieldType == "select") then [fv.value]
      else [Str(valueToString(fv))]
  }

  /** The values extracted from the items, in item order. */
  function FieldValues(items: seq<ItemData>, alias: string, keepRawChoices: bool, valueToString: FieldValue -> string): seq<Value> {
    if |items| == 0 then []
    else FieldValues(items[..|items| - 1], alias, keepRawChoices, valueToString)
         + ItemValue(items[|items| - 1], alias, keepRawChoices, valueToString)
  }

  /** The items having a value for the alias. */
  function ItemsWith(items: seq<ItemData>, alias: string): seq<ItemData> {
    if |items| == 0 then []
    else
      var init := ItemsWith(items[..|items| - 1], alias);
      if alias in items[|items| - 1].fields then init + [items[|items| - 1]] else init
  }

  /**
   * For the alias `name` the values are the item names, one per item; for any
   * other alias there is one value per item having that field, from that item.
   */
  lemma {:induction false} FieldValuesOnePerItem(items: seq<ItemData>, alias: string, keepRawChoices: bool, valueToString: FieldValue -> string)
    ensures alias == "name" ==>
              |FieldValues(items, alias, keepRawChoices, valueToString)| == |items|
              && forall i :: 0 <= i < |items| ==> FieldValues(items, alias, keepRawChoices, valueToString)[i] == items[i].name
    ensures alias != "name" ==>
              |FieldValues(items, alias, keepRawChoices, valueToString)| == |ItemsWith(items, alias)|
              && forall i :: 0 <= i < |ItemsWith(items, alias)| ==>
                   [FieldValues(items, alias, keepRawChoices, valueToString)[i]]
                   == ItemValue(ItemsWith(items, alias)[i], alias, keepRawChoices, valueToString)
  {
    if |items| > 0 {
      var init := items[..|items| - 1];
      FieldValuesOnePerItem(init, alias, keepRawChoices, valueToString);
      var vs := FieldValues(items, alias, keepRawChoices, valueToString);
      var last := ItemValue(items[|items| - 1], alias, keepRawChoices, valueToString);
      assert vs == FieldValues(init, alias, keepRawChoices, valueToString) + last;
      if alias == "name" {
        assert forall i :: 0 <= i < |init| ==> init[i] == items[i];
      } else {
        var w := ItemsWith(items, alias);
        var wi := ItemsWith(init, alias);
        if alias in items[|items| - 1].fields {
          assert w == wi + [items[|items| - 1]];
          assert forall i :: 0 <= i < |wi| ==> w[i] == wi[i];
        }
      }
    }
  }

  /** A select value is kept raw, and its field's default stands in when the item's value is empty. */
  lemma ChoiceValuesKeptRaw(item: ItemData, alias: string, valueToString: FieldValue -> string)
    requires alias != "name" && alias in item.fields
    requires item.fields[alias].fieldType in {"select", "multiselect"}
    ensures ItemValue(item, alias, true, valueToString)
            == [if IsEmpty(item.fields[alias].value) then item.fields[alias].defaultValue else item.fields[alias].value]
    ensures ItemValue(item, alias, false, valueToString) == [Str(valueToString(WithDefault(item.fields[alias])))]
  {
  }

  /**
   * The loops of `getCustomFieldValue` (`keepRawChoices`) and
   * `getCustomFieldValues` (not): one pass over the items appending values.
   */
  method CollectFieldValues(items: seq<ItemData>, alias: string, keepRawChoices: bool, valueToString: FieldValue -> string)
    returns (fieldValues: seq<Value>)
    ensures fieldValues == FieldValues(items, alias, keepRawChoices, valueToString)
  {
    fieldValues := [];
    var i := 0;
    while i < |items|
      invariant 0 <= i <= |items|
      invariant fieldValues == FieldValues(items[..i], alias, keepRawChoices, valueToString)
    {
      var item := items[i];
      assert items[..i + 1][..i] == items[..i];
      if alias == "name" {
        fieldValues := fieldValues + [item.name];
        i := i + 1;
        continue;
      }
      if alias in item.fields {
        var fieldValue := item.fields[alias];
        if IsEmpty(fieldValue.value) {
          fieldValue := fieldValue.(value := fieldValue.defaultValue);
        }
        if keepRawChoices && (fieldValue.fieldType == "multiselect" || fieldValue.fieldType == "select") {
          fieldValues := fieldValues + [fieldValue.value];
        } else {
          fieldValues := fieldValues + [Str(valueToString(fieldValue))];
        }
      }
      i := i + 1;
    }
    assert items[..|items|] == items;
  }

  // ---------------------------------------------------------------------------
  // getCustomFieldDataForLead

  /** A custom field as its model returns it: the id of its object and its alias. */
  datatype FieldRef = FieldRef(objectId: int, alias: string)

  /**
   * The services the lookup uses: the custom field and custom object models'
   * `fetchEntity` (None for `NotFoundException`), the contact's items of an
   * object (`getCustomItems`) and the field types' `valueToString`.
   */
  datatype Env = Env(
    fetchField: int -> Option<FieldRef>,
    objectExists: int -> bool,
    customItems: (int, string) -> seq<ItemData>,
    valueToString: FieldValue -> string)

  /** `(int) explode($prefix, $field)[1]`: the id written after the prefix. */
  function IdAfterPrefix(prefix: string, field: string): int
    requires |prefix| > 0
    requires SubstrHead(field, |prefix|) == prefix
  {
    var parts := Explode(prefix, field);
    assert OccursAt(field, prefix, 0);
    assert |parts| >= 2;
    StringToInt(parts[1])
  }

  /** The object and field alias a condition refers to; None when the condition is skipped. */
  function ConditionTarget(c: Filter, env: Env): Option<FieldRef> {
    if c.obj != "custom_object" then None
    else if SubstrHead(c.field, 4) == "cmf_" then env.fetchField(IdAfterPrefix("cmf_", c.field))
    else if SubstrHead(c.field, 4) == "cmo_" then
      var id := IdAfterPrefix("cmo_", c.field);
      if env.objectExists(id) then Some(FieldRef(id, "name")) else None
    else None
  }

  /** The cache key `$customObject->getId().'-'.$leadId`. */
  function CacheKey(objectId: int, leadId: string): string {
    IntToString(objectId) + "-" + leadId
  }

  /** The values of the lead's items for each condition's field, keyed by the condition's field. */
  function CustomFieldData(filters: seq<Filter>, leadId: string, env: Env): map<string, Value> {
    if |filters| == 0 then map[]
    else
      var m := CustomFieldData(filters[..|filters| - 1], leadId, env);
      var c := filters[|filters| - 1];
      match ConditionTarget(c, env)
      case None => m
      case Some(t) => m[c.field := List(FieldValues(env.customItems(t.objectId, leadId), t.alias, true, env.valueToString))]
  }

  /** Distinct objects of the same contact never share a cache entry. */
  lemma CacheKeyInjective(a: int, b: int, leadId: string)
    requires CacheKey(a, leadId) == CacheKey(b, leadId)
    ensures a == b
  {
    var sa := IntToString(a);
    var sb := IntToString(b);
    assert |sa| == |sb|;
    assert sa == CacheKey(a, leadId)[..|sa|];
    assert sb == CacheKey(b, leadId)[..|sb|];
    IntToStringRoundTrip(a);
    IntToStringRoundTrip(b);
  }

  /** Every key of the data is the field of a custom-object condition, prefixed `cmf_` or `cmo_`. */
  lemma {:induction false} CustomFieldDataKeys(filters: seq<Filter>, leadId: string, env: Env)
    ensures forall k :: k in CustomFieldData(filters, leadId, env) ==>
              SubstrHead(k, 4) == "cmf_" || SubstrHead(k, 4) == "cmo_"
  {
    if |filters| > 0 {
      CustomFieldDataKeys(filters[..|filters| - 1], leadId, env);
    }
  }

  /** The decimal spelling of an integer holds only digits and a leading minus sign. */
  lemma IntToStringCharacters(id: int)
    ensures forall k :: 0 <= k < |IntToString(id)| ==> IntToString(id)[k] == '-' || IsDigit(IntToString(id)[k])
  {
    if id < 0 {
      var n := NatToString(-id);
      assert IntToString(id) == "-" + n;
      assert forall k :: 0 < k < |IntToString(id)| ==> IntToString(id)[k] == n[k - 1];
    }
  }

  /** A string without the separator's first character explodes to itself. */
  lemma ExplodeWithoutSeparator(separator: string, s: string)
    requires |separator| > 0
    requires forall k :: 0 <= k < |s| ==> s[k] != separator[0]
    ensures Explode(separator, s) == [s]
  {
    forall k: nat
      ensures !OccursAt(s, separator, k)
    {
      if k + |separator| <= |s| {
        assert s[k..k + |separator|][0] == s[k];
      }
    }
    StrPosFindsSubstring(s, separator);
  }

  /** A field written `cmf_` (or `cmo_`) and the decimal id reads back as that id. */
  lemma IdAfterPrefixReadsId(prefix: string, id: int)
    requires prefix == "cmf_" || prefix == "cmo_"
    ensures SubstrHead(prefix + IntToString(id), |prefix|) == prefix
    ensures IdAfterPrefix(prefix, prefix + IntToString(id)) == id
  {
    var d := IntToString(id);
    var field := prefix + d;
    assert field[..|prefix|] == prefix;
    assert OccursAt(field, prefix, 0);
    assert StrPos(field, prefix) == Some(0);
    assert field[|prefix|..] == d;
    IntToStringCharacters(id);
    ExplodeWithoutSeparator(prefix, d);
    assert Explode(prefix, field) == [""] + [d];
    IntToStringRoundTrip(id);
  }

  /** Every cached entry holds the contact's items of its object. */
  ghost predicate CacheAgrees(cache: map<string, seq<ItemData>>, leadId: string, env: Env) {
    forall o :: CacheKey(o, leadId) in cache ==> cache[CacheKey(o, leadId)] == env.customItems(o, leadId)
  }

  /** The objects fetched so far, each once, all cached. */
  ghost predicate FetchedOnce(fetched: seq<int>, cache: map<string, seq<ItemData>>, leadId: string) {
    (forall i :: 0 <= i < |fetched| ==> CacheKey(fetched[i], leadId) in cache)
    && forall i, j :: 0 <= i < j < |fetched| ==> fetched[i] != fetched[j]
  }

  /** The cache lookup of the condition loop: a miss fetches the items and caches them. */
  method CachedItems(cache: map<string, seq<ItemData>>, objectId: int, leadId: string, env: Env, ghost fetched: seq<int>)
    returns (newCache: map<string, seq<ItemData>>, items: seq<ItemData>, ghost newFetched: seq<int>)
    requires CacheAgrees(cache, leadId, env) && FetchedOnce(fetched, cache, leadId)
    ensures items == env.customItems(objectId, leadId)
    ensures CacheAgrees(newCache, leadId, env) && FetchedOnce(newFetched, newCache, leadId)
    ensures var key := CacheKey(objectId, leadId);
      newCache == (if key in cache then cache else cache[key := items])
      && newFetched == fetched + (if key in cache then [] else [objectId])
  {
    var key := CacheKey(objectId, leadId);
    newCache, newFetched := cache, fetched;
    if key !in cache {
      forall o | CacheKey(o, leadId) == key
        ensures o == objectId
      {
        CacheKeyInjective(o, objectId, leadId);
      }
      newCache := cache[key := env.customItems(objectId, leadId)];
      newFetched := fetched + [objectId];
    }
    items := newCache[key];
  }

  /** One more condition of the loop. */
  /** The objects the conditions refer to. */
  ghost function TargetObjects(filters: seq<Filter>, env: Env): set<int> {
    set i | 0 <= i < |filters| && ConditionTarget(filters[i], env).Some? :: ConditionTarget(filters[i], env).value.objectId
  }

  /** One more condition adds its object, if it has one, to the targets. */
  lemma TargetObjectsOneMore(filters: seq<Filter>, n: nat, env: Env)
    requires n < |filters|
    ensures TargetObjects(filters[..n + 1], env)
            == TargetObjects(filters[..n], env) + if ConditionTarget(filters[n], env).Some? then {ConditionTarget(filters[n], env).value.objectId} else {}
  {
    var pre := filters[..n];
    var next := filters[..n + 1];
    assert forall i :: 0 <= i < n ==> next[i] == pre[i];
    assert next[n] == filters[n];
  }

  lemma CustomFieldDataOneMore(filters: seq<Filter>, n: nat, leadId: string, env: Env)
    requires n < |filters|
    ensures CustomFieldData(filters[..n + 1], leadId, env)
            == match ConditionTarget(filters[n], env)
               case None => CustomFieldData(filters[..n], leadId, env)
               case Some(t) => CustomFieldData(filters[..n], leadId, env)[filters[n].field :=
                                 List(FieldValues(env.customItems(t.objectId, leadId), t.alias, true, env.valueToString))]
  {
    assert filters[..n + 1][..n] == filters[..n];
  }

  /**
   * `getCustomFieldDataForLead`: conditions are resolved to an object and an
   * alias, the contact's items of each object are fetched once and cached
   * under the object and contact, and each field gets its values.
   * `fetched` lists the objects whose items were fetched, in order.
   */
  method GetCustomFieldDataForLead(filters: seq<Filter>, leadId: string, env: Env)
    returns (customFieldValues: map<string, Value>, ghost fetched: seq<int>)
    ensures customFieldValues == CustomFieldData(filters, leadId, env)
    ensures forall o :: o in fetched <==> o in TargetObjects(filters, env)
    ensures forall i, j :: 0 <= i < j < |fetched| ==> fetched[i] != fetched[j]
  {
    customFieldValues := map[];
    var cachedCustomItems: map<string, seq<ItemData>> := map[];
    fetched := [];
    var n := 0;
    while n < |filters|
      invariant 0 <= n <= |filters|
      invariant customFieldValues == CustomFieldData(filters[..n], leadId, env)
      invariant CacheAgrees(cachedCustomItems, leadId, env) && FetchedOnce(fetched, cachedCustomItems, leadId)
      invariant forall o :: CacheKey(o, leadId) in cachedCustomItems ==> o in fetched
      invariant forall o :: o in fetched <==> o in TargetObjects(filters[..n], env)
    {
      var condition := filters[n];
      CustomFieldDataOneMore(filters, n, leadId, env);
      TargetObjectsOneMore(filters, n, env);
      n := n + 1;
      var target := ConditionTarget(condition, env);
      if target.None? {
        continue;
      }
      var items;
      ghost var before, fetchedBefore := cachedCustomItems, fetched;
      cachedCustomItems, items, fetched := CachedItems(cachedCustomItems, target.value.objectId, leadId, env, fetched);
      assert forall o :: o in fetched <==> o in fetchedBefore || o == target.value.objectId;
      forall o | CacheKey(o, leadId) in cachedCustomItems
        ensures o in fetched
      {
        if CacheKey(o, leadId) !in before {
          CacheKeyInjective(o, target.value.objectId, leadId);
        }
      }
      var result := CollectFieldValues(items, target.value.alias, true, env.valueToString);
      customFieldValues := customFieldValues[condition.field := List(result)];
    }
    assert filters[..|filters|] == filters;
  }

  // ---------------------------------------------------------------------------
  // onTokenReplacement

  /** One variant of a dynamic-content block: its content and its filters. */
  datatype FilterBlock = FilterBlock(content: string, filters: seq<Filter>)

  /** A dynamic-content block of the email. */
  datatype DynamicContent = DynamicContent(tokenName: string, content: string, filters: seq<FilterBlock>)

  /** An event collecting replacement tokens; `addToken` overwrites an earlier value for the same token. */
  class TokenEvent {
    var tokens: map<string, string>

    constructor(tokens: map<string, string>)
      ensures this.tokens == tokens
    {
      this.tokens := tokens;
    }

    method AddToken(token: string, content: string)
      modifies this
      ensures tokens == old(tokens)[token := content]
    {
      tokens := tokens[token := content];
    }
  }

  /** `'{dynamiccontent="' . $data['tokenName'] . '"}'` */
  function BlockToken(d: DynamicContent): string {
    "{dynamiccontent=\"" + d.tokenName + "\"}"
  }

  /** `(string) $lead['id']` */
  function LeadIdString(lead: Lead): string {
    ToStr(LeadId(lead))
  }

  /**
   * The variants of one block in order: each merges the custom values it
   * found into the contact, the flag records that some variant found any, and
   * the first variant tested (only once the flag is set) that matches gives
   * the content. The result is the content, the flag and the merged contact.
   */
  function PickContent(fbs: seq<FilterBlock>, content: string, isCustomObject: bool, lead: Lead, env: Env, host: Host)
    : Result<(string, bool, Lead), MatchError>
    decreases |fbs|
  {
    if |fbs| == 0 then Ok((content, isCustomObject, lead))
    else
      var values := CustomFieldData(fbs[0].filters, LeadIdString(lead), env);
      var flag := isCustomObject || |values| > 0;
      var merged := if |values| > 0 then lead + values else lead;
      if !flag then PickContent(fbs[1..], content, flag, merged, env, host)
      else
        match Match(fbs[0].filters, merged, host)
        case Err(e) => Err(e)
        case Ok(true) => Ok((fbs[0].content, flag, merged))
        case Ok(false) => PickContent(fbs[1..], content, flag, merged, env, host)
  }

  /**
   * All blocks in order, the contact carried from block to block; a block's
   * token is set only when its flag ended set. An exception from the matcher
   * stops the loop and keeps the tokens set so far.
   */
  function ReplaceAll(blocks: seq<DynamicContent>, lead: Lead, tokens: map<string, string>, env: Env, host: Host)
    : (map<string, string>, Option<MatchError>)
    decreases |blocks|
  {
    if |blocks| == 0 then (tokens, None)
    else
      match PickContent(blocks[0].filters, blocks[0].content, false, lead, env, host)
      case Err(e) => (tokens, Some(e))
      case Ok((c, flag, merged)) =>
        ReplaceAll(blocks[1..], merged, if flag then tokens[BlockToken(blocks[0]) := c] else tokens, env, host)
  }

  /** Once a variant has found custom values the flag stays set. */
  lemma {:induction false} FlagStaysSet(fbs: seq<FilterBlock>, content: string, lead: Lead, env: Env, host: Host)
    ensures PickContent(fbs, content, true, lead, env, host).Ok? ==> PickContent(fbs, content, true, lead, env, host).value.1
    decreases |fbs|
  {
    if |fbs| > 0 {
      var values := CustomFieldData(fbs[0].filters, LeadIdString(lead), env);
      var merged := if |values| > 0 then lead + values else lead;
      FlagStaysSet(fbs[1..], content, merged, env, host);
    }
  }

  /** Merging the custom values never changes the contact's id. */
  lemma MergeKeepsLeadId(lead: Lead, filters: seq<Filter>, env: Env)
    ensures LeadId(lead + CustomFieldData(filters, LeadIdString(lead), env)) == LeadId(lead)
  {
    CustomFieldDataKeys(filters, LeadIdString(lead), env);
    assert SubstrHead("id", 4) == "id";
  }

  /**
   * When no variant finds custom values, the block keeps its default content,
   * no filter is tested (so nothing throws), and no token is set.
   */
  lemma {:induction false} NoCustomDataKeepsDefault(fbs: seq<FilterBlock>, content: string, lead: Lead, env: Env, host: Host)
    requires forall i :: 0 <= i < |fbs| ==> CustomFieldData(fbs[i].filters, LeadIdString(lead), env) == map[]
    ensures PickContent(fbs, content, false, lead, env, host) == Ok((content, false, lead))
    decreases |fbs|
  {
    if |fbs| > 0 {
      assert CustomFieldData(fbs[0].filters, LeadIdString(lead), env) == map[];
      NoCustomDataKeepsDefault(fbs[1..], content, lead, env, host);
    }
  }

  /** The content picked is the block's default or the content of one of its variants. */
  lemma {:induction false} PickedContentComesFromBlock(fbs: seq<FilterBlock>, content: string, isCustomObject: bool, lead: Lead, env: Env, host: Host)
    ensures PickContent(fbs, content, isCustomObject, lead, env, host).Ok? ==>
              var c := PickContent(fbs, content, isCustomObject, lead, env, host).value.0;
              c == content || exists i :: 0 <= i < |fbs| && fbs[i].content == c
    decreases |fbs|
  {
    if |fbs| > 0 {
      var values := CustomFieldData(fbs[0].filters, LeadIdString(lead), env);
      var flag := isCustomObject || |values| > 0;
      var merged := if |values| > 0 then lead + values else lead;
      var r := PickContent(fbs[1..], content, flag, merged, env, host);
      var p := PickContent(fbs, content, isCustomObject, lead, env, host);
      PickContentStep(fbs, content, isCustomObject, lead, env, host);
      if p.Ok? && p.value.0 != fbs[0].content {
        PickedContentComesFromBlock(fbs[1..], content, flag, merged, env, host);
        if r.value.0 != content {
          var i :| 0 <= i < |fbs[1..]| && fbs[1..][i].content == r.value.0;
          assert fbs[i + 1].content == r.value.0;
        }
      }
    }
  }

  /** A block either gives its own content, throws, or passes the choice on to the next blocks. */
  lemma PickContentStep(fbs: seq<FilterBlock>, content: string, isCustomObject: bool, lead: Lead, env: Env, host: Host)
    requires |fbs| > 0
    ensures var values := CustomFieldData(fbs[0].filters, LeadIdString(lead), env);
      var flag := isCustomObject || |values| > 0;
      var merged := if |values| > 0 then lead + values else lead;
      var p := PickContent(fbs, content, isCustomObject, lead, env, host);
      p.Err? || (p.Ok? && p.value.0 == fbs[0].content) || p == PickContent(fbs[1..], content, flag, merged, env, host)
  {
  }
  /**
   * The flag and the contact after the custom data of the first n variants has
   * been merged in, as the loop carries them from one variant to the next.
   */
  ghost function StateAfter(fbs: seq<FilterBlock>, isCustomObject: bool, lead: Lead, env: Env, n: nat): (bool, Lead)
    requires n <= |fbs|
    decreases n
  {
    if n == 0 then (isCustomObject, lead)
    else
      var values := CustomFieldData(fbs[0].filters, LeadIdString(lead), env);
      StateAfter(fbs[1..], isCustomObject || |values| > 0, if |values| > 0 then lead + values else lead, env, n - 1)
  }

  /** What the loop concludes at variant i: no match while the flag is unset, else the matcher's verdict. */
  ghost function Verdict(fbs: seq<FilterBlock>, isCustomObject: bool, lead: Lead, env: Env, host: Host, i: nat): Result<bool, MatchError>
    requires i < |fbs|
  {
    var st := StateAfter(fbs, isCustomObject, lead, env, i + 1);
    if st.0 then Match(fbs[i].filters, st.1, host) else Ok(false)
  }

  /** The flag after the first variant's custom data is merged in. */
  ghost function FlagAfterFirst(fbs: seq<FilterBlock>, isCustomObject: bool, lead: Lead, env: Env): bool
    requires |fbs| > 0
  {
    isCustomObject || |CustomFieldData(fbs[0].filters, LeadIdString(lead), env)| > 0
  }

  /** The contact after the first variant's custom data is merged in. */
  ghost function LeadAfterFirst(fbs: seq<FilterBlock>, lead: Lead, env: Env): Lead
    requires |fbs| > 0
  {
    var values := CustomFieldData(fbs[0].filters, LeadIdString(lead), env);
    if |values| > 0 then lead + values else lead
  }

  /** The first variant's verdict, and what the loop does with it. */
  lemma PickContentHead(fbs: seq<FilterBlock>, content: string, isCustomObject: bool, lead: Lead, env: Env, host: Host)
    requires |fbs| > 0
    ensures var flag := FlagAfterFirst(fbs, isCustomObject, lead, env);
      var merged := LeadAfterFirst(fbs, lead, env);
      var v := Verdict(fbs, isCustomObject, lead, env, host, 0);
      var p := PickContent(fbs, content, isCustomObject, lead, env, host);
      StateAfter(fbs, isCustomObject, lead, env, 1) == (flag, merged)
      && (v == Ok(false) ==> p == PickContent(fbs[1..], content, flag, merged, env, host))
      && (v.Err? ==> p == Err(v.error))
      && (v == Ok(true) ==> p == Ok((fbs[0].content, flag, merged)))
  {
  }

  /** Past the first variant, the states and verdicts are those of the remaining variants from the merged contact. */
  lemma VerdictShift(fbs: seq<FilterBlock>, isCustomObject: bool, lead: Lead, env: Env, host: Host, i: nat)
    requires 1 <= i < |fbs|
    ensures var flag := FlagAfterFirst(fbs, isCustomObject, lead, env);
      var merged := LeadAfterFirst(fbs, lead, env);
      StateAfter(fbs, isCustomObject, lead, env, i + 1) == StateAfter(fbs[1..], flag, merged, env, i)
      && Verdict(fbs, isCustomObject, lead, env, host, i) == Verdict(fbs[1..], flag, merged, env, host, i - 1)
  {
    assert fbs[1..][i - 1] == fbs[i];
  }

  /** When none of the first n variants decides, none of the first n - 1 remaining ones does. */
  lemma NoDecisionShift(fbs: seq<FilterBlock>, isCustomObject: bool, lead: Lead, env: Env, host: Host, n: nat)
    requires 1 <= n <= |fbs|
    requires forall j :: 0 <= j < n ==> Verdict(fbs, isCustomObject, lead, env, host, j) == Ok(false)
    ensures var flag := FlagAfterFirst(fbs, isCustomObject, lead, env);
      var merged := LeadAfterFirst(fbs, lead, env);
      forall j :: 0 <= j < n - 1 ==> Verdict(fbs[1..], flag, merged, env, host, j) == Ok(false)
  {
    var flag := FlagAfterFirst(fbs, isCustomObject, lead, env);
    var merged := LeadAfterFirst(fbs, lead, env);
    forall j | 0 <= j < n - 1
      ensures Verdict(fbs[1..], flag, merged, env, host, j) == Ok(false)
    {
      VerdictShift(fbs, isCustomObject, lead, env, host, j + 1);
      assert Verdict(fbs, isCustomObject, lead, env, host, j + 1) == Ok(false);
    }
  }

  /** A decision found among the remaining variants is the decision of the whole walk when the first variant does not decide. */
  lemma DecisionFromTail(fbs: seq<FilterBlock>, content: string, isCustomObject: bool, lead: Lead, env: Env, host: Host, i: nat)
    requires 1 <= i < |fbs| && Verdict(fbs, isCustomObject, lead, env, host, 0) == Ok(false)
    requires var flag := FlagAfterFirst(fbs, isCustomObject, lead, env);
      var merged := LeadAfterFirst(fbs, lead, env);
      var st := StateAfter(fbs[1..], flag, merged, env, i);
      var v := Verdict(fbs[1..], flag, merged, env, host, i - 1);
      PickContent(fbs[1..], content, flag, merged, env, host) == if v.Err? then Err(v.error) else Ok((fbs[1..][i - 1].content, st.0, st.1))
    ensures var st := StateAfter(fbs, isCustomObject, lead, env, i + 1);
      var v := Verdict(fbs, isCustomObject, lead, env, host, i);
      PickContent(fbs, content, isCustomObject, lead, env, host) == if v.Err? then Err(v.error) else Ok((fbs[i].content, st.0, st.1))
  {
    PickContentHead(fbs, content, isCustomObject, lead, env, host);
    VerdictShift(fbs, isCustomObject, lead, env, host, i);
    assert fbs[1..][i - 1] == fbs[i];
  }

  /**
   * The first variant whose verdict is not "no match" decides: the token takes
   * its content when it matches, and the matcher's error propagates when it fails.
   */
  lemma {:induction false} PickContentIsFirstMatch(fbs: seq<FilterBlock>, content: string, isCustomObject: bool, lead: Lead, env: Env, host: Host, i: nat)
    requires i < |fbs| && Verdict(fbs, isCustomObject, lead, env, host, i) != Ok(false)
    requires forall j :: 0 <= j < i ==> Verdict(fbs, isCustomObject, lead, env, host, j) == Ok(false)
    ensures var st := StateAfter(fbs, isCustomObject, lead, env, i + 1);
      var v := Verdict(fbs, isCustomObject, lead, env, host, i);
      PickContent(fbs, content, isCustomObject, lead, env, host) == if v.Err? then Err(v.error) else Ok((fbs[i].content, st.0, st.1))
    decreases i
  {
    if i == 0 {
      PickContentHead(fbs, content, isCustomObject, lead, env, host);
    } else {
      var flag := FlagAfterFirst(fbs, isCustomObject, lead, env);
      var merged := LeadAfterFirst(fbs, lead, env);
      assert Verdict(fbs, isCustomObject, lead, env, host, 0) == Ok(false);
      VerdictShift(fbs, isCustomObject, lead, env, host, i);
      NoDecisionShift(fbs, isCustomObject, lead, env, host, i);
      PickContentIsFirstMatch(fbs[1..], content, flag, merged, env, host, i - 1);
      DecisionFromTail(fbs, content, isCustomObject, lead, env, host, i);
    }
  }


  /** When no variant decides, the token keeps its default content. */
  lemma {:induction false} PickContentKeepsDefault(fbs: seq<FilterBlock>, content: string, isCustomObject: bool, lead: Lead, env: Env, host: Host)
    requires forall i :: 0 <= i < |fbs| ==> Verdict(fbs, isCustomObject, lead, env, host, i) == Ok(false)
    ensures var st := StateAfter(fbs, isCustomObject, lead, env, |fbs|);
      PickContent(fbs, content, isCustomObject, lead, env, host) == Ok((content, st.0, st.1))
    decreases |fbs|
  {
    if |fbs| > 0 {
      var flag := FlagAfterFirst(fbs, isCustomObject, lead, env);
      var merged := LeadAfterFirst(fbs, lead, env);
      PickContentHead(fbs, content, isCustomObject, lead, env, host);
      assert Verdict(fbs, isCustomObject, lead, env, host, 0) == Ok(false);
      NoDecisionShift(fbs, isCustomObject, lead, env, host, |fbs|);
      PickContentKeepsDefault(fbs[1..], content, flag, merged, env, host);
      if |fbs| > 1 {
        VerdictShift(fbs, isCustomObject, lead, env, host, |fbs| - 1);
      } else {
        assert StateAfter(fbs[1..], flag, merged, env, 0) == (flag, merged);
      }
    }
  }




  /**
   * The inner loop of `onTokenReplacement` over one block's variants: the
   * contact grows by the custom values each variant finds, and the first
   * variant tested once the flag is set that matches gives the content.
   */
  method WalkVariants(filters: seq<FilterBlock>, content: string, contact: Lead, env: Env, host: Host)
    returns (r: Result<(string, bool, Lead), MatchError>)
    ensures r == PickContent(filters, content, false, contact, env, host)
  {
    var lead := contact;
    var filterContent := content;
    var isCustomObject := false;
    var k := 0;
    while k < |filters|
      invariant 0 <= k <= |filters|
      invariant PickContent(filters, content, false, contact, env, host)
                == PickContent(filters[k..], filterContent, isCustomObject, lead, env, host)
      invariant filterContent == content
    {
      var filter := filters[k];
      assert filters[k..][0] == filter && filters[k..][1..] == filters[k + 1..];
      var customFieldValues, _ := GetCustomFieldDataForLead(filter.filters, LeadIdString(lead), env);
      if |customFieldValues| > 0 {
        isCustomObject := true;
        lead := lead + customFieldValues;
      }
      if isCustomObject {
        var matched := MatchFilterForLeadInCustomObject(filter.filters, lead, host);
        if matched.Err? {
          return Err(matched.error);
        }
        if matched.value {
          filterContent := filter.content;
          return Ok((filterContent, isCustomObject, lead));
        }
      }
      k := k + 1;
    }
    return Ok((filterContent, isCustomObject, lead));
  }

  /**
   * `onTokenReplacement`: nothing happens without dynamic content; otherwise
   * each block's variants are walked as `PickContent` says, and the block's
   * token is set when the flag is. An `OperatorsNotFoundException` from the
   * matcher propagates (`error`), leaving the tokens set before it.
   */
  method OnTokenReplacement(event: TokenEvent, dynamicContent: Option<seq<DynamicContent>>, contact: Lead, env: Env, host: Host)
    returns (error: Option<MatchError>)
    modifies event
    ensures dynamicContent.None? ==> event.tokens == old(event.tokens) && error.None?
    ensures dynamicContent.Some? ==> (event.tokens, error) == ReplaceAll(dynamicContent.value, contact, old(event.tokens), env, host)
  {
    if dynamicContent.None? {
      return None;
    }
    var tokenData := dynamicContent.value;
    var lead := contact;
    var b := 0;
    while b < |tokenData|
      invariant 0 <= b <= |tokenData|
      invariant ReplaceAll(tokenData, contact, old(event.tokens), env, host)
                == ReplaceAll(tokenData[b..], lead, event.tokens, env, host)
    {
      var data := tokenData[b];
      assert tokenData[b..][0] == data && tokenData[b..][1..] == tokenData[b + 1..];
      var picked := WalkVariants(data.filters, data.content, lead, env, host);
      if picked.Err? {
        return Some(picked.error);
      }
      var (filterContent, isCustomObject, merged) := picked.value;
      lead := merged;
      if isCustomObject {
        event.AddToken(BlockToken(data), filterContent);
      }
      b := b + 1;
    }
    return None;
  }

  // ---------------------------------------------------------------------------
  // decodeTokens

  /** A custom-object token found in the email content. */
  datatype Token = Token(token: string, customObjectAlias: string, customFieldAlias: string, format: string, defaultValue: string)

  /** What the list-format listeners did: formatted the values, left them, or threw. */
  datatype FormatOutcome = Formatted(text: string) | NotFormatted | FormatFailed

  /**
   * The services `decodeTokens` uses: the object model's `fetchEntityByAlias`
   * (None for `NotFoundException`), the token's items of an object, the field
   * types' `valueToString`, the format listeners and `TokenFormatter::format`
   * with the default format.
   */
  datatype DecodeEnv = DecodeEnv(
    objectByAlias: string -> Option<int>,
    tokenItems: (int, Token) -> seq<ItemData>,
    valueToString: FieldValue -> string,
    formatListeners: (seq<Value>, string) -> FormatOutcome,
    defaultFormat: seq<Value> -> string)

  /** The values of a token: none when its object is not found. */
  function TokenValues(t: Token, env: DecodeEnv): seq<Value> {
    match env.objectByAlias(t.customObjectAlias)
    case None => []
    case Some(o) => FieldValues(env.tokenItems(o, t), t.customFieldAlias, false, env.valueToString)
  }

  /** The replacement of one token. */
  function DecodeToken(t: Token, env: DecodeEnv): string {
    var values := TokenValues(t, env);
    if |values| == 0 then t.defaultValue
    else if !IsEmpty(Str(t.format)) then
      match env.formatListeners(values, t.format)
      case Formatted(s) => s
      case _ => env.defaultFormat(values)
    else env.defaultFormat(values)
  }

  /**
   * The three outcomes of a token: its default value exactly when it has no
   * values; a listener's string only when a non-empty format was given and a
   * listener formatted; the default format in every other case, a format
   * exception included.
   */
  lemma DecodeTokenOutcomes(t: Token, env: DecodeEnv)
    ensures |TokenValues(t, env)| == 0 ==> DecodeToken(t, env) == t.defaultValue
    ensures |TokenValues(t, env)| > 0 && t.format != "" && t.format != "0"
            && env.formatListeners(TokenValues(t, env), t.format).Formatted?
            ==> DecodeToken(t, env) == env.formatListeners(TokenValues(t, env), t.format).text
    ensures |TokenValues(t, env)| > 0
            && (t.format == "" || t.format == "0" || !env.formatListeners(TokenValues(t, env), t.format).Formatted?)
            ==> DecodeToken(t, env) == env.defaultFormat(TokenValues(t, env))
    ensures env.objectByAlias(t.customObjectAlias).None? ==> DecodeToken(t, env) == t.defaultValue
  {
  }

  /** The tokens set by decoding `tokens` in order, a later one overwriting an earlier. */
  function DecodeAll(tokens: seq<Token>, m: map<string, string>, env: DecodeEnv): map<string, string>
    decreases |tokens|
  {
    if |tokens| == 0 then m else DecodeAll(tokens[1..], m[tokens[0].token := DecodeToken(tokens[0], env)], env)
  }

  /** `decodeTokens`: nothing when the plugin is disabled, otherwise each found token is set. */
  method DecodeTokens(event: TokenEvent, pluginEnabled: bool, tokens: seq<Token>, env: DecodeEnv)
    modifies event
    ensures event.tokens == if pluginEnabled then DecodeAll(tokens, old(event.tokens), env) else old(event.tokens)
  {
    if !pluginEnabled {
      return;
    }
    if |tokens| == 0 {
      return;
    }
    var i := 0;
    while i < |tokens|
      invariant 0 <= i <= |tokens|
      invariant DecodeAll(tokens, old(event.tokens), env) == DecodeAll(tokens[i..], event.tokens, env)
    {
      var token := tokens[i];
      assert tokens[i..][0] == token && tokens[i..][1..] == tokens[i + 1..];
      var fieldValues: seq<Value> := [];
      var customObject := env.objectByAlias(token.customObjectAlias);
      if customObject.Some? {
        fieldValues := CollectFieldValues(env.tokenItems(customObject.value, token), token.customFieldAlias, false, env.valueToString);
      }
      var result: string;
      if |fieldValues| == 0 {
        result := token.defaultValue;
      } else if !IsEmpty(Str(token.format)) {
        var outcome := env.formatListeners(fieldValues, token.format);
        result := if outcome.Formatted? then outcome.text else env.defaultFormat(fieldValues);
      } else {
        result := env.defaultFormat(fieldValues);
      }
      event.AddToken(token.token, result);
      i := i + 1;
    }
  }
}
