# Custom Objects plugin: a verified model of its rule-bearing core

This project models, in Dafny, the parts of the Custom Objects plugin that carry
self-contained rules. Every other part of the plugin is glue between the host
marketing platform, its ORM and its forms.

- **Dynamic-content matcher** (`EventListener/TokenSubscriber.php`).
  - `matchFilterForLeadInCustomObject` splits segment filters into groups by their glue.
  - Inside each group it compares the contact's values with the filter value, operator by operator.
  - The result is the OR of the groups, each group being an AND of its filters.
  - Custom-object filters are existential over the contact's item values.
  - The model has the PHP `foreach` loops as Dafny methods.
  - Each method is proved equal to a fold specification, `TokenMatcher.Match`.
  - Lemmas then prove what that fold means:
    - the OR of ANDs over the groups;
    - the short-circuit of a false group;
    - the exception for an unknown operator that is reached;
    - the existential scan.
- **Token replacement** (same file).
  - `onTokenReplacement` picks a dynamic-content variant.
  - `getCustomFieldDataForLead` gathers the contact's custom values through a per-call cache.
  - `getCustomFieldValue` extracts item values.
  - `decodeTokens` chooses between the default value, a listener's formatting and the default format.
- **Custom-field model** (`Model/CustomFieldModel.php`).
  - `CustomField` is a class whose fields `setMetadata`, `setAlias`, `sanitizeAlias` and `ensureUniqueAlias` update.
  - `ensureUniqueAlias` appends its counter cumulatively.
  - `addCreatorLimit` adds the creator condition with PHP's array union `+=`.
  - `fetchCustomFieldsForObject` builds the request arguments.
- **Date operators** (`CustomFieldType/DateOperatorTrait.php`): key restriction and key removal over ordered PHP arrays.
- **Segment dictionary** (`EventListener/SegmentFiltersDictionarySubscriber.php`).
  - A row loop registers one `cmo_<object>` translation per object and one `cmf_<field>` translation per field.
  - `createTranslation` rejects any type other than number, text and datetime.
- **Form and report subscribers.**
  - The item-choice tree (`Form/Type/CustomItemListType.php`).
  - Field crates and per-item values (`EventListener/FormSubscriber.php`).
  - Report tables and the process-wide static cache of custom objects (`EventListener/ReportSubscriber.php`).

`php.dfy` gives the PHP semantics these rules rely on:

- **Values and conversions.**
  - A value datatype: `Null | Bool | Int | Str | List`.
  - `empty`, and the `(string)` and `(int)` casts.
  - Integer numeric strings.
- **Loose comparison.** PHP 8's loose comparison `<=>`, with `==`, `<` and `<=` built on it.
- **String functions.** `explode`/`implode`, `strpos`, `strncmp`, `substr` and `substr_count`.
- **Arrays.** Ordered PHP arrays as sequences of key/value pairs, with:
  - assignment;
  - lookup;
  - union `+`;
  - `array_merge`;
  - `array_intersect_key`/`unset`;
  - `array_filter`.

Each model member is paired with a partner and a lemma that ties the two together. A partner is a specification function, an inverse, or an independent declarative statement.

- The imperative methods have `ensures` clauses that equate their results or new state with a specification function.
- Lemmas then state what the source promises about that function.

Services outside the plugin become parameters:

- the repositories, `getArrayTableData` and `fetchEntity` lookups;
- `preg_match`, `checkLeadValueIsInFilter`, `valueToString` and `cleanAlias`;
- the permission check, the event dispatcher with its list-format listeners, and `TokenFormatter`.

Wherever those services appear in a contract, the contract holds whatever the service answers.

## Model

| member | source | states |
|---|---|---|
| Php.IntToStringRoundTrip | EventListener/TokenSubscriber.php:396-405 | PHP's `(int)` cast reads every integer's decimal spelling back to that integer, and the spelling is a numeric string |
| Php.NatToStringInjective | EventListener/SegmentFiltersDictionarySubscriber.php:59-66 | distinct ids have distinct decimal spellings, so `cmo_`/`cmf_` keys name one id each |
| Php.CompareAntisymmetric | EventListener/TokenSubscriber.php:602-613 | PHP 8 loose comparison `<=>` is antisymmetric over null, bool, int, string and list values |
| Php.CompareIntString | EventListener/TokenSubscriber.php:588-613 | an integer and a string compare as numbers when the string is numeric and as strings otherwise, in both argument orders |
| Php.StrPosFrom | EventListener/TokenSubscriber.php:648-650 | `strpos` returns an occurrence of the needle at or after the offset, and no earlier occurrence exists |
| Php.StrPosFindsSubstring | EventListener/TokenSubscriber.php:648-650 | `strpos` finds something exactly when the needle occurs somewhere in the haystack |
| Php.StrncmpIsPrefix | EventListener/TokenSubscriber.php:641-643 | `strncmp($l, $f, strlen($f)) === 0` holds exactly when `$f` is a prefix of `$l` |
| Php.SubstrIsSuffix | EventListener/TokenSubscriber.php:644-647 | `substr($l, strlen($l) - strlen($f)) === $f` holds exactly when `$f` is a suffix of `$l` |
| Php.ImplodeExplode | EventListener/TokenSubscriber.php:571-580 | `explode` loses nothing: imploding its pieces with the same separator gives the string back |
| Php.ArraySet | Form/Type/CustomItemListType.php:39-42 | a PHP array assignment adds the key, maps it to the new value and leaves every other key's value unchanged |
| Php.ArraySetNewKey | EventListener/SegmentFiltersDictionarySubscriber.php:60-66 | assigning a key the array does not have appends the entry at the end, keeping insertion order |
| Php.ArrayUnionGet | Model/CustomFieldModel.php:200 | array union `+=` keeps the left operand's entry for a shared key and takes the right operand's entry only for new keys |
| Php.ArrayMerge | EventListener/ReportSubscriber.php:67-70 | `array_merge` has exactly the keys of both arrays; a key of the second array takes that array's value (its last entry's), and every other key keeps the first array's value |
| Php.KeepKeysGet | CustomFieldType/DateOperatorTrait.php:31 | key restriction keeps exactly the kept keys, each with its original value |
| Php.KeepKeysKeepsOrder | CustomFieldType/DateOperatorTrait.php:31 | key restriction keeps the first array's order |
| Php.FilterValuesKeepsOrder | EventListener/FormSubscriber.php:85 | `array_filter` keeps the surviving entries in their order, under their original keys |
| TokenMatcher.MatchFilterForLeadInCustomObject | EventListener/TokenSubscriber.php:497-661 | the matching loop returns exactly the group fold `Match`, and `false` for a contact whose id is empty |
| TokenMatcher.MatchOneFilter | EventListener/TokenSubscriber.php:507-656 | one pass of the outer loop over the `$groups` array performs one step of the group fold, throwing exactly when the fold does |
| TokenMatcher.OpenGroup | EventListener/TokenSubscriber.php:517-537 | the first filter and every `or` filter open a new group assumed false; a filter in a group already false is skipped, leaving the groups unchanged |
| TokenMatcher.FilterOutcome | EventListener/TokenSubscriber.php:539-544 | a filter's outcome: custom-object values are taken as the list, any other value is wrapped in a one-element list, and a non-list gives no outcome |
| TokenMatcher.ScanValues | EventListener/TokenSubscriber.php:545-656 | the inner loop over the contact's values computes the scan specification |
| TokenMatcher.MatchIsOrOfAnds | EventListener/TokenSubscriber.php:504-660 | when every reached operator is known, the result is true iff the id is non-empty and some group of the applicable filters is true (its first filter true, and none of its later filters false) |
| TokenMatcher.FoldIsGroupValues | EventListener/TokenSubscriber.php:507-658 | the fold's group array equals the truth value of each group of the split of the applicable filters |
| TokenMatcher.SomeGroupTrue | EventListener/TokenSubscriber.php:660 | `in_array(true, $groups)` holds iff some group is true |
| TokenMatcher.NoApplicableFilterIsFalse | EventListener/TokenSubscriber.php:508-510 | filters whose field the contact lacks are skipped, so with no applicable filter the result is false |
| TokenMatcher.FalseGroupSkipsFilter | EventListener/TokenSubscriber.php:527-529 | a non-`or` filter following a false group is never evaluated: removing it changes nothing, even when its operator is unknown |
| TokenMatcher.UnknownOperatorReachedThrows | EventListener/TokenSubscriber.php:651-652 | an unknown operator that is reached with at least one value throws `OperatorsNotFoundException` |
| TokenMatcher.ScanKnownNeverFails | EventListener/TokenSubscriber.php:587-653 | a scan with a known operator never throws |
| TokenMatcher.ScanIsExistential | EventListener/TokenSubscriber.php:540-556 | a scan is true iff some normalised (value, filter value) pair satisfies the operator; an empty list leaves the group unchanged |
| TokenMatcher.ScanStops | EventListener/TokenSubscriber.php:546-548 | once a value satisfies the operator the scan stops, with the outcome true |
| TokenMatcher.FilterValueNormalisedOnce | EventListener/TokenSubscriber.php:550-585 | outside datetime/time, re-normalising the carried filter value leaves it unchanged, so every value is compared against the once-normalised filter value |
| TokenMatcher.ExplodeToList | EventListener/TokenSubscriber.php:574-579 | splitting a select/tags value on `\|` yields a non-empty list of strings that joined with `\|` give back the value's string form |
| TokenMatcher.Applicable | EventListener/TokenSubscriber.php:508-510 | a filter is applicable exactly when it is one of the input filters and the contact has its field |
| TokenMatcher.ApplicableKeepsOrder | EventListener/TokenSubscriber.php:508-510 | the applicable filters keep their order among all filters |
| TokenMatcher.OperatorNamed | EventListener/TokenSubscriber.php:587-653 | the operator switch selects a case only for that case's name |
| TokenMatcher.OperatorNamedRoundTrip | EventListener/TokenSubscriber.php:587-650 | every operator case is reached by its own name |
| TokenMatcher.StringOperatorsMeaning | EventListener/TokenSubscriber.php:641-650 | `startsWith` is the prefix test, `endsWith` the suffix test and `contains` the substring test on the string casts |
| TokenMatcher.OrderOperatorsMirror | EventListener/TokenSubscriber.php:602-613 | `gt` is `<=>` giving 1, `gte` is `<=>` giving at least 0, and `a gt b` is `b lt a` |
| TokenMatcher.NegatedOperatorsComplement | EventListener/TokenSubscriber.php:588-640 | `!=`, `!empty`, `!like` and `!regexp` are the exact complements of `=`, `empty`, `like` and `regexp` |
| TokenMatcher.SplitConcat | EventListener/TokenSubscriber.php:512-520 | the groups, joined back together, are the applicable filters in their order |
| TokenMatcher.SplitGroupHeads | EventListener/TokenSubscriber.php:512-520 | every group is non-empty, the first group starts with the first filter, and every later group starts with an `or` filter |
| TokenMatcher.SplitGroupTails | EventListener/TokenSubscriber.php:512-520 | no filter inside a group after its first has glue `or` |
| TokenMatcher.TataIsNotToyota | Tests/Functional/Token/EmailWithCustomObjectDynamicContentFunctionalTest.php:152-158 | the item text `Tata` satisfies `!= Toyota` |
| TokenMatcher.ExampleNotEqualMatches | Tests/Functional/Token/EmailWithCustomObjectDynamicContentFunctionalTest.php:152-158 | items Tata/Toyota/Honda with `email !empty` match a `!= Toyota` filter |
| TokenMatcher.ExampleEmptyDoesNotMatch | Tests/Functional/Token/EmailWithCustomObjectDynamicContentFunctionalTest.php:152-158 | items Tata/Toyota/Honda do not match a text `empty` filter |
| TokenSubscriber.WithDefault | EventListener/TokenSubscriber.php:454-457 | a non-empty value is kept, an empty one is replaced by the field's default value, and the field's type and default are unchanged |
| TokenSubscriber.FieldValuesOnePerItem | EventListener/TokenSubscriber.php:439-467 | for `name`, one value per item, namely its name; otherwise one value per item having the field, taken from that item |
| TokenSubscriber.ChoiceValuesKeptRaw | EventListener/TokenSubscriber.php:459-463 | select and multiselect values are kept raw (default applied) in the lookup, and turned into text by `valueToString` in token decoding |
| TokenSubscriber.CollectFieldValues | EventListener/TokenSubscriber.php:437-469 | the item loop computes the field values specification |
| TokenSubscriber.CacheKeyInjective | EventListener/TokenSubscriber.php:411 | two objects of one contact never share a cache key |
| TokenSubscriber.CustomFieldDataKeys | EventListener/TokenSubscriber.php:392-418 | every key of the gathered values is a `cmf_` or `cmo_` field |
| TokenSubscriber.IdAfterPrefixReadsId | EventListener/TokenSubscriber.php:396-405 | `(int) explode($prefix, $prefix . $id)[1]` reads the id back |
| TokenSubscriber.CachedItems | EventListener/TokenSubscriber.php:411-414 | a cache lookup returns the object's items; on a miss it stores them under the object's key and logs one fetch, and on a hit it leaves the cache and the log unchanged |
| TokenSubscriber.GetCustomFieldDataForLead | EventListener/TokenSubscriber.php:386-425 | the condition loop returns the specification's values, and it fetches exactly the objects its conditions refer to, each once |
| TokenSubscriber.FlagStaysSet | EventListener/TokenSubscriber.php:364-365 | once a variant found custom values, the custom-object flag stays set for the rest of the block |
| TokenSubscriber.MergeKeepsLeadId | EventListener/TokenSubscriber.php:366 | merging custom values into the contact never changes its id |
| TokenSubscriber.NoCustomDataKeepsDefault | EventListener/TokenSubscriber.php:361-377 | when no variant finds custom values, the block keeps its default content and emits no token |
| TokenSubscriber.PickedContentComesFromBlock | EventListener/TokenSubscriber.php:358-372 | the picked content is the block's default content or the content of one of its variants |
| TokenSubscriber.WalkVariants | EventListener/TokenSubscriber.php:358-373 | the variant loop computes `PickContent` |
| TokenSubscriber.PickContentIsFirstMatch | EventListener/TokenSubscriber.php:357-372 | the first variant that matches, with the flag set and the contact merged so far, supplies the content; a matcher error at that variant propagates |
| TokenSubscriber.PickContentKeepsDefault | EventListener/TokenSubscriber.php:357-372 | when no variant matches with the flag set, the token keeps its default content |
| TokenSubscriber.OnTokenReplacement | EventListener/TokenSubscriber.php:346-379 | without dynamic content, nothing changes; otherwise the tokens are those of `ReplaceAll` |
| TokenSubscriber.DecodeTokenOutcomes | EventListener/TokenSubscriber.php:186-217 | no values (object missing included) gives the default value; a non-empty format that a listener formatted gives that text; every other case, including a format exception, gives the default format |
| TokenSubscriber.DecodeTokens | EventListener/TokenSubscriber.php:174-219 | with the plugin disabled nothing changes; otherwise every token is replaced by its decoding |
| CustomFieldModel.FetchEntity | Model/CustomFieldModel.php:73-83 | throws `NotFoundException` for the id exactly when the lookup finds nothing, and otherwise returns that entity |
| CustomFieldModel.SanitizedAliasFallsBack | Model/CustomFieldModel.php:142-146 | an empty alias (`""` or `"0"`) is replaced by the cleaned name, any other alias is cleaned |
| CustomFieldModel.SanitizeAlias | Model/CustomFieldModel.php:140-150 | stores the sanitised alias and changes no other field |
| CustomFieldModel.CandidateExtends | Model/CustomFieldModel.php:160-164 | each candidate alias properly extends every earlier one |
| CustomFieldModel.CandidatesDistinct | Model/CustomFieldModel.php:160-164 | no candidate alias is tried twice |
| CustomFieldModel.FirstTaken | Model/CustomFieldModel.php:157-164 | the chosen counter is one where `isAliasUnique` answers false, and it answers true for every earlier one |
| CustomFieldModel.FirstTakenIsFirst | Model/CustomFieldModel.php:157-164 | any counter with that property is the chosen one |
| CustomFieldModel.EnsureUniqueAlias | Model/CustomFieldModel.php:155-170 | the alias becomes the first cumulative candidate for which `isAliasUnique` answers false, and no other field changes |
| CustomFieldModel.SanitizedAliasKeptWhenTaken | Model/CustomFieldModel.php:63-68 | when `isAliasUnique` already answers false for the sanitised alias, that alias is kept |
| CustomFieldModel.AliasAfterSetExtendsSanitized | Model/CustomFieldModel.php:63-68 | the alias set always extends the sanitised alias, and `isAliasUnique` answers false for it |
| CustomFieldModel.SetAlias | Model/CustomFieldModel.php:63-68 | sanitises and then makes unique, changing only the alias |
| CustomFieldModel.SetMetadata | Model/CustomFieldModel.php:44-61 | creator, date added and alias are set only for a new entity; modifier and date modified are always set |
| CustomFieldModel.AddCreatorLimit | Model/CustomFieldModel.php:179-204 | with `viewother` granted, the arguments are unchanged; otherwise `filter` and `filter.force` exist afterwards and other arguments are kept |
| CustomFieldModel.CreatorLimitByUnion | Model/CustomFieldModel.php:184-200 | without `viewother`, the forced conditions are kept entry for entry, and the creator condition is forced exactly when no condition had key 0 |
| CustomFieldModel.CustomFieldsForObjectHaveNoCreatorLimit | Model/CustomFieldModel.php:88-119 | an object's fields are requested with exactly the object and published conditions, with no creator limit even when `viewother` is denied |
| DateOperatorTrait.OperatorOptionsMeaning | CustomFieldType/DateOperatorTrait.php:14-21 | the options are the parent's without `between`, `!between`, `inLast`, `inNext`, other values unchanged, parent order kept |
| DateOperatorTrait.OperatorsMeaning | CustomFieldType/DateOperatorTrait.php:26-32 | the operators' keys are the parent's keys intersected with the twelve allowed ones, values unchanged, parent order kept |
| DateOperatorTrait.SegmentOnlyOperators | CustomFieldType/DateOperatorTrait.php:14-32 | the four segment-only operators never appear in the options but are kept in the operators when the parent has them |
| DateOperatorTrait.OperatorsForSegment | CustomFieldType/DateOperatorTrait.php:34-37 | the segment operators are the parent's operators |
| DateOperatorTrait.OperatorsWithinSegmentOperators | CustomFieldType/DateOperatorTrait.php:26-37 | every operator offered is also a segment operator with the same value |
| SegmentDictionary.CreateTranslation | EventListener/SegmentFiltersDictionarySubscriber.php:76-91 | succeeds exactly for number, text and datetime, with the field query builder, table `custom_field_value_<type>` and the field id |
| SegmentDictionary.KeysDistinct | EventListener/SegmentFiltersDictionarySubscriber.php:60-66 | object keys and field keys never collide, and each names one id |
| SegmentDictionary.OnGenerateSegmentDictionary | EventListener/SegmentFiltersDictionarySubscriber.php:48-68 | the row loop leaves the event with the translations, and reports the exception, of the dictionary specification |
| SegmentDictionary.AddRow | EventListener/SegmentFiltersDictionarySubscriber.php:59-66 | one row: its object's translation when the object is new, then its own translation or the exception |
| SegmentDictionary.AbortIsFinal | EventListener/SegmentFiltersDictionarySubscriber.php:58-67 | once a row has thrown, later rows change nothing |
| SegmentDictionary.UnsupportedTypeAborts | EventListener/SegmentFiltersDictionarySubscriber.php:59-66 | an unsupported type throws with the message naming it, after its object's translation was added |
| SegmentDictionary.RegisteredOnlyGrows | EventListener/SegmentFiltersDictionarySubscriber.php:56-65 | the registered objects of a prefix of the rows are a prefix of the final ones |
| SegmentDictionary.TranslationsOnlyGrow | EventListener/SegmentFiltersDictionarySubscriber.php:58-67 | translations added for earlier rows remain, including after an exception |
| SegmentDictionary.ObjectsRegisteredOnce | EventListener/SegmentFiltersDictionarySubscriber.php:59-65 | each object is registered once and has its `cmo_` translation |
| SegmentDictionary.StepKeepsObjectsRegistered | EventListener/SegmentFiltersDictionarySubscriber.php:59-66 | one row keeps every registered object registered once with its translation |
| SegmentDictionary.RegisteredAreRowObjects | EventListener/SegmentFiltersDictionarySubscriber.php:56-65 | without an exception the registered objects are exactly the rows' objects |
| SegmentDictionary.EveryFieldTranslated | EventListener/SegmentFiltersDictionarySubscriber.php:66 | without an exception every row's field has its `cmf_` translation |
| SegmentDictionary.ObjectBeforeItsFirstField | EventListener/SegmentFiltersDictionarySubscriber.php:59-66 | a new object's `cmo_` translation is appended immediately before the `cmf_` translation of its first field |
| CustomItemListType.BuildChoices | Form/Type/CustomItemListType.php:32-47 | the nested loops build the choices of the assignment specification |
| CustomItemListType.AddObjectChoices | Form/Type/CustomItemListType.php:37-43 | one object's `Any` entry (when it has items), then its items |
| CustomItemListType.LastWriteWins | Form/Type/CustomItemListType.php:39-42 | every choice holds the value of the last assignment to it, so a later item of the same name or one named `Any` overwrites |
| CustomItemListType.GroupExistsIffItems | Form/Type/CustomItemListType.php:38-43 | an alias has a group exactly when some object of that alias has items; objects sharing an alias share the group |
| CustomItemListType.NoWritesWithoutItems | Form/Type/CustomItemListType.php:38-43 | objects without items contribute no choice |
| CustomItemListType.AnyChoiceOfLastObject | Form/Type/CustomItemListType.php:38-40 | an object with items, none named `Any`, and no later object of its alias with items, has `Any => object_<id>` |
| CustomItemListType.ItemWritesInGroup | Form/Type/CustomItemListType.php:41-43 | each item is assigned under its object's alias, name to id, in order |
| FormSubscriber.ObjectCrates | EventListener/FormSubscriber.php:41-46 | one `ObjectCrate(alias, name)` per object, in order |
| FormSubscriber.OnObjectCollect | EventListener/FormSubscriber.php:41-46 | appends exactly those crates to the event |
| FormSubscriber.LastMatchingValueIsLast | EventListener/FormSubscriber.php:72-80 | the value picked is that of the last entry of the field's alias, or null when none has it |
| FormSubscriber.PickValue | EventListener/FormSubscriber.php:74-79 | the inner loop picks that value |
| FormSubscriber.ItemValues | EventListener/FormSubscriber.php:70-83 | one value per item, under the item's key |
| FormSubscriber.FieldValueListMeaning | EventListener/FormSubscriber.php:68-86 | an item is listed exactly when its value is not null, under its own key, and the list keeps the items' order |
| FormSubscriber.FieldCrates | EventListener/FormSubscriber.php:60-65 | one `FieldCrate` per custom field of the object, in order, each with its value list |
| FormSubscriber.OnFieldCollect | EventListener/FormSubscriber.php:51-66 | nothing is appended when the object alias is not found; otherwise exactly the field crates |
| ReportSubscriber.GetContextInjective | EventListener/ReportSubscriber.php:56-59 | every context starts with `custom.objects.`, and distinct ids give distinct contexts |
| ReportSubscriber.Contexts | EventListener/ReportSubscriber.php:63 | one context per custom object, in order |
| ReportSubscriber.Subscriber.GetCustomObjects | EventListener/ReportSubscriber.php:39-47 | returns the cached list, or the repository's list when the cache is empty; the cache then holds it, and `findAll` ran exactly once if the cache was empty and not at all otherwise |
| ReportSubscriber.SharedAcrossInstances | EventListener/ReportSubscriber.php:27 | two subscribers sharing the static cache both get the list the first loads or finds cached; only the first queries, and only when the cache was empty, so a shared repository is queried at most once |
| ReportSubscriber.Subscriber.OnReportBuilder | EventListener/ReportSubscriber.php:61-83 | nothing is added when `checkContext` refuses the contexts; otherwise one table per custom object with the merged columns; the cache then holds the list, and `findAll` ran once if the cache was empty and not at all otherwise |
| ReportSubscriber.TwoReports | EventListener/ReportSubscriber.php:39-47 | two reports built by one subscriber query the repository at most once between them |
| ReportSubscriber.AddObjectTables | EventListener/ReportSubscriber.php:73-82 | the loop adds the tables of the specification |
| ReportSubscriber.OneTablePerObject | EventListener/ReportSubscriber.php:73-82 | with distinct ids, every object has the table of its plural name, the shared columns and group `custom.objects` |
| ReportSubscriber.OtherTablesUnchanged | EventListener/ReportSubscriber.php:73-82 | a table under any other context is unchanged |

## Left out

- Regex operators: `like`, `!like`, `regexp` and `!regexp` call `preg_match`, which is a parameter of the model. Only the pattern text the plugin builds is modelled.
- `in`/`!in`: `checkLeadValueIsInFilter` belongs to the host trait, so it is a parameter.
- `valueToString` belongs to the field types, and `cleanAlias` to the host model; both are parameters.
- `findCustomFieldValueForFieldAlias`, `populateFromArray` and `populateCustomFields` become a map from field alias to value per item. The `NotFoundException` they throw becomes a missing key.
- `InvalidCustomObjectFormatListException` from `getCustomFieldValue` is not modelled. The model has no path that throws it.
- `TokenParser`, `TokenFormatter`, the event dispatcher and the list-format listeners are parameters. A listener's outcome is formatted, not formatted, or threw.
- `onListQuery` SQL assembly, `getArrayTableData` and every ORM, DBAL or repository call become parameters or inputs. This covers the dictionary query's rows and `findAll`.
- Php.IsNumericString: only integer numeric strings (whitespace, sign, digits, whitespace) are recognised. Float and exponent forms are not modelled.
- Php.Compare: because numeric strings are integer-only, a float-like string compares as text.
- Php.StringToInt / Php.ToInt: the `(int)` cast reads only the leading integer digits. PHP reads a string in float or exponent form as a float and truncates it (`(int)"1e3"` is 1000, `(int)"1.5e3"` is 1500); the model gives 1 for both. The model's result is also unbounded, where PHP limits it to 64 bits: out-of-range numeric strings go through a float conversion whose result depends on the PHP version. Both gaps would need IEEE doubles, which the model does not have.
- MatchFilterForLeadInCustomObject: a `number` filter is normalised with Php.ToInt, so it inherits both gaps of the cast. A filter value `"1e3"` does not equal a lead value of 1000 in the model, though it does in PHP. Two values beyond 64 bits stay distinct in the model, though PHP may make them equal.
- Integer values (`Int`) are unbounded; PHP's 64-bit integer width and its overflow to float are not modelled.
- Under `declare(strict_types=1)`, every string built-in that the matcher calls raises a TypeError for a non-string operand. These are `explode`, `strlen`, `strcmp`, `strncmp`, `substr`, `substr_count`, `str_replace` and `preg_match` (EventListener/TokenSubscriber.php:563-646). The model has no TypeError path for any of them. It coerces every such operand with the `(string)` cast, so where PHP throws, the model returns a result. Only `strpos` casts its operands itself (line 649).
- CustomFieldModel.EnsureUniqueAlias: the PHP loop has no bound. The method therefore takes a ghost counter at which `isAliasUnique` answers false, and it does not model a repository that always answers true (an endless loop).
- CustomFieldModel.SetAlias and CustomFieldModel.SetMetadata require the same kind of ghost counter.
- Timestamps are opaque values, and `setMetadata` receives the time as a parameter.
- Entity change tracking in the ORM is not modelled.
- `getPermissionBase` returns a constant string that only the host's generic permission code uses. It carries no rule.
- Paginator results are not modelled: `fetchEntities` returns a sequence of ids.
- Custom item names are string choice keys. PHP's conversion of numeric-string array keys to integers is not modelled.
- CustomItemListType.AnyChoiceOfLastObject: it requires that no item is named `Any`. An item named `Any` overwrites the entry, as CustomItemListType.LastWriteWins states.
- ReportSubscriber.Subscriber.OnReportBuilder: `checkContext`, `getStandardColumns` and `getCategoryColumns` are parameters of the event.
- Php.ArrayMerge: it models `array_merge` for string keys only. PHP appends integer-keyed entries under fresh keys instead of overwriting them. The column arrays merged here have string keys only.
- ReportSubscriber.OneTablePerObject: it requires distinct object ids. With a repeated id, the later object's table replaces the earlier one.
- TokenMatcher.MatchIsOrOfAnds: it requires that every applicable operator is known. The unknown-operator case is stated separately by TokenMatcher.UnknownOperatorReachedThrows and TokenMatcher.FalseGroupSkipsFilter.
- A custom-object filter whose contact list is empty leaves its group unchanged rather than false. Filters after the first in a group therefore do not falsify the group. This is the code as written, and TokenMatcher.ScanIsExistential states it.
- Controllers, configuration, DI wiring, form-builder glue, UI scripts and the other event subscribers contain no rule of the modelled core.
