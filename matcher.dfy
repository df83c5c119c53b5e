/**
 * The dynamic-content filter matcher of the token subscriber
 * (`matchFilterForLeadInCustomObject`): segment-style filters are grouped by
 * their glue, each group is an AND of its filters, the groups are OR-ed, and a
 * custom-object filter holds when some item value of the contact satisfies it.
 */
module TokenMatcher {
  import opened Wrappers
  import opened Php

  /** One filter of a dynamic-content variant, as the email builder stores it. */
  datatype Filter = Filter(glue: string, field: string, obj: string, fieldType: string, operator: string, filter: Value)

  /** The contact record; a custom-object field holds the List of its items' values. */
  type Lead = map<string, Value>

  /** `OperatorsNotFoundException` */
  datatype MatchError = OperatorsNotFound

  /**
   * What the matcher borrows from outside: `preg_match($pattern, $subject) === 1`
   * and the host trait's `checkLeadValueIsInFilter($lead, $filter, $negate)`.
   */
  datatype Host = Host(pregMatch: (string, string) -> bool, leadValueIsInFilter: (Value, Value, bool) -> bool)

  /** `$lead['id']`, null when the key is missing. */
  function LeadId(lead: Lead): Value {
    if "id" in lead then lead["id"] else Null
  }

  // ---------------------------------------------------------------------------
  // One comparison

  /** `explode('|', $v)` as a list of strings. */
  function ExplodeToList(v: Value): (r: Value)
    ensures r.List? && |r.items| > 0
    ensures forall i :: 0 <= i < |r.items| ==> r.items[i].Str?
    ensures Implode("|", seq(|r.items|, i requires 0 <= i < |r.items| && r.items[i].Str? => r.items[i].s)) == ToStr(v)
  {
    var parts := Explode("|", ToStr(v));
    ImplodeExplode("|", ToStr(v));
    var items := seq(|parts|, i requires 0 <= i < |parts| => Str(parts[i]));
    assert seq(|items|, i requires 0 <= i < |items| && items[i].Str? => items[i].s) == parts;
    List(items)
  }

  /**
   * The per-type rewriting of one lead value and of the running filter value:
   * booleans are cast, a time filter with one ':' gains ':00' against a lead
   * value with two, select-like values are split on '|', numbers are cast to int.
   */
  function Normalize(fieldType: string, leadVal: Value, filterVal: Value): (Value, Value) {
    if fieldType == "boolean" then
      (if !leadVal.Null? then Bool(ToBool(leadVal)) else leadVal,
       if !filterVal.Null? then Bool(ToBool(filterVal)) else filterVal)
    else if fieldType == "datetime" || fieldType == "time" then
      if !leadVal.Null? && !filterVal.Null?
         && SubstrCount(ToStr(leadVal), ":") == 2 && SubstrCount(ToStr(filterVal), ":") == 1
      then (leadVal, Str(ToStr(filterVal) + ":00"))
      else (leadVal, filterVal)
    else if fieldType == "tags" || fieldType == "select" || fieldType == "multiselect" then
      (if !leadVal.List? && !IsEmpty(leadVal) then ExplodeToList(leadVal) else leadVal,
       if !filterVal.Null? && !filterVal.List? then ExplodeToList(filterVal) else filterVal)
    else if fieldType == "number" then
      (Int(ToInt(leadVal)), Int(ToInt(filterVal)))
    else (leadVal, filterVal)
  }

  /** The `like` pattern body: '.' and '*' escaped, '%' turned into '.*'. */
  function LikePattern(s: string): string {
    if |s| == 0 then ""
    else
      (if s[0] == '.' then "\\." else if s[0] == '*' then "\\*" else if s[0] == '%' then ".*" else [s[0]])
      + LikePattern(s[1..])
  }

  /** The operators the matcher has a case for. */
  datatype Operator =
    | Equal | NotEqual | Greater | GreaterOrEqual | Less | LessOrEqual | Empty | NotEmpty
    | Like | NotLike | In | NotIn | Regexp | NotRegexp | StartsWith | EndsWith | Contains

  /** The operator's name in a stored filter. */
  function OperatorName(op: Operator): string {
    match op
    case Equal => "="
    case NotEqual => "!="
    case Greater => "gt"
    case GreaterOrEqual => "gte"
    case Less => "lt"
    case LessOrEqual => "lte"
    case Empty => "empty"
    case NotEmpty => "!empty"
    case Like => "like"
    case NotLike => "!like"
    case In => "in"
    case NotIn => "!in"
    case Regexp => "regexp"
    case NotRegexp => "!regexp"
    case StartsWith => "startsWith"
    case EndsWith => "endsWith"
    case Contains => "contains"
  }

  /** The `switch` on the operator name: the case it selects, None for the default. */
  function OperatorNamed(name: string): (r: Option<Operator>)
    ensures r.Some? ==> OperatorName(r.value) == name
  {
    if name == "=" then Some(Equal)
    else if name == "!=" then Some(NotEqual)
    else if name == "gt" then Some(Greater)
    else if name == "gte" then Some(GreaterOrEqual)
    else if name == "lt" then Some(Less)
    else if name == "lte" then Some(LessOrEqual)
    else if name == "empty" then Some(Empty)
    else if name == "!empty" then Some(NotEmpty)
    else if name == "like" then Some(Like)
    else if name == "!like" then Some(NotLike)
    else if name == "in" then Some(In)
    else if name == "!in" then Some(NotIn)
    else if name == "regexp" then Some(Regexp)
    else if name == "!regexp" then Some(NotRegexp)
    else if name == "startsWith" then Some(StartsWith)
    else if name == "endsWith" then Some(EndsWith)
    else if name == "contains" then Some(Contains)
    else None
  }

  /** Every operator has a case of its own: its name selects it. */
  lemma OperatorNamedRoundTrip(op: Operator)
    ensures OperatorNamed(OperatorName(op)) == Some(op)
  {
    var r := OperatorNamed(OperatorName(op));
    assert r.Some?;
    assert OperatorName(r.value) == OperatorName(op);
  }

  predicate IsKnownOperator(name: string) {
    OperatorNamed(name).Some?
  }

  /** `'/' . $pattern . '/'` */
  function Delimited(pattern: string, flags: string): string {
    "/" + pattern + "/" + flags
  }

  /** One comparison of a (normalised) lead value with the (normalised) filter value. */
  function Test(op: Operator, fieldType: string, l: Value, f: Value, host: Host): bool {
    match op
    case Equal => if fieldType == "boolean" then l == f else LooseEquals(l, f)
    case NotEqual => if fieldType == "boolean" then l != f else !LooseEquals(l, f)
    case Greater => LooseLess(f, l)
    case GreaterOrEqual => LooseLessEq(f, l)
    case Less => LooseLess(l, f)
    case LessOrEqual => LooseLessEq(l, f)
    case Empty => IsEmpty(l)
    case NotEmpty => !IsEmpty(l)
    case Like => host.pregMatch(Delimited(LikePattern(ToStr(f)), ""), ToStr(l))
    case NotLike => !host.pregMatch(Delimited(LikePattern(ToStr(f)), ""), ToStr(l))
    case In => host.leadValueIsInFilter(l, f, false)
    case NotIn => host.leadValueIsInFilter(l, f, true)
    case Regexp => host.pregMatch(Delimited(ToStr(f), "i"), ToStr(l))
    case NotRegexp => !host.pregMatch(Delimited(ToStr(f), "i"), ToStr(l))
    case StartsWith => StrncmpEqual(ToStr(l), ToStr(f), |ToStr(f)|)
    case EndsWith => SubstrEndsWith(ToStr(l), ToStr(f))
    case Contains => StrPos(ToStr(l), ToStr(f)).Some?
  }

  /** The operator switch; a name it has no case for throws. */
  function ApplyOperator(name: string, fieldType: string, l: Value, f: Value, host: Host): Result<bool, MatchError> {
    match OperatorNamed(name)
    case None => Err(OperatorsNotFound)
    case Some(op) => Ok(Test(op, fieldType, l, f, host))
  }

  /** `startsWith`, `endsWith` and `contains` are the prefix, suffix and substring tests. */
  lemma StringOperatorsMeaning(fieldType: string, l: Value, f: Value, host: Host)
    ensures Test(StartsWith, fieldType, l, f, host)
            == (|ToStr(f)| <= |ToStr(l)| && ToStr(l)[..|ToStr(f)|] == ToStr(f))
    ensures Test(EndsWith, fieldType, l, f, host)
            == (|ToStr(f)| <= |ToStr(l)| && ToStr(l)[|ToStr(l)| - |ToStr(f)|..] == ToStr(f))
    ensures Test(Contains, fieldType, l, f, host) == exists k: nat :: OccursAt(ToStr(l), ToStr(f), k)
  {
    StartsWithTest(fieldType, l, f, host);
    EndsWithTest(fieldType, l, f, host);
    ContainsTest(fieldType, l, f, host);
  }

  lemma StartsWithTest(fieldType: string, l: Value, f: Value, host: Host)
    ensures Test(StartsWith, fieldType, l, f, host)
            == (|ToStr(f)| <= |ToStr(l)| && ToStr(l)[..|ToStr(f)|] == ToStr(f))
  {
    StartsWithCase(fieldType, l, f, host);
    StrncmpIsPrefix(ToStr(l), ToStr(f));
  }

  lemma EndsWithTest(fieldType: string, l: Value, f: Value, host: Host)
    ensures Test(EndsWith, fieldType, l, f, host)
            == (|ToStr(f)| <= |ToStr(l)| && ToStr(l)[|ToStr(l)| - |ToStr(f)|..] == ToStr(f))
  {
    EndsWithCase(fieldType, l, f, host);
    SubstrIsSuffix(ToStr(l), ToStr(f));
  }

  lemma ContainsTest(fieldType: string, l: Value, f: Value, host: Host)
    ensures Test(Contains, fieldType, l, f, host) == exists k: nat :: OccursAt(ToStr(l), ToStr(f), k)
  {
    ContainsCase(fieldType, l, f, host);
    StrPosFindsSubstring(ToStr(l), ToStr(f));
  }

  lemma StartsWithCase(fieldType: string, l: Value, f: Value, host: Host)
    ensures Test(StartsWith, fieldType, l, f, host) == StrncmpEqual(ToStr(l), ToStr(f), |ToStr(f)|)
  {
  }

  lemma EndsWithCase(fieldType: string, l: Value, f: Value, host: Host)
    ensures Test(EndsWith, fieldType, l, f, host) == SubstrEndsWith(ToStr(l), ToStr(f))
  {
  }

  lemma ContainsCase(fieldType: string, l: Value, f: Value, host: Host)
    ensures Test(Contains, fieldType, l, f, host) == StrPos(ToStr(l), ToStr(f)).Some?
  {
  }

  /** `gt` and `gte`, compiled by PHP as a swapped `<` and `<=`, are the mirror images of `lt` and `lte`. */
  lemma OrderOperatorsMirror(fieldType: string, l: Value, f: Value, host: Host)
    ensures Test(Greater, fieldType, l, f, host) == (Compare(l, f) == 1)
    ensures Test(GreaterOrEqual, fieldType, l, f, host) == (Compare(l, f) >= 0)
    ensures Test(Greater, fieldType, l, f, host) == Test(Less, fieldType, f, l, host)
  {
    CompareAntisymmetric(l, f);
  }

  /** Each negated operator answers the opposite of its positive one. */
  lemma NegatedOperatorsComplement(fieldType: string, l: Value, f: Value, host: Host)
    ensures Test(NotEqual, fieldType, l, f, host) == !Test(Equal, fieldType, l, f, host)
    ensures Test(NotEmpty, fieldType, l, f, host) == !Test(Empty, fieldType, l, f, host)
    ensures Test(NotLike, fieldType, l, f, host) == !Test(Like, fieldType, l, f, host)
    ensures Test(NotRegexp, fieldType, l, f, host) == !Test(Regexp, fieldType, l, f, host)
  {
    NotEqualTest(fieldType, l, f, host);
    NotEmptyTest(fieldType, l, f, host);
    NotLikeTest(fieldType, l, f, host);
    NotRegexpTest(fieldType, l, f, host);
  }

  lemma NotEqualTest(fieldType: string, l: Value, f: Value, host: Host)
    ensures Test(NotEqual, fieldType, l, f, host) == !Test(Equal, fieldType, l, f, host)
  {
  }

  lemma NotEmptyTest(fieldType: string, l: Value, f: Value, host: Host)
    ensures Test(NotEmpty, fieldType, l, f, host) == !Test(Empty, fieldType, l, f, host)
  {
  }

  lemma NotLikeTest(fieldType: string, l: Value, f: Value, host: Host)
    ensures Test(NotLike, fieldType, l, f, host) == !Test(Like, fieldType, l, f, host)
  {
  }

  lemma NotRegexpTest(fieldType: string, l: Value, f: Value, host: Host)
    ensures Test(NotRegexp, fieldType, l, f, host) == !Test(Regexp, fieldType, l, f, host)
  {
  }

  // ---------------------------------------------------------------------------
  // One filter: the scan over the lead's values

  /** The values one filter is tested against: the item list, or the single lead value. */
  function LeadValues(f: Filter, v: Value): Value {
    if f.obj == "custom_object" then v else List([v])
  }

  /**
   * The inner `foreach`: values are normalised and compared left to right,
   * the filter value carried from one to the next, stopping after the first
   * true; the result is the last comparison made (None when none was made).
   * The operator switch is reached at every value, so an operator without a
   * case (`op` None) throws at the first value compared.
   */
  function Scan(vals: seq<Value>, f: Filter, op: Option<Operator>, filterVal: Value, subgroup: Option<bool>, host: Host)
    : Result<Option<bool>, MatchError>
    decreases |vals|
  {
    if |vals| == 0 || subgroup == Some(true) then Ok(subgroup)
    else
      match op
      case None => Err(OperatorsNotFound)
      case Some(o) =>
        var p := Normalize(f.fieldType, vals[0], filterVal);
        Scan(vals[1..], f, op, p.1, Some(Test(o, f.fieldType, p.0, p.1, host)), host)
  }

  /** What testing filter f against the lead yields: None when it compared nothing. */
  function Outcome(f: Filter, lead: Lead, host: Host): Result<Option<bool>, MatchError> {
    if f.field !in lead then Ok(None)
    else
      var vs := LeadValues(f, lead[f.field]);
      if !vs.List? then Ok(None) else Scan(vs.items, f, OperatorNamed(f.operator), f.filter, None, host)
  }

  /** The (lead value, filter value) pairs the scan compares, once normalised. */
  function Pairs(vals: seq<Value>, fieldType: string, filterVal: Value): (ps: seq<(Value, Value)>)
    ensures |ps| == |vals|
  {
    if |vals| == 0 then []
    else
      var p := Normalize(fieldType, vals[0], filterVal);
      [p] + Pairs(vals[1..], fieldType, p.1)
  }

  predicate Holds(op: Operator, fieldType: string, p: (Value, Value), host: Host) {
    Test(op, fieldType, p.0, p.1, host)
  }

  /** Some pair satisfies the operator. */
  predicate SomeHolds(op: Operator, fieldType: string, ps: seq<(Value, Value)>, host: Host) {
    exists k :: 0 <= k < |ps| && Holds(op, fieldType, ps[k], host)
  }

  lemma SomeHoldsUnfold(op: Operator, fieldType: string, ps: seq<(Value, Value)>, host: Host)
    requires |ps| > 0
    ensures SomeHolds(op, fieldType, ps, host)
            == (Holds(op, fieldType, ps[0], host) || SomeHolds(op, fieldType, ps[1..], host))
  {
    if SomeHolds(op, fieldType, ps, host) && !Holds(op, fieldType, ps[0], host) {
      var k :| 0 <= k < |ps| && Holds(op, fieldType, ps[k], host);
      assert ps[1..][k - 1] == ps[k];
    }
    if SomeHolds(op, fieldType, ps[1..], host) {
      var k :| 0 <= k < |ps| - 1 && Holds(op, fieldType, ps[1..][k], host);
      assert ps[k + 1] == ps[1..][k];
    }
  }

  /**
   * With an operator that has a case the scan is existential: true exactly
   * when some value satisfies the operator, false when values were compared
   * and none did, and unchanged when there were no values.
   */
  lemma {:induction false} ScanIsExistential(vals: seq<Value>, f: Filter, op: Operator, filterVal: Value, subgroup: Option<bool>, host: Host)
    requires subgroup != Some(true)
    ensures Scan(vals, f, Some(op), filterVal, subgroup, host)
            == Ok(if |vals| == 0 then subgroup
                  else Some(SomeHolds(op, f.fieldType, Pairs(vals, f.fieldType, filterVal), host)))
    decreases |vals|
  {
    if |vals| > 0 {
      var p := Normalize(f.fieldType, vals[0], filterVal);
      var ps := Pairs(vals, f.fieldType, filterVal);
      PairsCons(vals, f.fieldType, filterVal);
      SomeHoldsUnfold(op, f.fieldType, ps, host);
      ScanCons(vals, f, op, filterVal, subgroup, host);
      if Holds(op, f.fieldType, p, host) {
        ScanStops(vals[1..], f, Some(op), p.1, host);
      } else {
        ScanIsExistential(vals[1..], f, op, p.1, Some(false), host);
      }
    }
  }

  lemma PairsCons(vals: seq<Value>, fieldType: string, filterVal: Value)
    requires |vals| > 0
    ensures var p := Normalize(fieldType, vals[0], filterVal);
      Pairs(vals, fieldType, filterVal)[0] == p
      && Pairs(vals, fieldType, filterVal)[1..] == Pairs(vals[1..], fieldType, p.1)
  {
  }

  /** One value compared by a scan with an operator that has a case. */
  lemma ScanCons(vals: seq<Value>, f: Filter, op: Operator, filterVal: Value, subgroup: Option<bool>, host: Host)
    requires |vals| > 0 && subgroup != Some(true)
    ensures var p := Normalize(f.fieldType, vals[0], filterVal);
      Scan(vals, f, Some(op), filterVal, subgroup, host)
      == Scan(vals[1..], f, Some(op), p.1, Some(Holds(op, f.fieldType, p, host)), host)
  {
  }

  /** A scan that has seen a true comparison stops. */
  lemma ScanStops(vals: seq<Value>, f: Filter, op: Option<Operator>, filterVal: Value, host: Host)
    ensures Scan(vals, f, op, filterVal, Some(true), host) == Ok(Some(true))
  {
  }

  /**
   * Outside date and time fields the filter value is normalised once: every
   * comparison of the scan sees the same filter value, whatever the lead values.
   */
  lemma {:induction false} FilterValueNormalisedOnce(vals: seq<Value>, fieldType: string, filterVal: Value)
    requires fieldType != "datetime" && fieldType != "time"
    ensures forall k :: 0 <= k < |vals| ==>
              Pairs(vals, fieldType, filterVal)[k].1 == Normalize(fieldType, Null, filterVal).1
    decreases |vals|
  {
    if |vals| > 0 {
      var fv := Normalize(fieldType, vals[0], filterVal).1;
      assert fv == Normalize(fieldType, Null, filterVal).1;
      assert Normalize(fieldType, Null, fv).1 == fv;
      FilterValueNormalisedOnce(vals[1..], fieldType, fv);
    }
  }

  // ---------------------------------------------------------------------------
  // All filters: groups by glue

  /**
   * One pass of the outer `foreach` over the group values so far: filters on
   * fields the lead lacks are skipped, the first filter and every `or` open a
   * new group (starting false), a group already false skips its remaining
   * filters, and otherwise the filter's outcome, when there is one, becomes
   * the group's value.
   */
  function Step(groups: seq<bool>, f: Filter, lead: Lead, host: Host): Result<seq<bool>, MatchError> {
    if f.field !in lead then Ok(groups)
    else if |groups| > 0 && f.glue != "or" && !groups[|groups| - 1] then Ok(groups)
    else
      var gs := if |groups| == 0 || f.glue == "or" then groups + [false] else groups;
      match Outcome(f, lead, host)
      case Err(e) => Err(e)
      case Ok(None) => Ok(gs)
      case Ok(Some(b)) => Ok(gs[|gs| - 1 := b])
  }

  function FoldFilters(filters: seq<Filter>, groups: seq<bool>, lead: Lead, host: Host): Result<seq<bool>, MatchError>
    decreases |filters|
  {
    if |filters| == 0 then Ok(groups)
    else
      match Step(groups, filters[0], lead, host)
      case Err(e) => Err(e)
      case Ok(gs) => FoldFilters(filters[1..], gs, lead, host)
  }

  /** The matcher's answer: false for a contact without id, else whether some group ended true. */
  function Match(filters: seq<Filter>, lead: Lead, host: Host): Result<bool, MatchError> {
    if IsEmpty(LeadId(lead)) then Ok(false)
    else
      match FoldFilters(filters, [], lead, host)
      case Err(e) => Err(e)
      case Ok(groups) => Ok(true in groups)
  }

  ghost predicate AllSet(groups: seq<Option<bool>>) {
    forall k :: 0 <= k < |groups| ==> groups[k].Some?
  }

  ghost function Values(groups: seq<Option<bool>>): (vs: seq<bool>)
    requires AllSet(groups)
    ensures |vs| == |groups|
    ensures forall k :: 0 <= k < |groups| ==> groups[k] == Some(vs[k])
  {
    seq(|groups|, k requires 0 <= k < |groups| => groups[k].value)
  }

  /**
   * The inner `foreach` over the lead's values: each value and the running
   * filter value are normalised and compared, until one comparison is true.
   */
  method ScanValues(vals: seq<Value>, data: Filter, host: Host) returns (r: Result<Option<bool>, MatchError>)
    ensures r == Scan(vals, data, OperatorNamed(data.operator), data.filter, None, host)
  {
    var filterVal := data.filter;
    var subgroup: Option<bool> := None;
    var i := 0;
    while i < |vals|
      invariant 0 <= i <= |vals|
      invariant Scan(vals, data, OperatorNamed(data.operator), data.filter, None, host)
                == Scan(vals[i..], data, OperatorNamed(data.operator), filterVal, subgroup, host)
    {
      if subgroup == Some(true) {
        break;
      }
      assert vals[i..][0] == vals[i] && vals[i..][1..] == vals[i + 1..];
      var normalized := Normalize(data.fieldType, vals[i], filterVal);
      var leadVal := normalized.0;
      filterVal := normalized.1;
      var outcome := ApplyOperator(data.operator, data.fieldType, leadVal, filterVal, host);
      if outcome.Err? {
        return Err(outcome.error);
      }
      subgroup := Some(outcome.value);
      i := i + 1;
    }
    return Ok(subgroup);
  }

  /**
   * The group a filter on a field the lead has works on: the first filter
   * and every `or` open one (null, then false), and a filter continuing a
   * false group is skipped.
   */
  method OpenGroup(groups: seq<Option<bool>>, groupNum: nat, glue: string)
    returns (gs: seq<Option<bool>>, newGroupNum: nat, skip: bool)
    requires groupNum == |groups| && AllSet(groups)
    ensures AllSet(gs) && newGroupNum == |gs| > 0
    ensures skip <==> |groups| > 0 && glue != "or" && !Values(groups)[|groups| - 1]
    ensures skip ==> gs == groups
    ensures !skip ==> Values(gs) == if |groups| == 0 || glue == "or" then Values(groups) + [false] else Values(groups)
  {
    newGroupNum := groupNum;
    gs := groups;
    skip := false;
    if groupNum == 0 || glue == "or" {
      newGroupNum := groupNum + 1;
      gs := gs + [None];
    }
    if gs[newGroupNum - 1] == Some(false) {
      skip := true;
      return;
    }
    if gs[newGroupNum - 1] == None {
      gs := gs[newGroupNum - 1 := Some(false)];
    }
  }

  /** The inner scan of one filter: over the item list, or over the single lead value. */
  method FilterOutcome(data: Filter, lead: Lead, host: Host) returns (r: Result<Option<bool>, MatchError>)
    requires data.field in lead
    ensures r == Outcome(data, lead, host)
  {
    var leadValues := lead[data.field];
    leadValues := if data.obj == "custom_object" then leadValues else List([leadValues]);
    r := Ok(None);
    if leadValues.List? {
      r := ScanValues(leadValues.items, data, host);
    }
  }

  /**
   * One pass of the outer `foreach` on `$groups` (with `$groupNum` its
   * length): a filter on a field the lead lacks is skipped, the first filter
   * and every `or` open a group, a false group skips the filter, and otherwise
   * the inner scan's outcome, when there is one, becomes the group's value.
   */
  method MatchOneFilter(groups: seq<Option<bool>>, groupNum: nat, data: Filter, lead: Lead, host: Host)
    returns (r: Result<seq<Option<bool>>, MatchError>, newGroupNum: nat)
    requires groupNum == |groups| && AllSet(groups)
    ensures r.Ok? ==> AllSet(r.value) && newGroupNum == |r.value|
    ensures Step(Values(groups), data, lead, host) == if r.Ok? then Ok(Values(r.value)) else Err(r.error)
  {
    if data.field !in lead {
      return Ok(groups), groupNum;
    }
    var gs, skip;
    gs, newGroupNum, skip := OpenGroup(groups, groupNum, data.glue);
    if skip {
      return Ok(gs), newGroupNum;
    }
    ghost var withGroup := Values(gs);
    var outcome := FilterOutcome(data, lead, host);
    if outcome.Err? {
      return Err(outcome.error), newGroupNum;
    }
    if outcome.value.Some? {
      gs := gs[newGroupNum - 1 := outcome.value];
      assert Values(gs) == withGroup[|withGroup| - 1 := outcome.value.value];
    }
    r := Ok(gs);
  }

  /**
   * `matchFilterForLeadInCustomObject`: `$groups` is the list of group values
   * (null while a group is being opened), `$groupNum` its length.
   */
  method MatchFilterForLeadInCustomObject(filter: seq<Filter>, lead: Lead, host: Host)
    returns (r: Result<bool, MatchError>)
    ensures r == Match(filter, lead, host)
    ensures IsEmpty(LeadId(lead)) ==> r == Ok(false)
  {
    if IsEmpty(LeadId(lead)) {
      return Ok(false);
    }
    var groups: seq<Option<bool>> := [];
    var groupNum := 0;
    var n := 0;
    while n < |filter|
      invariant 0 <= n <= |filter|
      invariant groupNum == |groups| && AllSet(groups)
      invariant FoldFilters(filter, [], lead, host) == FoldFilters(filter[n..], Values(groups), lead, host)
    {
      ghost var rest := filter[n..];
      assert rest[0] == filter[n] && rest[1..] == filter[n + 1..];
      var stepped;
      stepped, groupNum := MatchOneFilter(groups, groupNum, filter[n], lead, host);
      if stepped.Err? {
        return Err(stepped.error);
      }
      groups := stepped.value;
      n := n + 1;
    }
    assert filter[|filter|..] == [];
    r := Ok(Some(true) in groups);
    assert (Some(true) in groups) == (true in Values(groups));
  }

  // ---------------------------------------------------------------------------
  // The declarative reading: an OR of ANDs

  /** The filters whose field the lead has, in order. */
  function Applicable(filters: seq<Filter>, lead: Lead): (r: seq<Filter>)
    ensures forall f :: f in r <==> f in filters && f.field in lead
  {
    if |filters| == 0 then []
    else
      var init := Applicable(filters[..|filters| - 1], lead);
      var last := filters[|filters| - 1];
      if last.field in lead then init + [last] else init
  }

  /** The applicable filters keep the order they have among all filters. */
  lemma {:induction false} ApplicableKeepsOrder(filters: seq<Filter>, lead: Lead)
    ensures Subsequence(Applicable(filters, lead), filters)
  {
    if |filters| > 0 {
      var init := filters[..|filters| - 1];
      var last := filters[|filters| - 1];
      ApplicableKeepsOrder(init, lead);
      assert filters == init + [last];
      if last.field in lead {
        SubsequenceSnoc(Applicable(init, lead), init, last);
      } else {
        SubsequenceSnocRight(Applicable(init, lead), init, last);
      }
    }
  }

  /** The filters split into groups: the first filter and every `or` start one. */
  function Split(fs: seq<Filter>): (groups: seq<seq<Filter>>)
    ensures |groups| == 0 <==> |fs| == 0
  {
    if |fs| == 0 then []
    else
      var init := Split(fs[..|fs| - 1]);
      var last := fs[|fs| - 1];
      if |init| == 0 || last.glue == "or" then init + [[last]]
      else init[..|init| - 1] + [init[|init| - 1] + [last]]
  }

  function Concat(groups: seq<seq<Filter>>): seq<Filter> {
    if |groups| == 0 then [] else Concat(groups[..|groups| - 1]) + groups[|groups| - 1]
  }

  /** The groups, joined again, are the filters in their order. */
  lemma ConcatAppend(s: seq<seq<Filter>>, x: seq<Filter>)
    ensures Concat(s + [x]) == Concat(s) + x
  {
    assert (s + [x])[..|s|] == s;
  }

  lemma {:induction false} SplitConcat(fs: seq<Filter>)
    ensures Concat(Split(fs)) == fs
  {
    if |fs| > 0 {
      var init := fs[..|fs| - 1];
      var last := fs[|fs| - 1];
      assert init + [last] == fs;
      SplitConcat(init);
      SplitSnoc(init, last);
      var s := Split(init);
      if |s| == 0 || last.glue == "or" {
        ConcatAppend(s, [last]);
      } else {
        var t := s[..|s| - 1];
        var x := s[|s| - 1];
        assert s == t + [x];
        ConcatAppend(t, x);
        ConcatAppend(t, x + [last]);
        SeqAssoc(Concat(t), x, [last]);
      }
    }
  }

  /** No group is empty, and a group starts at the first filter or at a filter with glue `or`. */
  lemma {:induction false} SplitGroupHeads(fs: seq<Filter>)
    ensures forall k :: 0 <= k < |Split(fs)| ==> |Split(fs)[k]| > 0
    ensures |fs| > 0 ==> Split(fs)[0][0] == fs[0]
    ensures forall k :: 0 < k < |Split(fs)| ==> Split(fs)[k][0].glue == "or"
  {
    if |fs| > 0 {
      var init := fs[..|fs| - 1];
      SplitGroupHeads(init);
      if |init| > 0 {
        assert init[0] == fs[0];
      }
    }
  }

  /** Inside a group no filter but the first has glue `or`. */
  lemma {:induction false} SplitGroupTails(fs: seq<Filter>)
    ensures forall k, j :: 0 <= k < |Split(fs)| && 0 < j < |Split(fs)[k]| ==> Split(fs)[k][j].glue != "or"
  {
    if |fs| > 0 {
      SplitGroupTails(fs[..|fs| - 1]);
    }
  }

  /** A group holds when its first filter held and no later one failed. */
  predicate GroupTrue(g: seq<Filter>, lead: Lead, host: Host) {
    |g| > 0 && Outcome(g[0], lead, host) == Ok(Some(true))
    && forall j :: 1 <= j < |g| ==> Outcome(g[j], lead, host) != Ok(Some(false))
  }

  function GroupValues(groups: seq<seq<Filter>>, lead: Lead, host: Host): (vs: seq<bool>)
    ensures |vs| == |groups|
  {
    seq(|groups|, k requires 0 <= k < |groups| => GroupTrue(groups[k], lead, host))
  }

  lemma {:induction false} ScanKnownNeverFails(vals: seq<Value>, f: Filter, op: Operator, filterVal: Value, subgroup: Option<bool>, host: Host)
    ensures Scan(vals, f, Some(op), filterVal, subgroup, host).Ok?
    decreases |vals|
  {
    if |vals| > 0 && subgroup != Some(true) {
      var p := Normalize(f.fieldType, vals[0], filterVal);
      ScanKnownNeverFails(vals[1..], f, op, p.1, Some(Test(op, f.fieldType, p.0, p.1, host)), host);
    }
  }

  lemma {:induction false} FoldConcat(a: seq<Filter>, b: seq<Filter>, groups: seq<bool>, lead: Lead, host: Host)
    ensures FoldFilters(a + b, groups, lead, host)
            == match FoldFilters(a, groups, lead, host)
               case Err(e) => Err(e)
               case Ok(gs) => FoldFilters(b, gs, lead, host)
    decreases |a|
  {
    if |a| == 0 {
      assert a + b == b;
    } else {
      assert (a + b)[0] == a[0] && (a + b)[1..] == a[1..] + b;
      match Step(groups, a[0], lead, host)
      case Err(_) =>
      case Ok(gs) => FoldConcat(a[1..], b, gs, lead, host);
    }
  }

  /** Adding one applicable filter extends the group values as the grouping says. */
  lemma GroupTrueExtended(g: seq<Filter>, f: Filter, lead: Lead, host: Host)
    requires |g| > 0
    ensures GroupTrue(g + [f], lead, host)
            == (GroupTrue(g, lead, host) && Outcome(f, lead, host) != Ok(Some(false)))
  {
    var h := g + [f];
    assert h[0] == g[0] && h[|g|] == f;
    assert forall j :: 1 <= j < |g| ==> h[j] == g[j];
  }

  lemma GroupValuesAppended(s: seq<seq<Filter>>, x: seq<Filter>, lead: Lead, host: Host)
    ensures GroupValues(s + [x], lead, host) == GroupValues(s, lead, host) + [GroupTrue(x, lead, host)]
  {
    assert forall k :: 0 <= k < |s| ==> (s + [x])[k] == s[k];
  }

  lemma GroupValuesLastReplaced(s: seq<seq<Filter>>, x: seq<Filter>, lead: Lead, host: Host)
    requires |s| > 0
    ensures GroupValues(s[..|s| - 1] + [x], lead, host)
            == GroupValues(s, lead, host)[|s| - 1 := GroupTrue(x, lead, host)]
  {
    assert forall k :: 0 <= k < |s| - 1 ==> (s[..|s| - 1] + [x])[k] == s[k];
  }

  /** The group values after one applicable filter whose outcome is known. */
  function GroupStep(groups: seq<bool>, glue: string, outcome: Option<bool>): seq<bool> {
    if |groups| > 0 && glue != "or" && !groups[|groups| - 1] then groups
    else
      var gs := if |groups| == 0 || glue == "or" then groups + [false] else groups;
      match outcome
      case None => gs
      case Some(b) => gs[|gs| - 1 := b]
  }

  lemma StepKnownOutcome(groups: seq<bool>, f: Filter, lead: Lead, host: Host)
    requires f.field in lead && IsKnownOperator(f.operator)
    ensures Outcome(f, lead, host).Ok?
    ensures Step(groups, f, lead, host) == Ok(GroupStep(groups, f.glue, Outcome(f, lead, host).value))
  {
    var vs := LeadValues(f, lead[f.field]);
    if vs.List? {
      ScanKnownNeverFails(vs.items, f, OperatorNamed(f.operator).value, f.filter, None, host);
    }
  }

  /** Adding one applicable filter extends the group values as the grouping says. */
  lemma StepFollowsSplit(fs: seq<Filter>, f: Filter, lead: Lead, host: Host)
    requires f.field in lead && IsKnownOperator(f.operator)
    ensures Step(GroupValues(Split(fs), lead, host), f, lead, host)
            == Ok(GroupValues(Split(fs + [f]), lead, host))
  {
    StepKnownOutcome(GroupValues(Split(fs), lead, host), f, lead, host);
    if |Split(fs)| == 0 || f.glue == "or" {
      OpenGroupFollowsSplit(fs, f, lead, host);
    } else {
      ExtendGroupFollowsSplit(fs, f, lead, host);
    }
  }

  /** One more filter either opens a group or joins the last one, which is never empty. */
  lemma SplitSnoc(fs: seq<Filter>, f: Filter)
    ensures |Split(fs)| == 0 || f.glue == "or" ==> Split(fs + [f]) == Split(fs) + [[f]]
    ensures |Split(fs)| > 0 && f.glue != "or" ==>
              |Split(fs)[|Split(fs)| - 1]| > 0
              && Split(fs + [f]) == Split(fs)[..|Split(fs)| - 1] + [Split(fs)[|Split(fs)| - 1] + [f]]
  {
    assert (fs + [f])[..|fs + [f]| - 1] == fs;
    if |fs| > 0 {
      var init := Split(fs[..|fs| - 1]);
      var last := fs[|fs| - 1];
      if |init| == 0 || last.glue == "or" {
        assert Split(fs)[|Split(fs)| - 1] == [last];
      } else {
        assert Split(fs)[|Split(fs)| - 1] == init[|init| - 1] + [last];
      }
    }
  }

  /** A filter opening a group makes it true exactly when its outcome is true. */
  lemma GroupStepOpens(groups: seq<bool>, glue: string, outcome: Option<bool>)
    requires |groups| == 0 || glue == "or"
    ensures GroupStep(groups, glue, outcome) == groups + [outcome == Some(true)]
  {
    match outcome
    case None =>
    case Some(b) => assert (groups + [false])[|groups| := b] == groups + [b];
  }

  /** A filter joining the last group keeps it true unless its outcome is false. */
  lemma GroupStepJoins(groups: seq<bool>, glue: string, outcome: Option<bool>)
    requires |groups| > 0 && glue != "or"
    ensures GroupStep(groups, glue, outcome)
            == groups[|groups| - 1 := groups[|groups| - 1] && outcome != Some(false)]
  {
    var k := |groups| - 1;
    if groups[k] {
      match outcome
      case None => assert groups[k := true] == groups;
      case Some(b) =>
    } else {
      assert groups[k := false] == groups;
    }
  }

  lemma OpenGroupFollowsSplit(fs: seq<Filter>, f: Filter, lead: Lead, host: Host)
    requires Outcome(f, lead, host).Ok?
    requires |Split(fs)| == 0 || f.glue == "or"
    ensures GroupStep(GroupValues(Split(fs), lead, host), f.glue, Outcome(f, lead, host).value)
            == GroupValues(Split(fs + [f]), lead, host)
  {
    var s := Split(fs);
    SplitSnoc(fs, f);
    GroupValuesAppended(s, [f], lead, host);
    GroupStepOpens(GroupValues(s, lead, host), f.glue, Outcome(f, lead, host).value);
    assert GroupTrue([f], lead, host) == (Outcome(f, lead, host).value == Some(true));
  }

  lemma ExtendGroupFollowsSplit(fs: seq<Filter>, f: Filter, lead: Lead, host: Host)
    requires Outcome(f, lead, host).Ok?
    requires |Split(fs)| > 0 && f.glue != "or"
    ensures GroupStep(GroupValues(Split(fs), lead, host), f.glue, Outcome(f, lead, host).value)
            == GroupValues(Split(fs + [f]), lead, host)
  {
    var s := Split(fs);
    var k := |s| - 1;
    SplitSnoc(fs, f);
    GroupValuesLastReplaced(s, s[k] + [f], lead, host);
    GroupTrueExtended(s[k], f, lead, host);
    GroupStepJoins(GroupValues(s, lead, host), f.glue, Outcome(f, lead, host).value);
  }

  /** Folding a prefix of the filters yields the truth value of each group of its applicable filters. */
  lemma {:induction false} FoldIsGroupValues(filters: seq<Filter>, lead: Lead, host: Host)
    requires forall f :: f in filters && f.field in lead ==> IsKnownOperator(f.operator)
    ensures FoldFilters(filters, [], lead, host) == Ok(GroupValues(Split(Applicable(filters, lead)), lead, host))
    decreases |filters|
  {
    if |filters| > 0 {
      var init := filters[..|filters| - 1];
      var f := filters[|filters| - 1];
      assert filters == init + [f];
      KnownOperatorsSplit(init, f, lead);
      FoldIsGroupValues(init, lead, host);
      FoldSnocFollowsSplit(init, f, lead, host);
    }
  }

  lemma KnownOperatorsSplit(init: seq<Filter>, f: Filter, lead: Lead)
    requires forall g :: g in init + [f] && g.field in lead ==> IsKnownOperator(g.operator)
    ensures forall g :: g in init && g.field in lead ==> IsKnownOperator(g.operator)
    ensures f.field in lead ==> IsKnownOperator(f.operator)
  {
    assert f in init + [f];
    assert forall g :: g in init ==> g in init + [f];
  }

  /** One more filter keeps the fold equal to the group values of the applicable filters. */
  lemma FoldSnocFollowsSplit(init: seq<Filter>, f: Filter, lead: Lead, host: Host)
    requires FoldFilters(init, [], lead, host) == Ok(GroupValues(Split(Applicable(init, lead)), lead, host))
    requires f.field in lead ==> IsKnownOperator(f.operator)
    ensures FoldFilters(init + [f], [], lead, host) == Ok(GroupValues(Split(Applicable(init + [f], lead)), lead, host))
  {
    FoldConcat(init, [f], [], lead, host);
    FoldOne(f, GroupValues(Split(Applicable(init, lead)), lead, host), lead, host);
    ApplicableSnoc(init, f, lead);
    if f.field in lead {
      StepFollowsSplit(Applicable(init, lead), f, lead, host);
    }
  }

  lemma ApplicableSnoc(init: seq<Filter>, f: Filter, lead: Lead)
    ensures Applicable(init + [f], lead) == if f.field in lead then Applicable(init, lead) + [f] else Applicable(init, lead)
  {
    assert (init + [f])[..|init|] == init;
  }

  lemma FoldOne(f: Filter, groups: seq<bool>, lead: Lead, host: Host)
    ensures FoldFilters([f], groups, lead, host) == Step(groups, f, lead, host)
    ensures f.field !in lead ==> Step(groups, f, lead, host) == Ok(groups)
  {
    assert [f][1..] == [];
  }

  /**
   * With only known operators among the applicable filters, the matcher
   * answers true exactly when the contact has an id and some group of the
   * applicable filters holds.
   */
  lemma MatchIsOrOfAnds(filters: seq<Filter>, lead: Lead, host: Host)
    requires forall f :: f in filters && f.field in lead ==> IsKnownOperator(f.operator)
    ensures Match(filters, lead, host)
            == Ok(!IsEmpty(LeadId(lead))
                  && exists g :: g in Split(Applicable(filters, lead)) && GroupTrue(g, lead, host))
  {
    FoldIsGroupValues(filters, lead, host);
    SomeGroupTrue(Split(Applicable(filters, lead)), lead, host);
  }

  /** Some group value is true exactly when some group holds. */
  lemma SomeGroupTrue(s: seq<seq<Filter>>, lead: Lead, host: Host)
    ensures (true in GroupValues(s, lead, host)) == exists g :: g in s && GroupTrue(g, lead, host)
  {
    var vs := GroupValues(s, lead, host);
    if true in vs {
      var k :| 0 <= k < |vs| && vs[k];
      assert s[k] in s && GroupTrue(s[k], lead, host);
    }
    if exists g :: g in s && GroupTrue(g, lead, host) {
      var g :| g in s && GroupTrue(g, lead, host);
      var k :| 0 <= k < |s| && s[k] == g;
      assert vs[k];
    }
  }

  /** Filters on fields the contact lacks never make it match. */
  lemma NoApplicableFilterIsFalse(filters: seq<Filter>, lead: Lead, host: Host)
    requires forall f :: f in filters ==> f.field !in lead
    ensures Match(filters, lead, host) == Ok(false)
  {
    MatchIsOrOfAnds(filters, lead, host);
    if |Applicable(filters, lead)| > 0 {
      assert Applicable(filters, lead)[0] in filters;
    }
  }

  /**
   * Once a group is false its remaining filters are not evaluated: a filter
   * continuing it can be dropped, whatever its operator, so an unknown
   * operator there does not throw.
   */
  lemma FalseGroupSkipsFilter(prefix: seq<Filter>, f: Filter, suffix: seq<Filter>, groups: seq<bool>, lead: Lead, host: Host)
    requires FoldFilters(prefix, [], lead, host) == Ok(groups)
    requires |groups| > 0 && !groups[|groups| - 1] && f.glue != "or"
    ensures Match(prefix + [f] + suffix, lead, host) == Match(prefix + suffix, lead, host)
  {
    FoldConcat(prefix, [f] + suffix, [], lead, host);
    FoldConcat(prefix, suffix, [], lead, host);
    assert prefix + [f] + suffix == prefix + ([f] + suffix);
    assert ([f] + suffix)[1..] == suffix;
  }

  /** An unknown operator that is reached, with values to compare, throws. */
  lemma UnknownOperatorReachedThrows(prefix: seq<Filter>, f: Filter, suffix: seq<Filter>, groups: seq<bool>, lead: Lead, host: Host)
    requires !IsEmpty(LeadId(lead))
    requires FoldFilters(prefix, [], lead, host) == Ok(groups)
    requires |groups| == 0 || f.glue == "or" || groups[|groups| - 1]
    requires f.field in lead && !IsKnownOperator(f.operator)
    requires LeadValues(f, lead[f.field]).List? && |LeadValues(f, lead[f.field]).items| > 0
    ensures Match(prefix + [f] + suffix, lead, host) == Err(OperatorsNotFound)
  {
    FoldConcat(prefix, [f] + suffix, [], lead, host);
    assert prefix + [f] + suffix == prefix + ([f] + suffix);
    assert ([f] + suffix)[0] == f;
  }

  // ---------------------------------------------------------------------------
  // The functional test's contact

  /** A contact linked to three items whose text field holds Tata, Toyota and Honda. */
  const ExampleLead: Lead :=
    map["id" := Int(1), "email" := Str("nexon@acquia.com"), "cmf_2" := List([Str("Tata"), Str("Toyota"), Str("Honda")])]

  /** One custom-object text filter followed by the test's `email !empty` filter, both glued with `and`. */
  function ExampleFilters(operator: string, filter: Value): seq<Filter> {
    [Filter("and", "cmf_2", "custom_object", "text", operator, filter),
     Filter("and", "email", "lead", "email", "!empty", Null)]
  }

  /** The second filter, `email !empty`, holds for the contact. */
  lemma ExampleEmailFilterHolds(host: Host)
    ensures Outcome(ExampleFilters("", Null)[1], ExampleLead, host) == Ok(Some(true))
  {
    var f := ExampleFilters("", Null)[1];
    var email := Str("nexon@acquia.com");
    assert f.field in ExampleLead && ExampleLead[f.field] == email;
    assert LeadValues(f, email) == List([email]);
    assert OperatorNamed("!empty") == Some(NotEmpty);
    assert Normalize("email", email, Null) == (email, Null);
    assert Test(NotEmpty, "email", email, Null, host);
    assert Scan([email], f, Some(NotEmpty), Null, None, host) == Scan([], f, Some(NotEmpty), Null, Some(true), host);
  }

  /** Two filters fold as two steps from no groups. */
  lemma FoldPair(f0: Filter, f1: Filter, lead: Lead, host: Host)
    ensures Step([], f0, lead, host).Err? ==> FoldFilters([f0, f1], [], lead, host) == Step([], f0, lead, host)
    ensures Step([], f0, lead, host).Ok? ==>
              FoldFilters([f0, f1], [], lead, host) == Step(Step([], f0, lead, host).value, f1, lead, host)
  {
    assert [f0, f1][1..] == [f1];
    if Step([], f0, lead, host).Ok? {
      FoldOne(f1, Step([], f0, lead, host).value, lead, host);
    }
  }

  /** The contact matches exactly when the first filter compared a value and held. */
  lemma ExampleMatchesIffFirstHolds(operator: string, filter: Value, host: Host, b: bool)
    requires Outcome(ExampleFilters(operator, filter)[0], ExampleLead, host) == Ok(Some(b))
    ensures Match(ExampleFilters(operator, filter), ExampleLead, host) == Ok(b)
  {
    var fs := ExampleFilters(operator, filter);
    assert fs == [fs[0], fs[1]];
    assert fs[0].field in ExampleLead && fs[1].field in ExampleLead;
    ExampleEmailFilterHolds(host);
    assert fs[1] == ExampleFilters("", Null)[1];
    assert !IsEmpty(LeadId(ExampleLead));
    AndOfTwo(fs[0], fs[1], ExampleLead, host, b);
  }

  /** Two applicable filters glued with `and`, the second true: the match is the first's outcome. */
  lemma AndOfTwo(f0: Filter, f1: Filter, lead: Lead, host: Host, b: bool)
    requires f0.field in lead && f1.field in lead && f1.glue != "or" && !IsEmpty(LeadId(lead))
    requires Outcome(f0, lead, host) == Ok(Some(b)) && Outcome(f1, lead, host) == Ok(Some(true))
    ensures Match([f0, f1], lead, host) == Ok(b)
  {
    FoldPair(f0, f1, lead, host);
    FirstFilterOpens(f0, lead, host, b);
    if b {
      TrueFilterKeeps(f1, lead, host);
    } else {
      FalseGroupSkips(f1, lead, host);
    }
  }

  lemma FirstFilterOpens(f: Filter, lead: Lead, host: Host, b: bool)
    requires f.field in lead && Outcome(f, lead, host) == Ok(Some(b))
    ensures Step([], f, lead, host) == Ok([b])
  {
    var none: seq<bool> := [];
    assert (none + [false])[0 := b] == [b];
  }

  lemma TrueFilterKeeps(f: Filter, lead: Lead, host: Host)
    requires f.field in lead && f.glue != "or" && Outcome(f, lead, host) == Ok(Some(true))
    ensures Step([true], f, lead, host) == Ok([true])
  {
    assert [true][0 := true] == [true];
  }

  lemma FalseGroupSkips(f: Filter, lead: Lead, host: Host)
    requires f.glue != "or"
    ensures Step([false], f, lead, host) == Ok([false])
  {
  }

  lemma TataIsNotToyota(host: Host)
    ensures Test(NotEqual, "text", Str("Tata"), Str("Toyota"), host)
  {
    assert SkipWhitespace("Tata") == "Tata";
    assert DigitPrefixLength("Tata") == 0;
    assert !IsNumericString("Tata");
    assert "Tata"[1] != "Toyota"[1];
    OtherTextNotEqual("text", "Tata", "Toyota", host);
  }

  /** Outside boolean fields, a non-numeric string is `!=` every other string. */
  lemma OtherTextNotEqual(fieldType: string, s: string, t: string, host: Host)
    requires fieldType != "boolean" && !IsNumericString(s) && s != t
    ensures Test(NotEqual, fieldType, Str(s), Str(t), host)
  {
    CompareStrings(s, t);
  }

  /** `!= Toyota` holds through the item holding Tata. */
  lemma ExampleNotEqualMatches(host: Host)
    ensures Match(ExampleFilters("!=", Str("Toyota")), ExampleLead, host) == Ok(true)
  {
    var f := ExampleFilters("!=", Str("Toyota"))[0];
    var vals := [Str("Tata"), Str("Toyota"), Str("Honda")];
    assert f.field in ExampleLead && ExampleLead[f.field] == List(vals);
    assert OperatorNamed("!=") == Some(NotEqual);
    assert Normalize("text", Str("Tata"), Str("Toyota")) == (Str("Tata"), Str("Toyota"));
    TataIsNotToyota(host);
    assert Scan(vals, f, Some(NotEqual), Str("Toyota"), None, host)
        == Scan(vals[1..], f, Some(NotEqual), Str("Toyota"), Some(true), host);
    ExampleMatchesIffFirstHolds("!=", Str("Toyota"), host, true);
  }

  /** `empty` holds for no item, so the contact gets the default content. */
  lemma ExampleEmptyDoesNotMatch(host: Host)
    ensures Match(ExampleFilters("empty", Str("")), ExampleLead, host) == Ok(false)
  {
    var f := ExampleFilters("empty", Str(""))[0];
    var vals := [Str("Tata"), Str("Toyota"), Str("Honda")];
    assert f.field in ExampleLead && ExampleLead[f.field] == List(vals);
    assert OperatorNamed("empty") == Some(Empty);
    forall v | v in vals
      ensures Normalize("text", v, Str("")) == (v, Str("")) && !Test(Empty, "text", v, Str(""), host)
    {
    }
    assert vals[1..][1..][1..] == [];
    assert Scan(vals, f, Some(Empty), Str(""), None, host) == Ok(Some(false));
    ExampleMatchesIffFirstHolds("empty", Str(""), host, false);
  }
}
