/** The configuration manager: a configuration is a JSON object, merged key
    by key over the defaults, edited along dotted paths and checked by a few
    validation rules. File reading, environment variables, the Slack token
    check and directory creation are not part of this model. */
module Config {
  import opened Wrappers
  import opened Dicts

  /** A JSON value as `json.load` produces it; integers and floats are both
      numbers. */
  datatype Value =
    | Null
    | Bool(b: bool)
    | Number(n: real)
    | Text(s: string)
    | List(items: seq<Value>)
    | Object(entries: Dict<string, Value>)

  // ---------------------------------------------------------------------
  // merge_configs
  // ---------------------------------------------------------------------

  /** The value a key ends with when `value` overrides `current`: two
      objects merge recursively, anything else is replaced. */
  function MergedValue(current: Option<Value>, value: Value): Value
    decreases value, if value.Object? then |value.entries| + 1 else 0
  {
    if current.Some? && current.value.Object? && value.Object? then
      Object(MergeEntries(current.value.entries, value, |value.entries|))
    else value
  }

  /** The state of `result` after the loop has handled the first k entries
      of the override object o. */
  function MergeEntries(d: Dict<string, Value>, o: Value, k: nat): Dict<string, Value>
    requires o.Object? && k <= |o.entries|
    decreases o, k
  {
    if k == 0 then d
    else
      var result := MergeEntries(d, o, k - 1);
      var key := o.entries[k - 1].0;
      Put(result, key, MergedValue(Get(result, key), o.entries[k - 1].1))
  }

  /** `merge_configs(default, override)`; the default is copied, never
      changed. */
  function Merge(default: Dict<string, Value>, override: Dict<string, Value>): Dict<string, Value>
  {
    MergeEntries(default, Object(override), |override|)
  }

  /** The merge loop over any dict with any combining rule: each override
      entry in turn is stored under its key, combined with what `result`
      holds there. */
  function PutAll<K(==,!new), V>(d: Dict<K, V>, o: Dict<K, V>, f: (Option<V>, V) -> V): Dict<K, V>
    decreases |o|
  {
    if o == [] then d
    else
      var result := PutAll(d, o[..|o| - 1], f);
      var key := o[|o| - 1].0;
      Put(result, key, f(Get(result, key), o[|o| - 1].1))
  }

  lemma {:induction false} MergeEntriesIsPutAll(d: Dict<string, Value>, o: Value, k: nat)
    requires o.Object? && k <= |o.entries|
    ensures MergeEntries(d, o, k) == PutAll(d, o.entries[..k], MergedValue)
    decreases k
  {
    if k > 0 {
      var s := o.entries[..k];
      MergeEntriesIsPutAll(d, o, k - 1);
      assert s[..k - 1] == o.entries[..k - 1];
      assert s[k - 1] == o.entries[k - 1];
      var r := PutAll(d, s[..k - 1], MergedValue);
      assert r == MergeEntries(d, o, k - 1);
      var key, value := o.entries[k - 1].0, o.entries[k - 1].1;
      assert PutAll(d, s, MergedValue) == Put(r, key, MergedValue(Get(r, key), value));
    }
  }


  lemma MergeIsPutAll(default: Dict<string, Value>, override: Dict<string, Value>)
    ensures Merge(default, override) == PutAll(default, override, MergedValue)
  {
    MergeEntriesIsPutAll(default, Object(override), |override|);
    assert Object(override).entries[..|override|] == override;
  }

  /** One step of the merge loop: the keys stay, or the new key is
      appended. */
  lemma PutAllStep<K(!new), V>(d: Dict<K, V>, o: Dict<K, V>, f: (Option<V>, V) -> V)
    requires o != []
    ensures var r, key := PutAll(d, o[..|o| - 1], f), o[|o| - 1].0;
      Keys(PutAll(d, o, f)) == (if key in Keys(r) then Keys(r) else Keys(r) + [key]) &&
      (DistinctKeys(r) ==> DistinctKeys(PutAll(d, o, f)))
  {
    var r, last := PutAll(d, o[..|o| - 1], f), o[|o| - 1];
    assert PutAll(d, o, f) == Put(r, last.0, f(Get(r, last.0), last.1));
  }

  lemma {:induction false} PutAllKeyPrefix<K(!new), V>(d: Dict<K, V>, o: Dict<K, V>, f: (Option<V>, V) -> V)
    ensures |d| <= |PutAll(d, o, f)| && Keys(PutAll(d, o, f))[..|d|] == Keys(d)
    ensures DistinctKeys(d) ==> DistinctKeys(PutAll(d, o, f))
    decreases |o|
  {
    if o != [] {
      var r := PutAll(d, o[..|o| - 1], f);
      PutAllKeyPrefix(d, o[..|o| - 1], f);
      PutAllStep(d, o, f);
      assert |Keys(r)| == |r|;
      assert (Keys(r) + [o[|o| - 1].0])[..|d|] == Keys(r)[..|d|];
    }
  }

  lemma {:induction false} PutAllKeys<K(!new), V>(d: Dict<K, V>, o: Dict<K, V>, f: (Option<V>, V) -> V, key: K)
    ensures key in Keys(PutAll(d, o, f)) <==> key in Keys(d) || key in Keys(o)
    decreases |o|
  {
    if o != [] {
      var n := |o| - 1;
      var ks := Keys(PutAll(d, o[..n], f));
      PutAllKeys(d, o[..n], f, key);
      PutAllStep(d, o, f);
      assert Keys(PutAll(d, o, f)) == if o[n].0 in ks then ks else ks + [o[n].0];
      KeysLast(o);
    }
  }

  /** The merged keys are the default's, in their order, followed by the
      override's new keys; a dict stays a dict; merging nothing changes
      nothing. */
  lemma MergeKeys(default: Dict<string, Value>, override: Dict<string, Value>)
    ensures forall key :: key in Keys(Merge(default, override)) <==> key in Keys(default) || key in Keys(override)
    ensures |default| <= |Merge(default, override)| && Keys(Merge(default, override))[..|default|] == Keys(default)
    ensures DistinctKeys(default) ==> DistinctKeys(Merge(default, override))
    ensures override == [] ==> Merge(default, override) == default
  {
    MergeIsPutAll(default, override);
    forall key
      ensures key in Keys(Merge(default, override)) <==> key in Keys(default) || key in Keys(override)
    {
      PutAllKeys(default, override, MergedValue, key);
    }
    PutAllKeyPrefix(default, override, MergedValue);
  }

  /** A key the override lacks keeps the default's value. */
  lemma {:induction false} PutAllGetOther<K(!new), V>(d: Dict<K, V>, o: Dict<K, V>, f: (Option<V>, V) -> V, key: K)
    requires key !in Keys(o)
    ensures Get(PutAll(d, o, f), key) == Get(d, key)
    decreases |o|
  {
    if o != [] {
      var n := |o| - 1;
      assert Keys(o)[n] == o[n].0;
      assert Keys(o[..n]) == Keys(o)[..n];
      PutAllGetOther(d, o[..n], f, key);
    }
  }

  /** The key of the override's entry i ends with that entry combined with
      the default's value. */
  lemma {:induction false} PutAllGetAt<K(!new), V>(d: Dict<K, V>, o: Dict<K, V>, f: (Option<V>, V) -> V, i: nat)
    requires DistinctKeys(o) && i < |o|
    ensures Get(PutAll(d, o, f), o[i].0) == Some(f(Get(d, o[i].0), o[i].1))
    decreases |o|
  {
    var n := |o| - 1;
    var init := o[..n];
    LastKeyNew(o);
    if i == n {
      PutAllGetOther(d, init, f, o[n].0);
    } else {
      assert o[i].0 != o[n].0 by { assert Keys(o)[i] != Keys(o)[n]; }
      assert init[i] == o[i];
      PutAllGetAt(d, init, f, i);
    }
  }

  /** Per key: a key only the default has keeps its value; a key the
      override has takes the override's value, or, when both values are
      objects, their recursive merge. */
  lemma MergeValues(default: Dict<string, Value>, override: Dict<string, Value>)
    requires DistinctKeys(override)
    ensures forall key :: key !in Keys(override) ==> Get(Merge(default, override), key) == Get(default, key)
    ensures forall i :: 0 <= i < |override| ==>
      var current, value := Get(default, override[i].0), override[i].1;
      Get(Merge(default, override), override[i].0) ==
        Some(if current.Some? && current.value.Object? && value.Object?
             then Object(Merge(current.value.entries, value.entries))
             else value)
  {
    MergeIsPutAll(default, override);
    forall key | key !in Keys(override)
      ensures Get(Merge(default, override), key) == Get(default, key)
    {
      PutAllGetOther(default, override, MergedValue, key);
    }
    forall i | 0 <= i < |override|
      ensures var current, value := Get(default, override[i].0), override[i].1;
        Get(Merge(default, override), override[i].0) ==
          Some(if current.Some? && current.value.Object? && value.Object?
               then Object(Merge(current.value.entries, value.entries))
               else value)
    {
      PutAllGetAt(default, override, MergedValue, i);
      var value := override[i].1;
      if value.Object? {
        assert Object(value.entries) == value;
      }
    }
  }

  lemma {:induction false} PutAllIntoEmpty<K(!new), V>(o: Dict<K, V>, f: (Option<V>, V) -> V)
    requires DistinctKeys(o)
    requires forall v :: f(None, v) == v
    ensures PutAll([], o, f) == o
    decreases |o|
  {
    if o != [] {
      var init, last := o[..|o| - 1], o[|o| - 1];
      LastKeyNew(o);
      PutAllIntoEmpty(init, f);
      assert Get(init, last.0) == None;
      assert f(None, last.1) == last.1;
      assert PutAll([], o, f) == Put(init, last.0, last.1);
      PutNew(init, last.0, last.1);
      assert o == init + [last];
    }
  }

  /** Overriding an empty configuration gives the override itself. */
  lemma MergeIntoEmpty(override: Dict<string, Value>)
    requires DistinctKeys(override)
    ensures Merge([], override) == override
  {
    MergeIsPutAll([], override);
    PutAllIntoEmpty(override, MergedValue);
  }

  /** `d[k] = v` for a new key appends the entry. */
  lemma {:induction false} PutNew<K(!new), V>(d: Dict<K, V>, k: K, v: V)
    requires k !in Keys(d)
    ensures Put(d, k, v) == d + [(k, v)]
    decreases |d|
  {
    if d != [] {
      assert Keys(d) == [d[0].0] + Keys(d[1..]);
      assert d[0].0 != k;
      PutNew(d[1..], k, v);
      assert [d[0]] + (d[1..] + [(k, v)]) == d + [(k, v)];
    }
  }

  // ---------------------------------------------------------------------
  // set_nested_value
  // ---------------------------------------------------------------------

  /** The position of the first dot. */
  function FirstDot(s: string): (i: nat)
    requires '.' in s
    ensures i < |s| && s[i] == '.'
    ensures forall j :: 0 <= j < i ==> s[j] != '.'
  {
    if s[0] == '.' then 0 else FirstDot(s[1..]) + 1
  }

  /** `path.split('.')`: the text before the first dot, then the split of
      the rest. */
  function SplitDots(path: string): (parts: seq<string>)
    ensures |parts| >= 1
    ensures forall i :: 0 <= i < |parts| ==> '.' !in parts[i]
  {
    if '.' !in path then [path]
    else
      var i := FirstDot(path);
      [path[..i]] + SplitDots(path[i + 1..])
  }

  /** `'.'.join(parts)`. */
  function JoinDots(parts: seq<string>): string
    requires |parts| >= 1
  {
    if |parts| == 1 then parts[0] else parts[0] + "." + JoinDots(parts[1..])
  }

  /** Joining what a split produced gives the path back. */
  lemma {:induction false} JoinSplit(path: string)
    ensures JoinDots(SplitDots(path)) == path
    decreases |path|
  {
    if '.' in path {
      var i := FirstDot(path);
      var rest := SplitDots(path[i + 1..]);
      JoinSplit(path[i + 1..]);
      assert ([path[..i]] + rest)[1..] == rest;
      assert path == path[..i] + "." + path[i + 1..];
    }
  }

  /** A dot after a dot-free prefix is the first one. */
  lemma SplitAtDot(a: string, b: string)
    requires '.' !in a
    ensures SplitDots(a + "." + b) == [a] + SplitDots(b)
  {
    var s := a + "." + b;
    assert s[|a|] == '.';
    var i := FirstDot(s);
    assert forall j :: 0 <= j < |a| ==> s[j] == a[j];
    assert i == |a|;
    assert s[..i] == a && s[i + 1..] == b;
  }

  /** Splitting a join of dot-free parts gives the parts back. */
  lemma {:induction false} SplitJoin(parts: seq<string>)
    requires |parts| >= 1
    requires forall i :: 0 <= i < |parts| ==> '.' !in parts[i]
    ensures SplitDots(JoinDots(parts)) == parts
    decreases |parts|
  {
    if |parts| > 1 {
      SplitJoin(parts[1..]);
      SplitAtDot(parts[0], JoinDots(parts[1..]));
      assert parts == [parts[0]] + parts[1..];
    }
  }

  /** The TypeError that walking into a value which is not a dict raises. */
  datatype PathError = NotADict(key: string)

  /** `set_nested_value` on the configuration's value: every missing
      intermediate key becomes an empty dict, the last key takes the value,
      and an existing intermediate that is not a dict raises before anything
      was changed. */
  function SetNested(config: Dict<string, Value>, keys: seq<string>, value: Value): Result<Dict<string, Value>, PathError>
    requires |keys| >= 1
    decreases |keys|
  {
    if |keys| == 1 then Success(Put(config, keys[0], value))
    else
      var current := Get(config, keys[0]);
      if current.None? then
        var inner := SetNested([], keys[1..], value);
        if inner.Success? then Success(Put(config, keys[0], Object(inner.value))) else inner
      else if current.value.Object? then
        var inner := SetNested(current.value.entries, keys[1..], value);
        if inner.Success? then Success(Put(config, keys[0], Object(inner.value))) else inner
      else Failure(NotADict(keys[0]))
  }

  /** `config[k1][k2]...` along a path: None when a key is missing or a
      step meets a value that is not a dict. */
  function GetPath(config: Dict<string, Value>, keys: seq<string>): Option<Value>
    requires |keys| >= 1
    decreases |keys|
  {
    var current := Get(config, keys[0]);
    if |keys| == 1 || current.None? then current
    else if current.value.Object? then GetPath(current.value.entries, keys[1..])
    else None
  }

  /** Some proper prefix of the path leads to a value that is not a dict. */
  predicate Blocked(config: Dict<string, Value>, keys: seq<string>)
  {
    exists i :: 1 <= i < |keys| && GetPath(config, keys[..i]).Some? && !GetPath(config, keys[..i]).value.Object?
  }

  lemma GetPathStep(config: Dict<string, Value>, keys: seq<string>, i: nat)
    requires 2 <= i <= |keys|
    ensures var current := Get(config, keys[0]);
      GetPath(config, keys[..i]) ==
        if current.None? then None
        else if current.value.Object? then GetPath(current.value.entries, keys[1..][..i - 1])
        else None
  {
    assert keys[..i][1..] == keys[1..][..i - 1];
  }

  /** A path into an empty dict is never blocked. */
  lemma {:induction false} EmptyNotBlocked(keys: seq<string>)
    ensures !Blocked([], keys)
  {
    forall i | 1 <= i < |keys|
      ensures GetPath([], keys[..i]).None?
    {
    }
  }

  /** The walk raises exactly when a proper prefix of the path already
      holds something other than a dict. */
  lemma {:induction false} SetNestedFailsIffBlocked(config: Dict<string, Value>, keys: seq<string>, value: Value)
    requires |keys| >= 1
    ensures SetNested(config, keys, value).Failure? <==> Blocked(config, keys)
    decreases |keys|
  {
    if |keys| > 1 {
      var current := Get(config, keys[0]);
      assert GetPath(config, keys[..1]) == current by { assert keys[..1][0] == keys[0]; }
      if current.None? {
        assert SetNested([], keys[1..], value).Success? by {
          SetNestedFailsIffBlocked([], keys[1..], value);
          EmptyNotBlocked(keys[1..]);
        }
        forall i | 2 <= i < |keys| ensures GetPath(config, keys[..i]).None? {
          GetPathStep(config, keys, i);
        }
      } else if current.value.Object? {
        var es := current.value.entries;
        SetNestedFailsIffBlocked(es, keys[1..], value);
        if Blocked(es, keys[1..]) {
          var i :| 1 <= i < |keys| - 1 && GetPath(es, keys[1..][..i]).Some? && !GetPath(es, keys[1..][..i]).value.Object?;
          GetPathStep(config, keys, i + 1);
        }
        if Blocked(config, keys) {
          var i :| 1 <= i < |keys| && GetPath(config, keys[..i]).Some? && !GetPath(config, keys[..i]).value.Object?;
          GetPathStep(config, keys, i);
          assert Blocked(es, keys[1..]) by {
            assert 1 <= i - 1 < |keys[1..]|;
          }
        }
      }
    }
  }

  /** After a successful set, following the path yields the value, and every
      proper prefix of the path leads to a dict, a created one where the key
      was missing. */
  lemma {:induction false} SetNestedThenGet(config: Dict<string, Value>, keys: seq<string>, value: Value)
    requires |keys| >= 1
    requires SetNested(config, keys, value).Success?
    ensures GetPath(SetNested(config, keys, value).value, keys) == Some(value)
    ensures forall i :: 1 <= i < |keys| ==>
      GetPath(SetNested(config, keys, value).value, keys[..i]).Some? &&
      GetPath(SetNested(config, keys, value).value, keys[..i]).value.Object?
    decreases |keys|
  {
    var r := SetNested(config, keys, value).value;
    if |keys| > 1 {
      var current := Get(config, keys[0]);
      var below := if current.None? then [] else current.value.entries;
      SetNestedThenGet(below, keys[1..], value);
      var inner := SetNested(below, keys[1..], value).value;
      assert Get(r, keys[0]) == Some(Object(inner));
      forall i | 1 <= i < |keys|
        ensures GetPath(r, keys[..i]).Some? && GetPath(r, keys[..i]).value.Object?
      {
        if i == 1 {
          assert GetPath(r, keys[..1]) == Get(r, keys[0]) by { assert keys[..1][0] == keys[0]; }
        } else {
          GetPathStep(r, keys, i);
        }
      }
    }
  }

  /** A path that leaves the set path somewhere reads the same before and
      after a successful set. */
  lemma {:induction false} SetNestedOffPath(config: Dict<string, Value>, keys: seq<string>, value: Value, other: seq<string>)
    requires |keys| >= 1 && |other| >= 1
    requires SetNested(config, keys, value).Success?
    requires exists i :: 0 <= i < |other| && i < |keys| && other[i] != keys[i]
    ensures GetPath(SetNested(config, keys, value).value, other) == GetPath(config, other)
    decreases |keys|
  {
    var r := SetNested(config, keys, value).value;
    if other[0] != keys[0] {
      // Put leaves every other key alone.
    } else {
      assert |keys| > 1 && |other| > 1;
      var current := Get(config, keys[0]);
      var below := if current.None? then [] else current.value.entries;
      var i :| 0 <= i < |other| && i < |keys| && other[i] != keys[i];
      assert other[1..][i - 1] != keys[1..][i - 1];
      SetNestedOffPath(below, keys[1..], value, other[1..]);
      if current.None? {
        assert GetPath([], other[1..]).None?;
      }
    }
  }

  // ---------------------------------------------------------------------
  // validate_config and the defaults
  // ---------------------------------------------------------------------

  /** Why validation raised: one ValueError per rule, and the TypeError a
      comparison with a non-number raises. */
  datatype ConfigError =
    | NoMonitoredChannels
    | AnalysisDaysTooSmall
    | BurnoutThresholdOutOfRange
    | NegativeRateLimitDelay
    | NotComparable(key: string)

  /** Python truthiness: None, False, zero and empty containers are false. */
  predicate Truthy(v: Value)
  {
    match v
    case Null => false
    case Bool(b) => b
    case Number(n) => n != 0.0
    case Text(s) => s != ""
    case List(items) => items != []
    case Object(entries) => entries != []
  }

  /** A value as a number in a comparison: `bool` is an `int` subclass, and
      anything else makes the comparison raise. */
  function AsNumber(v: Value): Option<real>
  {
    match v
    case Bool(b) => Some(if b then 1.0 else 0.0)
    case Number(n) => Some(n)
    case _ => None
  }

  /** `config.get(key, 0)`. */
  function Setting(config: Dict<string, Value>, key: string): Value
  {
    Get(config, key).GetOr(Number(0.0))
  }

  predicate ChannelsGiven(config: Dict<string, Value>)
  {
    Truthy(Get(config, "monitored_channels").GetOr(Null))
  }

  predicate AtLeast(config: Dict<string, Value>, key: string, lo: real)
  {
    AsNumber(Setting(config, key)).Some? && AsNumber(Setting(config, key)).value >= lo
  }

  predicate Within(config: Dict<string, Value>, key: string, lo: real, hi: real)
  {
    AsNumber(Setting(config, key)).Some? && lo <= AsNumber(Setting(config, key)).value <= hi
  }

  /** Checks the four rules in order against a numeric setting. */
  function CheckNumber(config: Dict<string, Value>, key: string, ok: real -> bool, error: ConfigError): (r: Outcome<ConfigError>)
    ensures r.Pass? <==> AsNumber(Setting(config, key)).Some? && ok(AsNumber(Setting(config, key)).value)
    ensures r.Fail? ==> r.error == (if AsNumber(Setting(config, key)).None? then NotComparable(key) else error)
  {
    var n := AsNumber(Setting(config, key));
    if n.None? then Fail(NotComparable(key)) else if ok(n.value) then Pass else Fail(error)
  }

  /** The rule checks of `validate_config`, in order. */
  function Validate(config: Dict<string, Value>): (r: Outcome<ConfigError>)
    ensures r.Pass? <==>
      ChannelsGiven(config) && AtLeast(config, "analysis_days", 1.0) &&
      Within(config, "burnout_threshold", -1.0, 1.0) && AtLeast(config, "rate_limit_delay", 0.0)
    ensures r == Fail(NoMonitoredChannels) <==> !ChannelsGiven(config)
    ensures r == Fail(AnalysisDaysTooSmall) <==>
      ChannelsGiven(config) && AsNumber(Setting(config, "analysis_days")).Some? &&
      AsNumber(Setting(config, "analysis_days")).value < 1.0
  {
    if !ChannelsGiven(config) then Fail(NoMonitoredChannels)
    else
      var days := CheckNumber(config, "analysis_days", n => n >= 1.0, AnalysisDaysTooSmall);
      if days.Fail? then days
      else
        var threshold := CheckNumber(config, "burnout_threshold", n => -1.0 <= n <= 1.0, BurnoutThresholdOutOfRange);
        if threshold.Fail? then threshold
        else CheckNumber(config, "rate_limit_delay", n => n >= 0.0, NegativeRateLimitDelay)
  }

  /** Missing settings read as 0: a configuration without `analysis_days`
      is rejected, one without a threshold or a delay is not. */
  lemma MissingSettingsReadAsZero(config: Dict<string, Value>)
    requires ChannelsGiven(config)
    requires Get(config, "analysis_days").None?
    ensures Validate(config) == Fail(AnalysisDaysTooSmall)
  {
  }

  /** The configuration `load_config` starts from. */
  function DefaultConfig(): Dict<string, Value>
  {
    [("monitored_channels", List([Text("#general"), Text("#random"), Text("#techno-dome-program")])),
     ("analysis_days", Number(7.0)),
     ("burnout_threshold", Number(-0.3)),
     ("min_messages_per_day", Number(5.0)),
     ("sentiment_threshold", Object([("positive", Number(0.1)), ("negative", Number(-0.1))])),
     ("engagement_drop_threshold", Number(0.5)),
     ("consecutive_negative_days", Number(3.0)),
     ("rate_limit_delay", Number(1.0)),
     ("database", Object([("path", Text("./data/engagement.db")), ("retention_days", Number(30.0))])),
     ("reports", Object([("directory", Text("./reports")),
                         ("formats", List([Text("json"), Text("html")])),
                         ("auto_cleanup_days", Number(90.0))])),
     ("logging", Object([("level", Text("INFO")), ("file", Text("./logs/engagement.log"))]))]
  }

  /** The value under the first entry carrying key k. */
  lemma {:induction false} GetFirst<K, V>(d: Dict<K, V>, i: nat, k: K)
    requires i < |d| && d[i].0 == k
    requires forall j :: 0 <= j < i ==> d[j].0 != k
    ensures Get(d, k) == Some(d[i].1)
    decreases i
  {
    if i > 0 {
      GetFirst(d[1..], i - 1, k);
    }
  }

  /** The four settings the rules read, as the defaults give them. */
  lemma DefaultChannels()
    ensures Get(DefaultConfig(), "monitored_channels") == Some(DefaultConfig()[0].1)
  {
    GetFirst(DefaultConfig(), 0, "monitored_channels");
  }

  lemma DefaultAnalysisDays()
    ensures Get(DefaultConfig(), "analysis_days") == Some(Number(7.0))
  {
    GetFirst(DefaultConfig(), 1, "analysis_days");
  }

  lemma DefaultBurnoutThreshold()
    ensures Get(DefaultConfig(), "burnout_threshold") == Some(Number(-0.3))
  {
    GetFirst(DefaultConfig(), 2, "burnout_threshold");
  }

  lemma DefaultRateLimitDelay()
    ensures Get(DefaultConfig(), "rate_limit_delay") == Some(Number(1.0))
  {
    GetFirst(DefaultConfig(), 7, "rate_limit_delay");
  }

  /** Settings of these kinds pass every rule. */
  lemma PassesWith(config: Dict<string, Value>, channels: seq<Value>, days: real, threshold: real, delay: real)
    requires channels != [] && Get(config, "monitored_channels") == Some(List(channels))
    requires days >= 1.0 && Get(config, "analysis_days") == Some(Number(days))
    requires -1.0 <= threshold <= 1.0 && Get(config, "burnout_threshold") == Some(Number(threshold))
    requires delay >= 0.0 && Get(config, "rate_limit_delay") == Some(Number(delay))
    ensures Validate(config) == Pass
  {
  }

  /** The defaults pass every rule. */
  lemma DefaultConfigValid()
    ensures Validate(DefaultConfig()) == Pass
  {
    DefaultChannels();
    DefaultAnalysisDays();
    DefaultBurnoutThreshold();
    DefaultRateLimitDelay();
    PassesWith(DefaultConfig(), DefaultConfig()[0].1.items, 7.0, -0.3, 1.0);
  }

  /** `load_config` given the parsed file (None when there is no file, it
      does not parse, or it holds JSON that is not an object): the defaults,
      merged with the file, validated. */
  function LoadConfig(fileConfig: Option<Dict<string, Value>>): (r: Result<Dict<string, Value>, ConfigError>)
    ensures r.Success? ==> Validate(r.value).Pass?
    ensures fileConfig.None? ==> r == Success(DefaultConfig())
    ensures fileConfig.Some? ==>
      var merged := Merge(DefaultConfig(), fileConfig.value);
      (r.Success? <==> Validate(merged).Pass?) &&
      (r.Success? ==> r.value == merged) &&
      (r.Failure? ==> Validate(merged) == Fail(r.error))
  {
    var config := if fileConfig.Some? then Merge(DefaultConfig(), fileConfig.value) else DefaultConfig();
    DefaultConfigValid();
    var outcome := Validate(config);
    if outcome.Pass? then Success(config) else Failure(outcome.error)
  }

  /** A file holding an empty object loads the defaults unchanged. */
  lemma LoadWithEmptyFile()
    ensures LoadConfig(Some([])) == Success(DefaultConfig())
  {
    MergeKeys(DefaultConfig(), []);
    DefaultConfigValid();
  }

  /** The manager's state: the current configuration. */
  class ConfigManager {
    var config: Dict<string, Value>

    /** The constructor loads the configuration; in Python it raises when
        that fails, so a manager exists only for a loadable one. */
    constructor(fileConfig: Option<Dict<string, Value>>)
      requires LoadConfig(fileConfig).Success?
      ensures config == LoadConfig(fileConfig).value
      ensures Validate(config).Pass?
    {
      config := LoadConfig(fileConfig).value;
    }

    /** `update_config`: the merged configuration is stored before it is
        validated, so a rejected update stays in place. */
    method UpdateConfig(updates: Dict<string, Value>) returns (outcome: Outcome<ConfigError>)
      modifies this
      ensures config == Merge(old(config), updates)
      ensures outcome == Validate(config)
      ensures outcome.Pass? ==> AtLeast(config, "analysis_days", 1.0) && Within(config, "burnout_threshold", -1.0, 1.0)
    {
      config := Merge(config, updates);
      outcome := Validate(config);
    }

  }
}
