/**
 * The application configuration: the sampling parameters handed to the
 * language model (`LLMParameters`), the settings object the command line
 * builds (`Config`), and the merge of a decoded configuration file into it.
 */
module Configuration {
  import opened Common
  import opened Strings
  import opened Numerals
  import opened Json

  const MinContextLength := 2048
  const MinTokenLimit := 1024

  /** What a configuration step raises: `ConfigError`, or a failing `int()`/`float()`. */
  datatype Failure = ConfigError(message: string) | Coercion(error: PyError)

  // ---------------------------------------------------------------------
  // Sampling parameters
  // ---------------------------------------------------------------------

  /** The eight user-visible fields of `LLMParameters`. */
  datatype Params = Params(
    temperature: Decimal,
    topP: Decimal,
    presencePenalty: Decimal,
    frequencyPenalty: Decimal,
    seed: Option<int>,
    numPredict: Option<int>,
    numCtx: Option<int>,
    stop: seq<string>)

  const DefaultParams := Params(Decimal(7, -1), Decimal(1, 0), Decimal(5, -2), Decimal(5, -2),
                                Some(42), Some(900), None, [])

  const FieldNames: seq<string> :=
    ["temperature", "top_p", PresencePenaltyKey, FrequencyPenaltyKey, "seed", "num_predict", "num_ctx", "stop"]

  /** The same names, as a set. */
  const FieldSet: set<string> :=
    {"temperature", "top_p", PresencePenaltyKey, FrequencyPenaltyKey, "seed", "num_predict", "num_ctx", "stop"}

  /** The parameters together with the names the user set explicitly. */
  datatype ParamState = ParamState(params: Params, overrides: set<string>)

  const StopTypeMessage :=
    "LLM-Stop-Sequenzen müssen als String oder Liste von Strings angegeben werden."

  /** The entries of a stop list: `None` skipped, the rest as stripped, non-empty strings. */
  function StopEntries(items: seq<Value>): seq<string> {
    if items == [] then []
    else
      var rest := StopEntries(items[1..]);
      if items[0].Null? then rest
      else
        var cleaned := Strip(PyStr(items[0]));
        if cleaned == [] then rest else [cleaned] + rest
  }

  /** `_normalise_stop`: absent, one string, or a list of entries; anything else is rejected. */
  function NormaliseStop(v: Value): Result<seq<string>, Failure> {
    match v
    case Null => Ok([])
    case Str(s) => if Strip(s) == [] then Ok([]) else Ok([Strip(s)])
    case Arr(items) => Ok(StopEntries(items))
    case _ => Err(ConfigError(StopTypeMessage))
  }

  predicate CleanStops(stops: seq<string>) {
    forall k :: 0 <= k < |stops| ==> stops[k] != [] && IsStripped(stops[k])
  }

  lemma {:induction false} StopEntriesClean(items: seq<Value>)
    ensures CleanStops(StopEntries(items))
    ensures |StopEntries(items)| <= |items|
  {
    if items != [] {
      StopEntriesClean(items[1..]);
      StripIsStripped(PyStr(items[0]));
    }
  }

  /** Stop sequences are always stripped and non-empty, and only the three accepted shapes pass. */
  lemma NormaliseStopClean(v: Value)
    ensures NormaliseStop(v).Ok? <==> v.Null? || v.Str? || v.Arr?
    ensures NormaliseStop(v).Ok? ==> CleanStops(NormaliseStop(v).value)
  {
    match v {
      case Str(s) => StripIsStripped(s);
      case Arr(items) => StopEntriesClean(items);
      case _ =>
    }
  }

  const PresencePenaltyKey := "presence_penalty"
  const FrequencyPenaltyKey := "frequency_penalty"
  const ContextLengthKey := "context_length"

  /** The aliases `update` accepts. */
  function NormaliseKey(key: string): string {
    if key == "max_tokens" then "num_predict"
    else if key == ContextLengthKey then "num_ctx"
    else key
  }

  /** `None if value is None else int(value)` */
  function OptionalInt(v: Value): Result<Option<int>, Failure> {
    if v.Null? then Ok(None)
    else if ToInt(v).Err? then Err(Coercion(ToInt(v).error))
    else Ok(Some(ToInt(v).value))
  }

  /** The coercion `update` applies to the field `name`. */
  function SetParam(p: Params, name: string, v: Value): Result<Params, Failure> {
    if name in IntFields then SetIntParam(p, name, v)
    else if name == "stop" then
      var s := NormaliseStop(v);
      if s.Err? then Err(s.error) else Ok(p.(stop := s.value))
    else SetFloatParam(p, name, v)
  }

  /** The fields `update` stores as optional integers. */
  const IntFields: set<string> := {"seed", "num_predict", "num_ctx"}

  function SetIntParam(p: Params, name: string, v: Value): Result<Params, Failure> {
    var n := OptionalInt(v);
    if n.Err? then Err(n.error)
    else if name == "seed" then Ok(p.(seed := n.value))
    else if name == "num_predict" then Ok(p.(numPredict := n.value))
    else Ok(p.(numCtx := n.value))
  }

  function SetFloatParam(p: Params, name: string, v: Value): Result<Params, Failure> {
    var f := ToFloat(v);
    if f.Err? then Err(Coercion(f.error))
    else if name == "temperature" then Ok(p.(temperature := f.value))
    else if name == "top_p" then Ok(p.(topP := f.value))
    else if name == PresencePenaltyKey then Ok(p.(presencePenalty := f.value))
    else Ok(p.(frequencyPenalty := f.value))
  }

  const UnknownParameterLead := "Unbekannter LLM-Parameter: "

  /** One entry of `update`: unknown names are rejected, a stored value is marked as override. */
  function UpdateStep(st: ParamState, key: string, v: Value): Result<ParamState, Failure> {
    var name := NormaliseKey(key);
    if name !in FieldNames then Err(ConfigError(UnknownParameterLead + key))
    else
      var p := SetParam(st.params, name, v);
      if p.Err? then Err(p.error) else Ok(ParamState(p.value, st.overrides + {name}))
  }

  /**
   * `update` over all entries in order. It stops at the first failing entry
   * and keeps what the entries before it stored: the update is not atomic.
   */
  function UpdateAll(st: ParamState, items: seq<(string, Value)>): (ParamState, Outcome<Failure>)
    decreases |items|
  {
    if items == [] then (st, Pass)
    else
      var next := UpdateStep(st, items[0].0, items[0].1);
      if next.Err? then (st, Fail(next.error)) else UpdateAll(next.value, items[1..])
  }
  /** `UpdateAll` from entry `i` on: that entry's step, then the rest. */
  lemma UpdateAllAt(st: ParamState, items: seq<(string, Value)>, i: nat)
    requires i < |items|
    ensures var next := UpdateStep(st, items[i].0, items[i].1);
      UpdateAll(st, items[i..]) == if next.Err? then (st, Fail(next.error)) else UpdateAll(next.value, items[i + 1..])
  {
    assert items[i..][0] == items[i];
    assert items[i..][1..] == items[i + 1..];
  }


  /** An optional integer as `asdict` keeps it: the number, or `None`. */
  function OptionalIntValue(n: Option<int>): Value {
    if n.Some? then Int(n.value) else Null
  }

  /** `asdict(llm)`: the eight fields in declaration order; the override set is not a field. */
  function ParamsEntries(p: Params): seq<(string, Value)> {
    [("temperature", Float(p.temperature)), ("top_p", Float(p.topP)),
     (PresencePenaltyKey, Float(p.presencePenalty)), (FrequencyPenaltyKey, Float(p.frequencyPenalty)),
     ("seed", OptionalIntValue(p.seed)), ("num_predict", OptionalIntValue(p.numPredict)),
     ("num_ctx", OptionalIntValue(p.numCtx)), ("stop", Arr(Strs(p.stop)))]
  }

  lemma {:induction false} StopEntriesOfClean(stops: seq<string>)
    requires CleanStops(stops)
    ensures StopEntries(Strs(stops)) == stops
  {
    if stops != [] {
      assert Strs(stops)[1..] == Strs(stops[1..]);
      StopEntriesOfClean(stops[1..]);
      StripOfStripped(stops[0]);
    }
  }

  /** One dumped float field, read back by `update`. */
  lemma FloatDumpStep(st: ParamState, name: string, d: Decimal)
    requires name in {"temperature", "top_p", PresencePenaltyKey, FrequencyPenaltyKey}
    ensures UpdateStep(st, name, Float(d)) == Ok(ParamState(SetFloatParam(st.params, name, Float(d)).value, st.overrides + {name}))
  {
    assert name in FieldNames;
  }

  /** One dumped optional integer field, read back by `update`. */
  lemma IntDumpStep(st: ParamState, name: string, n: Option<int>)
    requires name in IntFields
    ensures UpdateStep(st, name, OptionalIntValue(n)) == Ok(ParamState(SetIntParam(st.params, name, OptionalIntValue(n)).value, st.overrides + {name}))
    ensures SetIntParam(st.params, name, OptionalIntValue(n)).Ok?
    ensures OptionalInt(OptionalIntValue(n)) == Ok(n)
  {
    assert name in FieldNames;
  }

  /** The dumped stop list, read back by `update`. */
  lemma StopDumpStep(st: ParamState, stops: seq<string>)
    requires CleanStops(stops)
    ensures UpdateStep(st, "stop", Arr(Strs(stops))) == Ok(ParamState(st.params.(stop := stops), st.overrides + {"stop"}))
  {
    StopEntriesOfClean(stops);
    assert "stop" in FieldNames;
  }

  /**
   * The dump of the parameters, fed back to `update`, restores them: every
   * field comes back with its value and is marked as set by the user.
   */
  lemma ParamsDumpRoundTrip(st: ParamState, p: Params)
    requires CleanStops(p.stop)
    ensures UpdateAll(st, ParamsEntries(p)) == (ParamState(p, st.overrides + FieldSet), Pass)
  {
    var e := ParamsEntries(p);
    var q := st.params;
    var s0 := ParamState(q.(temperature := p.temperature), st.overrides + {"temperature"});
    var s1 := ParamState(s0.params.(topP := p.topP), s0.overrides + {"top_p"});
    var s2 := ParamState(s1.params.(presencePenalty := p.presencePenalty), s1.overrides + {PresencePenaltyKey});
    var s3 := ParamState(s2.params.(frequencyPenalty := p.frequencyPenalty), s2.overrides + {FrequencyPenaltyKey});
    var s4 := ParamState(s3.params.(seed := p.seed), s3.overrides + {"seed"});
    var s5 := ParamState(s4.params.(numPredict := p.numPredict), s4.overrides + {"num_predict"});
    var s6 := ParamState(s5.params.(numCtx := p.numCtx), s5.overrides + {"num_ctx"});
    var s7 := ParamState(s6.params.(stop := p.stop), s6.overrides + {"stop"});
    assert e[0..] == e;
    FloatDumpStep(st, "temperature", p.temperature);
    UpdateTail(st, e, 0, s0);
    FloatDumpStep(s0, "top_p", p.topP);
    UpdateTail(s0, e, 1, s1);
    assert UpdateAll(st, e) == UpdateAll(s1, e[2..]);
    FloatDumpStep(s1, PresencePenaltyKey, p.presencePenalty);
    UpdateTail(s1, e, 2, s2);
    FloatDumpStep(s2, FrequencyPenaltyKey, p.frequencyPenalty);
    UpdateTail(s2, e, 3, s3);
    assert UpdateAll(st, e) == UpdateAll(s3, e[4..]);
    IntDumpStep(s3, "seed", p.seed);
    UpdateTail(s3, e, 4, s4);
    IntDumpStep(s4, "num_predict", p.numPredict);
    UpdateTail(s4, e, 5, s5);
    assert UpdateAll(st, e) == UpdateAll(s5, e[6..]);
    IntDumpStep(s5, "num_ctx", p.numCtx);
    UpdateTail(s5, e, 6, s6);
    StopDumpStep(s6, p.stop);
    UpdateTail(s6, e, 7, s7);
    assert e[8..] == [];
    assert UpdateAll(st, e) == (s7, Pass);
    AllFieldsMarked(st.overrides);
    assert s7.params == p;
  }

  lemma AllFieldsMarked(o: set<string>)
    ensures o + {"temperature"} + {"top_p"} + {PresencePenaltyKey} + {FrequencyPenaltyKey} + {"seed"} +
      {"num_predict"} + {"num_ctx"} + {"stop"} == o + FieldSet
  {
  }

  /** A successful entry `i` hands its state on to the entries after it. */
  lemma UpdateTail(st: ParamState, items: seq<(string, Value)>, i: nat, next: ParamState)
    requires i < |items| && UpdateStep(st, items[i].0, items[i].1) == Ok(next)
    ensures UpdateAll(st, items[i..]) == UpdateAll(next, items[i + 1..])
  {
    UpdateAllAt(st, items, i);
  }

  /** Whether field `name` of `p` differs from its value in `q`; floats compare by value. */
  predicate Differs(p: Params, q: Params, name: string) {
    match name
    case "temperature" => DecimalValue(p.temperature) != DecimalValue(q.temperature)
    case "top_p" => DecimalValue(p.topP) != DecimalValue(q.topP)
    case PresencePenaltyKey => DecimalValue(p.presencePenalty) != DecimalValue(q.presencePenalty)
    case FrequencyPenaltyKey => DecimalValue(p.frequencyPenalty) != DecimalValue(q.frequencyPenalty)
    case "seed" => p.seed != q.seed
    case "num_predict" => p.numPredict != q.numPredict
    case "num_ctx" => p.numCtx != q.numCtx
    case "stop" => p.stop != q.stop
    case _ => false
  }

  /** The fields a freshly constructed object records as overrides. */
  function InitialOverrides(p: Params): set<string> {
    set k | 0 <= k < |FieldNames| && Differs(p, DefaultParams, FieldNames[k]) :: FieldNames[k]
  }

  class LLMParameters {
    var temperature: Decimal
    var topP: Decimal
    var presencePenalty: Decimal
    var frequencyPenalty: Decimal
    var seed: Option<int>
    var numPredict: Option<int>
    var numCtx: Option<int>
    var stop: seq<string>
    var overrides: set<string>

    function Values(): Params
      reads this
    {
      Params(temperature, topP, presencePenalty, frequencyPenalty, seed, numPredict, numCtx, stop)
    }

    function State(): ParamState
      reads this
    {
      ParamState(Values(), overrides)
    }

    /** The object before `__post_init__` has run. */
    constructor Raw(p: Params)
      ensures Values() == p && overrides == {}
    {
      temperature := p.temperature;
      topP := p.topP;
      presencePenalty := p.presencePenalty;
      frequencyPenalty := p.frequencyPenalty;
      seed := p.seed;
      numPredict := p.numPredict;
      numCtx := p.numCtx;
      stop := p.stop;
      overrides := {};
    }

    /**
     * `LLMParameters(...)`: the stop argument is normalised, then every field
     * that differs from its default is recorded as an override.
     */
    static method Create(p: Params, stop: Value) returns (r: Result<LLMParameters, Failure>)
      ensures r.Err? <==> NormaliseStop(stop).Err?
      ensures r.Err? ==> r.error == NormaliseStop(stop).error
      ensures r.Ok? ==> fresh(r.value)
      ensures r.Ok? ==> r.value.Values() == p.(stop := NormaliseStop(stop).value)
      ensures r.Ok? ==> r.value.overrides == InitialOverrides(r.value.Values())
    {
      var stops := NormaliseStop(stop);
      if stops.Err? {
        return Err(stops.error);
      }
      var params := new LLMParameters.Raw(p.(stop := stops.value));
      params.RecordInitialOverrides();
      return Ok(params);
    }

    /** `_record_initial_overrides` */
    method RecordInitialOverrides()
      modifies this
      ensures Values() == old(Values())
      ensures overrides == old(overrides) + InitialOverrides(Values())
    {
      for i := 0 to |FieldNames|
        invariant Values() == old(Values())
        invariant overrides == old(overrides) +
          set k | 0 <= k < i && Differs(Values(), DefaultParams, FieldNames[k]) :: FieldNames[k]
      {
        if Differs(Values(), DefaultParams, FieldNames[i]) {
          overrides := overrides + {FieldNames[i]};
        }
      }
    }

    /** The `setattr` of one entry of `update`, with the coercion the field takes. */
    method Store(name: string, value: Value) returns (o: Outcome<Failure>)
      modifies this
      ensures var p := SetParam(old(Values()), name, value);
        if p.Err? then o == Fail(p.error) && Values() == old(Values()) else o.Pass? && Values() == p.value
      ensures overrides == old(overrides)
    {
      if name == "seed" || name == "num_predict" || name == "num_ctx" {
        o := StoreInt(name, value);
      } else if name == "stop" {
        var s := NormaliseStop(value);
        if s.Err? {
          return Fail(s.error);
        }
        stop := s.value;
        o := Pass;
      } else {
        o := StoreFloat(name, value);
      }
    }

    method StoreInt(name: string, value: Value) returns (o: Outcome<Failure>)
      modifies this
      ensures var p := SetIntParam(old(Values()), name, value);
        if p.Err? then o == Fail(p.error) && Values() == old(Values()) else o.Pass? && Values() == p.value
      ensures overrides == old(overrides)
    {
      var n := OptionalInt(value);
      if n.Err? {
        return Fail(n.error);
      }
      if name == "seed" {
        seed := n.value;
      } else if name == "num_predict" {
        numPredict := n.value;
      } else {
        numCtx := n.value;
      }
      return Pass;
    }

    method StoreFloat(name: string, value: Value) returns (o: Outcome<Failure>)
      modifies this
      ensures var p := SetFloatParam(old(Values()), name, value);
        if p.Err? then o == Fail(p.error) && Values() == old(Values()) else o.Pass? && Values() == p.value
      ensures overrides == old(overrides)
    {
      var f := ToFloat(value);
      if f.Err? {
        return Fail(Coercion(f.error));
      }
      if name == "temperature" {
        temperature := f.value;
      } else if name == "top_p" {
        topP := f.value;
      } else if name == PresencePenaltyKey {
        presencePenalty := f.value;
      } else {
        frequencyPenalty := f.value;
      }
      return Pass;
    }

    /** `update`: applies the entries in order and raises at the first bad one. */
    method Update(items: seq<(string, Value)>) returns (o: Outcome<Failure>)
      modifies this
      ensures (State(), o) == UpdateAll(old(State()), items)
    {
      var i := 0;
      while i < |items|
        invariant 0 <= i <= |items|
        invariant UpdateAll(old(State()), items) == UpdateAll(State(), items[i..])
      {
        var (key, value) := items[i];
        ghost var before := State();
        UpdateAllAt(before, items, i);
        var name := NormaliseKey(key);
        if name !in FieldNames {
          return Fail(ConfigError(UnknownParameterLead + key));
        }
        var stored := Store(name, value);
        if stored.Fail? {
          return stored;
        }
        overrides := overrides + {name};
        assert State() == UpdateStep(before, key, value).value;
        i := i + 1;
      }
      return Pass;
    }

    /** The sampling updates of `adjust_for_word_count`, in the source's order. */
    method Determinise(tokenLimit: int, contextLength: int)
      modifies this
      ensures State() == Determinised(old(State()), tokenLimit, contextLength)
    {
      presencePenalty := Decimal(5, -2);
      frequencyPenalty := Decimal(5, -2);
      seed := Some(42);
      if !HasOverride("num_predict") {
        numPredict := Some(tokenLimit);
      }
      if !HasOverride("num_ctx") {
        numCtx := Some(contextLength);
      }
    }

    /** `has_override` */
    predicate HasOverride(key: string)
      reads this
    {
      key in overrides
    }
  }

  /** The defaults record no override, and a value equal to its default is never one. */
  lemma DefaultsRecordNothing(p: Params)
    ensures InitialOverrides(DefaultParams) == {}
    ensures p.(temperature := Decimal(70, -2)) == DefaultParams ==> InitialOverrides(p) == {}
  {
  }

  /** Every changed field, and only those, is recorded at construction. */
  lemma InitialOverridesExact(p: Params, name: string)
    ensures name in InitialOverrides(p) <==> name in FieldNames && Differs(p, DefaultParams, name)
  {
    if name in FieldNames && Differs(p, DefaultParams, name) {
      var k :| 0 <= k < |FieldNames| && FieldNames[k] == name;
      assert FieldNames[k] in InitialOverrides(p);
    }
  }

  /** `max_tokens` sets `num_predict` and `context_length` sets `num_ctx`, both marked as overrides. */
  lemma UpdateAliases(st: ParamState, n: int)
    ensures UpdateStep(st, "max_tokens", Int(n))
      == Ok(ParamState(st.params.(numPredict := Some(n)), st.overrides + {"num_predict"}))
    ensures UpdateStep(st, "context_length", Int(n))
      == Ok(ParamState(st.params.(numCtx := Some(n)), st.overrides + {"num_ctx"}))
  {
  }

  /** An unknown name stops `update` with `ConfigError`, leaving the parameters as they were. */
  lemma UpdateRejectsUnknown(st: ParamState, key: string, v: Value, rest: seq<(string, Value)>)
    requires NormaliseKey(key) !in FieldNames
    ensures UpdateAll(st, [(key, v)] + rest) == (st, Fail(ConfigError(UnknownParameterLead + key)))
  {
    assert ([(key, v)] + rest)[0] == (key, v);
  }

  /** Overrides only grow, and a successful update marks every entry's field. */
  lemma {:induction false} UpdateMarksOverrides(st: ParamState, items: seq<(string, Value)>)
    decreases |items|
    ensures st.overrides <= UpdateAll(st, items).0.overrides
    ensures UpdateAll(st, items).1.Pass? ==>
      forall k :: 0 <= k < |items| ==> NormaliseKey(items[k].0) in UpdateAll(st, items).0.overrides
  {
    if items != [] {
      var next := UpdateStep(st, items[0].0, items[0].1);
      if next.Ok? {
        UpdateMarksOverrides(next.value, items[1..]);
        forall k | 0 < k < |items|
          ensures items[k] == items[1..][k - 1]
        {
        }
      }
    }
  }

  /** Entries before a failing one stay applied. */
  lemma {:induction false} UpdateKeepsPrefix(st: ParamState, good: seq<(string, Value)>, bad: (string, Value), rest: seq<(string, Value)>)
    requires UpdateAll(st, good).1.Pass?
    requires UpdateStep(UpdateAll(st, good).0, bad.0, bad.1).Err?
    ensures UpdateAll(st, good + [bad] + rest)
      == (UpdateAll(st, good).0, Fail(UpdateStep(UpdateAll(st, good).0, bad.0, bad.1).error))
    decreases |good|
  {
    if good == [] {
      assert good + [bad] + rest == [bad] + rest;
    } else {
      assert (good + [bad] + rest)[1..] == good[1..] + [bad] + rest;
      UpdateKeepsPrefix(UpdateStep(st, good[0].0, good[0].1).value, good[1..], bad, rest);
    }
  }

  // ---------------------------------------------------------------------
  // Application settings
  // ---------------------------------------------------------------------

  /** The fields of `Config` other than its parameter object; paths are their text. */
  datatype Settings = Settings(
    outputDir: string,
    logsDir: string,
    promptConfigPath: string,
    llmProvider: string,
    llmModel: Option<string>,
    ollamaBaseUrl: Option<string>,
    contextLength: int,
    tokenLimit: int,
    systemPrompt: Option<string>,
    wordCount: int,
    sourceSearchQueryCount: int)

  /** `Config` as a value: its settings and the state of its parameter object. */
  datatype ConfigState = ConfigState(settings: Settings, llm: ParamState)

  const DefaultSettings := Settings("output", "logs", "prompts_config.json", "ollama", None, None,
                                    4096, 1024, None, 0, 3)

  /** The default settings already meet the minimum limits: only `num_ctx` is synchronised. */
  lemma DefaultsWithinLimits(st: ParamState)
    ensures MinimumLimits(ConfigState(DefaultSettings, st)) == ConfigState(DefaultSettings, SyncContext(st, 4096))
  {
  }

  /** `num_ctx` follows the context length unless the user set it. */
  function SyncContext(st: ParamState, contextLength: int): ParamState {
    if "num_ctx" in st.overrides then st
    else st.(params := st.params.(numCtx := Some(contextLength)))
  }

  predicate Synced(cs: ConfigState) {
    "num_ctx" !in cs.llm.overrides ==> cs.llm.params.numCtx == Some(cs.settings.contextLength)
  }

  /** `_apply_minimum_limits` */
  function MinimumLimits(cs: ConfigState): ConfigState {
    var contextLength := Max(MinContextLength, cs.settings.contextLength);
    ConfigState(cs.settings.(contextLength := contextLength,
                             tokenLimit := Max(MinTokenLimit, cs.settings.tokenLimit)),
                SyncContext(cs.llm, contextLength))
  }

  /** The windows never fall below their minima, and applying the limits twice changes nothing. */
  lemma MinimumLimitsBounds(cs: ConfigState)
    ensures MinimumLimits(cs).settings.contextLength >= MinContextLength
    ensures MinimumLimits(cs).settings.tokenLimit >= MinTokenLimit
    ensures MinimumLimits(cs).settings.contextLength >= cs.settings.contextLength
    ensures Synced(MinimumLimits(cs))
    ensures MinimumLimits(MinimumLimits(cs)) == MinimumLimits(cs)
    ensures MinimumLimits(cs).llm.overrides == cs.llm.overrides
  {
  }

  /**
   * The sampling controls `adjust_for_word_count` fixes: both penalties 0.05,
   * seed 42, and the two windows unless the user set them.
   */
  function Determinised(st: ParamState, tokenLimit: int, contextLength: int): ParamState {
    var p := st.params.(presencePenalty := Decimal(5, -2), frequencyPenalty := Decimal(5, -2), seed := Some(42));
    var p' := if "num_predict" in st.overrides then p else p.(numPredict := Some(tokenLimit));
    SyncContext(st.(params := p'), contextLength)
  }

  const WordCountMessage := "`word_count` muss größer als 0 sein."

  /** `adjust_for_word_count`: windows scale with the word count, sampling becomes deterministic. */
  function AdjustedForWordCount(cs: ConfigState, wordCount: int): Result<ConfigState, Failure> {
    if wordCount <= 0 then Err(ConfigError(WordCountMessage))
    else
      var scaled := ConfigState(cs.settings.(wordCount := wordCount,
                                             contextLength := Max(8192, wordCount * 4),
                                             tokenLimit := Max(8192, Scale(wordCount, 19, 10))),
                                cs.llm);
      var limited := MinimumLimits(scaled);
      Ok(ConfigState(limited.settings,
                     Determinised(limited.llm, limited.settings.tokenLimit, limited.settings.contextLength)))
  }

  /**
   * The word count is rejected unless positive; otherwise the context is
   * four tokens per word and the token limit 1.9 per word (truncated), each
   * raised to 8192, which the minimum limits then leave alone; both penalties
   * become 0.05 and the seed 42, `num_predict`/`num_ctx` follow the two
   * windows unless overridden, and temperature,
   * top_p and the stop list are left as they were.
   */
  lemma AdjustForWordCountSpec(cs: ConfigState, wordCount: int)
    ensures AdjustedForWordCount(cs, wordCount).Err? <==> wordCount <= 0
    ensures AdjustedForWordCount(cs, wordCount).Ok? ==>
      var r := AdjustedForWordCount(cs, wordCount).value;
      && r.settings.wordCount == wordCount
      && r.settings.contextLength == Max(8192, 4 * wordCount)
      && r.settings.tokenLimit == Max(8192, (19 * wordCount) / 10)
      && r.settings.tokenLimit >= wordCount
      && r.llm.params.presencePenalty == Decimal(5, -2)
      && r.llm.params.frequencyPenalty == Decimal(5, -2)
      && ("num_predict" !in r.llm.overrides ==> r.llm.params.numPredict == Some(r.settings.tokenLimit))
      && Synced(r)
      && r.llm.params.seed == Some(42)
      && r.llm.params.temperature == cs.llm.params.temperature
      && r.llm.params.topP == cs.llm.params.topP
      && r.llm.params.stop == cs.llm.params.stop
      && r.llm.overrides == cs.llm.overrides
      && r.settings.(wordCount := cs.settings.wordCount, contextLength := cs.settings.contextLength,
                     tokenLimit := cs.settings.tokenLimit) == cs.settings
  {
    if wordCount > 0 {
      assert Scale(wordCount, 19, 10) >= wordCount;
    }
  }

  const NegativeCountMessage := "`source_search_query_count` darf nicht negativ sein."

  /** `config.<name> = str(value) if value is not None else None` */
  function OptionalStr(v: Value): Option<string> {
    if v.Null? then None else Some(PyStr(v))
  }

  const LlmNotObject := "LLM-Einstellungen müssen ein Objekt sein."
  const UnknownKeyLead := "Unbekannter Konfigurationsschlüssel: "

  const BaseUrlKey := "ollama_base_url"
  const PromptConfigKey := "prompt_config_path"
  const SystemPromptKey := "system_prompt"
  const QueryCountKey := "source_search_query_count"

  /** The keys whose entries set a path or a text and cannot fail. */
  const TextKeys: set<string> :=
    {"output_dir", "logs_dir", "llm_provider", "llm_model", BaseUrlKey, PromptConfigKey, SystemPromptKey}

  /** The settings after one entry with a key of `TextKeys`. */
  function TextSetting(s: Settings, key: string, v: Value): Settings {
    if key == "output_dir" then s.(outputDir := PyStr(v))
    else if key == "logs_dir" then s.(logsDir := PyStr(v))
    else if key == "llm_provider" then s.(llmProvider := PyStr(v))
    else if key == "llm_model" then s.(llmModel := OptionalStr(v))
    else if key == BaseUrlKey then s.(ollamaBaseUrl := OptionalStr(v))
    else if key == PromptConfigKey then s.(promptConfigPath := PyStr(v))
    else
      var cleaned := if v.Null? then [] else Strip(PyStr(v));
      s.(systemPrompt := if cleaned == [] then None else Some(cleaned))
  }

  /** One entry of `_update_config_from_dict`; a failing `llm` entry keeps what it already stored. */
  function ApplyConfigItem(cs: ConfigState, key: string, v: Value): (ConfigState, Outcome<Failure>) {
    var s := cs.settings;
    if key in TextKeys then (cs.(settings := TextSetting(s, key, v)), Pass)
    else if key == ContextLengthKey || key == "token_limit" || key == QueryCountKey then
      var n := ToInt(v);
      if n.Err? then (cs, Fail(Coercion(n.error)))
      else if key == ContextLengthKey then (cs.(settings := s.(contextLength := n.value)), Pass)
      else if key == "token_limit" then (cs.(settings := s.(tokenLimit := n.value)), Pass)
      else if n.value < 0 then (cs, Fail(ConfigError(NegativeCountMessage)))
      else (cs.(settings := s.(sourceSearchQueryCount := n.value)), Pass)
    else if key == "llm" then
      if !v.Obj? then (cs, Fail(ConfigError(LlmNotObject)))
      else
        var (st, o) := UpdateAll(cs.llm, v.fields);
        (cs.(llm := st), o)
    else (cs, Fail(ConfigError(UnknownKeyLead + key)))
  }

  /** The entries of the dictionary in order; the minimum limits follow only when all succeed. */
  function ApplyConfigData(cs: ConfigState, data: seq<(string, Value)>): (ConfigState, Outcome<Failure>)
    decreases |data|
  {
    if data == [] then (MinimumLimits(cs), Pass)
    else
      var (next, o) := ApplyConfigItem(cs, data[0].0, data[0].1);
      if o.Fail? then (next, o) else ApplyConfigData(next, data[1..])
  }
  /** `ApplyConfigData` from entry `i` on: that entry, then the rest unless it failed. */
  lemma ApplyConfigDataAt(cs: ConfigState, data: seq<(string, Value)>, i: nat)
    requires i < |data|
    ensures var (next, o) := ApplyConfigItem(cs, data[i].0, data[i].1);
      ApplyConfigData(cs, data[i..]) == if o.Fail? then (next, o) else ApplyConfigData(next, data[i + 1..])
  {
    assert data[i..][0] == data[i];
    assert data[i..][1..] == data[i + 1..];
  }


  /** After a successful merge the windows meet their minima and `num_ctx` is in step. */
  lemma {:induction false} ApplyConfigDataBounds(cs: ConfigState, data: seq<(string, Value)>)
    ensures ApplyConfigData(cs, data).1.Pass? ==>
      var r := ApplyConfigData(cs, data).0;
      r.settings.contextLength >= MinContextLength && r.settings.tokenLimit >= MinTokenLimit && Synced(r)
    decreases |data|
  {
    if data == [] {
      MinimumLimitsBounds(cs);
    } else {
      var (next, o) := ApplyConfigItem(cs, data[0].0, data[0].1);
      if o.Pass? {
        ApplyConfigDataBounds(next, data[1..]);
      }
    }
  }

  /** A stored system prompt is stripped and non-empty. */
  lemma SystemPromptClean(cs: ConfigState, v: Value)
    ensures ApplyConfigItem(cs, "system_prompt", v).1.Pass?
    ensures var p := ApplyConfigItem(cs, "system_prompt", v).0.settings.systemPrompt;
      p.Some? ==> p.value != [] && IsStripped(p.value)
  {
    if !v.Null? {
      StripIsStripped(PyStr(v));
    }
  }

  /** Unknown keys and negative query counts raise `ConfigError` and change nothing. */
  lemma ApplyConfigItemRejects(cs: ConfigState, key: string, v: Value)
    ensures key !in {"output_dir", "logs_dir", "llm_provider", "llm_model", "ollama_base_url",
                     PromptConfigKey, SystemPromptKey, ContextLengthKey, "token_limit", "llm",
                     QueryCountKey}
      ==> ApplyConfigItem(cs, key, v) == (cs, Fail(ConfigError(UnknownKeyLead + key)))
    ensures ToInt(v).Ok? && ToInt(v).value < 0 ==>
      ApplyConfigItem(cs, QueryCountKey, v) == (cs, Fail(ConfigError(NegativeCountMessage)))
  {
  }

  /** Entries before a failing one stay applied and the minimum limits are skipped. */
  lemma {:induction false} ApplyConfigDataStops(cs: ConfigState, data: seq<(string, Value)>, k: nat)
    requires k < |data|
    requires forall j :: 0 <= j < k ==> ApplyConfigItem(ConfigPrefix(cs, data, j), data[j].0, data[j].1).1.Pass?
    requires ApplyConfigItem(ConfigPrefix(cs, data, k), data[k].0, data[k].1).1.Fail?
    ensures ApplyConfigData(cs, data) == ApplyConfigItem(ConfigPrefix(cs, data, k), data[k].0, data[k].1)
    decreases k
  {
    if k > 0 {
      forall j | 0 <= j < k - 1
        ensures ApplyConfigItem(ConfigPrefix(ApplyConfigItem(cs, data[0].0, data[0].1).0, data[1..], j),
                                data[1..][j].0, data[1..][j].1).1.Pass?
      {
        ConfigPrefixShift(cs, data, j);
        assert ApplyConfigItem(ConfigPrefix(cs, data, j + 1), data[j + 1].0, data[j + 1].1).1.Pass?;
      }
      ConfigPrefixShift(cs, data, k - 1);
      assert ApplyConfigItem(ConfigPrefix(cs, data, 0), data[0].0, data[0].1).1.Pass?;
      ApplyConfigDataStops(ApplyConfigItem(cs, data[0].0, data[0].1).0, data[1..], k - 1);
    }
  }

  /** The state after the first `k` entries, without the closing minimum limits. */
  function ConfigPrefix(cs: ConfigState, data: seq<(string, Value)>, k: nat): ConfigState
    requires k <= |data|
  {
    if k == 0 then cs else ApplyConfigItem(ConfigPrefix(cs, data, k - 1), data[k - 1].0, data[k - 1].1).0
  }

  lemma {:induction false} ConfigPrefixShift(cs: ConfigState, data: seq<(string, Value)>, j: nat)
    requires j + 1 <= |data|
    ensures ConfigPrefix(cs, data, j + 1) == ConfigPrefix(ApplyConfigItem(cs, data[0].0, data[0].1).0, data[1..], j)
  {
    if j > 0 {
      ConfigPrefixShift(cs, data, j - 1);
    }
  }

  class Config {
    var outputDir: string
    var logsDir: string
    var promptConfigPath: string
    var llmProvider: string
    var llmModel: Option<string>
    var ollamaBaseUrl: Option<string>
    const llm: LLMParameters
    var contextLength: int
    var tokenLimit: int
    var systemPrompt: Option<string>
    var wordCount: int
    var sourceSearchQueryCount: int

    function Fields(): Settings
      reads this
    {
      Settings(outputDir, logsDir, promptConfigPath, llmProvider, llmModel, ollamaBaseUrl,
               contextLength, tokenLimit, systemPrompt, wordCount, sourceSearchQueryCount)
    }

    function Snapshot(): ConfigState
      reads this, llm
    {
      ConfigState(Fields(), llm.State())
    }

    /** The object before `__post_init__` has run. */
    constructor Raw(s: Settings, params: LLMParameters)
      ensures Fields() == s && llm == params
    {
      outputDir := s.outputDir;
      logsDir := s.logsDir;
      promptConfigPath := s.promptConfigPath;
      llmProvider := s.llmProvider;
      llmModel := s.llmModel;
      ollamaBaseUrl := s.ollamaBaseUrl;
      llm := params;
      contextLength := s.contextLength;
      tokenLimit := s.tokenLimit;
      systemPrompt := s.systemPrompt;
      wordCount := s.wordCount;
      sourceSearchQueryCount := s.sourceSearchQueryCount;
    }

    /**
     * `Config(...)`: applies the minimum limits to the settings and to the
     * shared parameter object, then rejects a negative query count; the
     * parameter object keeps the change even then.
     */
    static method Create(s: Settings, params: LLMParameters) returns (r: Result<Config, Failure>)
      modifies params
      ensures params.State() == MinimumLimits(ConfigState(s, old(params.State()))).llm
      ensures r.Err? <==> s.sourceSearchQueryCount < 0
      ensures r.Err? ==> r.error == ConfigError(NegativeCountMessage)
      ensures r.Ok? ==> fresh(r.value) && r.value.llm == params
      ensures r.Ok? ==> r.value.Fields() == MinimumLimits(ConfigState(s, old(params.State()))).settings
    {
      var c := new Config.Raw(s, params);
      c.ApplyMinimumLimits();
      if !params.HasOverride("num_ctx") {
        params.numCtx := Some(c.contextLength);
      }
      if c.sourceSearchQueryCount < 0 {
        return Err(ConfigError(NegativeCountMessage));
      }
      return Ok(c);
    }

    /** `_apply_minimum_limits` */
    method ApplyMinimumLimits()
      modifies this, llm
      ensures Snapshot() == MinimumLimits(old(Snapshot()))
    {
      contextLength := Max(MinContextLength, contextLength);
      tokenLimit := Max(MinTokenLimit, tokenLimit);
      if !llm.HasOverride("num_ctx") {
        llm.numCtx := Some(contextLength);
      }
    }

    /** `adjust_for_word_count` */
    method AdjustForWordCount(count: int) returns (o: Outcome<Failure>)
      modifies this, llm
      ensures o.Fail? <==> count <= 0
      ensures o.Fail? ==> o.error == ConfigError(WordCountMessage) && Snapshot() == old(Snapshot())
      ensures o.Pass? ==> Snapshot() == AdjustedForWordCount(old(Snapshot()), count).value
    {
      if count <= 0 {
        return Fail(ConfigError(WordCountMessage));
      }
      wordCount := count;
      contextLength := Max(8192, wordCount * 4);
      tokenLimit := Max(8192, Scale(wordCount, 19, 10));
      ApplyMinimumLimits();
      llm.Determinise(tokenLimit, contextLength);
      return Pass;
    }
  }

  /** The entries that set a path or a text attribute. */
  method SetText(config: Config, key: string, value: Value)
    requires key in TextKeys
    modifies config
    ensures config.Fields() == TextSetting(old(config.Fields()), key, value)
  {
    if key == "output_dir" {
      config.outputDir := PyStr(value);
    } else if key == "logs_dir" {
      config.logsDir := PyStr(value);
    } else if key == "llm_provider" {
      config.llmProvider := PyStr(value);
    } else if key == "llm_model" {
      config.llmModel := OptionalStr(value);
    } else if key == BaseUrlKey {
      config.ollamaBaseUrl := OptionalStr(value);
    } else if key == PromptConfigKey {
      config.promptConfigPath := PyStr(value);
    } else if value.Null? {
      config.systemPrompt := None;
    } else {
      var cleaned := Strip(PyStr(value));
      config.systemPrompt := if cleaned == [] then None else Some(cleaned);
    }
  }

  /** One entry of `_update_config_from_dict`. */
  method ApplyItem(config: Config, key: string, value: Value) returns (o: Outcome<Failure>)
    modifies config, config.llm
    ensures (config.Snapshot(), o) == ApplyConfigItem(old(config.Snapshot()), key, value)
  {
    if key in TextKeys {
      SetText(config, key, value);
    } else if key == ContextLengthKey || key == "token_limit" {
      var n := ToInt(value);
      if n.Err? {
        return Fail(Coercion(n.error));
      }
      if key == ContextLengthKey {
        config.contextLength := n.value;
      } else {
        config.tokenLimit := n.value;
      }
    } else if key == "llm" {
      if !value.Obj? {
        return Fail(ConfigError(LlmNotObject));
      }
      var r := config.llm.Update(value.fields);
      if r.Fail? {
        return r;
      }
    } else if key == QueryCountKey {
      var n := ToInt(value);
      if n.Err? {
        return Fail(Coercion(n.error));
      }
      if n.value < 0 {
        return Fail(ConfigError(NegativeCountMessage));
      }
      config.sourceSearchQueryCount := n.value;
    } else {
      return Fail(ConfigError(UnknownKeyLead + key));
    }
    return Pass;
  }

  /** `_update_config_from_dict`: merges the entries in order and raises at the first bad one. */
  method UpdateConfigFromDict(config: Config, data: seq<(string, Value)>) returns (o: Outcome<Failure>)
    modifies config, config.llm
    ensures (config.Snapshot(), o) == ApplyConfigData(old(config.Snapshot()), data)
  {
    var i := 0;
    while i < |data|
      invariant 0 <= i <= |data|
      invariant ApplyConfigData(old(config.Snapshot()), data) == ApplyConfigData(config.Snapshot(), data[i..])
    {
      var (key, value) := data[i];
      ApplyConfigDataAt(config.Snapshot(), data, i);
      var step := ApplyItem(config, key, value);
      if step.Fail? {
        return step;
      }
      i := i + 1;
    }
    config.ApplyMinimumLimits();
    return Pass;
  }
}
