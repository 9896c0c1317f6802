/**
 * The payload logic around the Ollama call: the scan for unresolved prompt
 * placeholders, the request options and payload, the reading of (possibly
 * streamed) responses, and the provider dispatch of `generate_text`. The
 * HTTP exchange, JSON decoding and the payload hash are parameters.
 */
module Llm {
  import opened Common
  import opened Strings
  import opened Numerals
  import opened Json
  import opened Configuration

  // ---------------------------------------------------------------------
  // Placeholder scan: `(?<!{){([^{}]+)}(?!})` and `[a-z0-9_.-]+`
  // ---------------------------------------------------------------------

  predicate IsBrace(c: char) {
    c == '{' || c == '}'
  }

  /** The first brace at or after `i`, or `|s|`. */
  function NextBrace(s: string, i: nat): (j: nat)
    requires i <= |s|
    ensures i <= j <= |s|
    decreases |s| - i
  {
    if i == |s| || IsBrace(s[i]) then i else NextBrace(s, i + 1)
  }

  lemma {:induction false} NextBraceSpec(s: string, i: nat)
    requires i <= |s|
    ensures forall k :: i <= k < NextBrace(s, i) ==> !IsBrace(s[k])
    ensures NextBrace(s, i) < |s| ==> IsBrace(s[NextBrace(s, i)])
    decreases |s| - i
  {
    if i < |s| && !IsBrace(s[i]) {
      NextBraceSpec(s, i + 1);
    }
  }

  lemma {:induction false} NextBraceAt(s: string, i: nat, j: nat)
    requires i <= j <= |s|
    requires forall k :: i <= k < j ==> !IsBrace(s[k])
    requires j == |s| || IsBrace(s[j])
    ensures NextBrace(s, i) == j
    decreases j - i
  {
    if i < j {
      NextBraceAt(s, i + 1, j);
    }
  }

  /**
   * The closing brace of the token the pattern matches at `i`: an opening
   * brace not preceded by `{`, at least one non-brace character, and a
   * closing brace not followed by `}`.
   */
  function TokenEnd(s: string, i: nat): (e: Option<nat>)
    requires i < |s|
    ensures e.Some? ==> i + 1 < e.value < |s| && s[e.value] == '}'
  {
    if s[i] != '{' || (i > 0 && s[i - 1] == '{') then None
    else
      var j := NextBrace(s, i + 1);
      if j == i + 1 || j == |s| || s[j] != '}' || (j + 1 < |s| && s[j + 1] == '}') then None
      else Some(j)
  }

  predicate IsNameChar(c: char) {
    ('a' <= c <= 'z') || ('0' <= c <= '9') || c == '_' || c == '.' || c == '-'
  }

  predicate IsPlaceholderName(n: string) {
    n != [] && forall k :: 0 <= k < |n| ==> IsNameChar(n[k])
  }

  /** The stripped name of the token at `i` when it is a template field. */
  function FlaggedAt(s: string, i: nat): Option<string>
    requires i < |s|
  {
    var e := TokenEnd(s, i);
    if e.None? then None
    else
      var name := Strip(s[i + 1..e.value]);
      if IsPlaceholderName(name) then Some(name) else None
  }

  /** The names flagged at positions `i` and later, in order. */
  function PlaceholdersFrom(s: string, i: nat): seq<string>
    decreases |s| - i
  {
    if i >= |s| then []
    else
      var f := FlaggedAt(s, i);
      (if f.Some? then [f.value] else []) + PlaceholdersFrom(s, i + 1)
  }

  /** The unresolved placeholders of a string. */
  function Placeholders(s: string): seq<string> {
    PlaceholdersFrom(s, 0)
  }

  /** Positions without an opening brace contribute nothing. */
  lemma {:induction false} NoTokensBetween(s: string, a: nat, b: nat)
    requires a <= b <= |s|
    requires forall k :: a <= k < b ==> s[k] != '{'
    ensures PlaceholdersFrom(s, a) == PlaceholdersFrom(s, b)
    decreases b - a
  {
    if a < b {
      NoTokensBetween(s, a + 1, b);
    }
  }

  /** No match can start inside a matched token, so resuming after it loses nothing. */
  lemma SkipToken(s: string, i: nat)
    requires i < |s| && TokenEnd(s, i).Some?
    ensures PlaceholdersFrom(s, i + 1) == PlaceholdersFrom(s, TokenEnd(s, i).value + 1)
  {
    var j := TokenEnd(s, i).value;
    NextBraceSpec(s, i + 1);
    NoTokensBetween(s, i + 1, j + 1);
  }

  /** One step of the scan over a matched token, with the names found before it. */
  lemma ScanToken(s: string, i: nat, found: seq<string>)
    requires i < |s| && TokenEnd(s, i).Some?
    ensures var name := Strip(s[i + 1..TokenEnd(s, i).value]);
      found + PlaceholdersFrom(s, i)
      == (if IsPlaceholderName(name) then found + [name] else found) + PlaceholdersFrom(s, TokenEnd(s, i).value + 1)
  {
    SkipToken(s, i);
    var f := FlaggedAt(s, i);
    assert PlaceholdersFrom(s, i) == (if f.Some? then [f.value] else []) + PlaceholdersFrom(s, i + 1);
    if f.Some? {
      assert found + ([f.value] + PlaceholdersFrom(s, i + 1)) == found + [f.value] + PlaceholdersFrom(s, i + 1);
    }
  }

  /** Every flagged name consists of lower-case letters, digits, `_`, `.` and `-`. */
  lemma {:induction false} FlaggedAreNames(s: string, i: nat)
    ensures forall k :: 0 <= k < |PlaceholdersFrom(s, i)| ==> IsPlaceholderName(PlaceholdersFrom(s, i)[k])
    decreases |s| - i
  {
    if i < |s| {
      FlaggedAreNames(s, i + 1);
    }
  }

  /** A string without `{` has nothing unresolved. */
  lemma NoBraceNoPlaceholder(s: string)
    requires '{' !in s
    ensures Placeholders(s) == []
  {
    NoTokensBetween(s, 0, |s|);
  }

  lemma NameIsStripped(n: string)
    requires IsPlaceholderName(n)
    ensures Strip(n) == n
  {
    assert !IsSpace(n[0]) && !IsSpace(n[|n| - 1]);
    StripOfStripped(n);
  }

  /** `{name}` is flagged. */
  lemma SinglePlaceholder(n: string)
    requires IsPlaceholderName(n)
    ensures Placeholders("{" + n + "}") == [n]
  {
    var s := "{" + n + "}";
    var j := |n| + 1;
    assert forall k :: 1 <= k < j ==> s[k] == n[k - 1];
    NextBraceAt(s, 1, j);
    assert s[1..j] == n;
    NameIsStripped(n);
    assert FlaggedAt(s, 0) == Some(n);
    NoTokensBetween(s, 1, |s|);
  }

  /** `{{name}}` is an escaped brace pair and is not flagged. */
  lemma DoubleBracedIgnored(n: string)
    requires forall k :: 0 <= k < |n| ==> !IsBrace(n[k])
    ensures Placeholders("{{" + n + "}}") == []
  {
    var s := "{{" + n + "}}";
    forall k | 2 <= k < |s| ensures s[k] != '{' {
      if k < |n| + 2 {
        assert s[k] == n[k - 2];
      }
    }
    NextBraceAt(s, 1, 1);
    assert FlaggedAt(s, 0) == None;
    assert FlaggedAt(s, 1) == None;
    NoTokensBetween(s, 2, |s|);
    assert PlaceholdersFrom(s, 1) == PlaceholdersFrom(s, 2);
  }

  /** `{Name}` holds a proper noun, not a template field. */
  lemma ProperNounIgnored()
    ensures Placeholders("{Name}") == []
  {
    var s := "{Name}";
    NextBraceAt(s, 1, 5);
    assert s[1..5] == "Name";
    StripOfStripped("Name");
    assert !IsNameChar('N');
    assert FlaggedAt(s, 0) == None;
    NoTokensBetween(s, 1, |s|);
  }

  /** Adjacent fields are both flagged, in order. */
  lemma AdjacentPlaceholders()
    ensures Placeholders("{a}{b}") == ["a", "b"]
  {
    var s := "{a}{b}";
    FirstOfAdjacent(s);
    SecondOfAdjacent(s);
    FlaggedStep(s, 0, "a");
    NoTokensBetween(s, 1, 3);
    FlaggedStep(s, 3, "b");
    NoTokensBetween(s, 4, |s|);
  }

  lemma FirstOfAdjacent(s: string)
    requires s == "{a}{b}"
    ensures FlaggedAt(s, 0) == Some("a")
  {
    NextBraceAt(s, 1, 2);
    assert s[1..2] == "a";
    NameIsStripped("a");
  }

  lemma SecondOfAdjacent(s: string)
    requires s == "{a}{b}"
    ensures FlaggedAt(s, 3) == Some("b")
  {
    NextBraceAt(s, 4, 5);
    assert s[4..5] == "b";
    NameIsStripped("b");
  }

  lemma FlaggedStep(s: string, i: nat, name: string)
    requires i < |s| && FlaggedAt(s, i) == Some(name)
    ensures PlaceholdersFrom(s, i) == [name] + PlaceholdersFrom(s, i + 1)
  {
  }

  // ---------------------------------------------------------------------
  // Payload traversal
  // ---------------------------------------------------------------------

  /** The path reported for a value: `<root>` for the payload itself. */
  function Context(path: string): string {
    if path == [] then "<root>" else path
  }

  function KeyPath(path: string, key: string): string {
    if path == [] then key else path + "." + key
  }

  function IndexPath(path: string, index: nat): string {
    path + "[" + NatToString(index) + "]"
  }

  function Flatten<T>(parts: seq<seq<T>>): seq<T> {
    if parts == [] then [] else Flatten(parts[..|parts| - 1]) + parts[|parts| - 1]
  }

  lemma {:induction false} FlattenEmpty<T>(parts: seq<seq<T>>)
    ensures Flatten(parts) == [] <==> forall k :: 0 <= k < |parts| ==> parts[k] == []
  {
    if parts != [] {
      var init := parts[..|parts| - 1];
      FlattenEmpty(init);
      ConcatEmpty(Flatten(init), parts[|parts| - 1]);
      assert forall k :: 0 <= k < |init| ==> init[k] == parts[k];
    }
  }

  lemma ConcatEmpty<T>(a: seq<T>, b: seq<T>)
    ensures a + b == [] <==> a == [] && b == []
  {
    assert |a + b| == |a| + |b|;
  }

  /** Flattening one more part of a prefix appends that part. */
  lemma FlattenPrefix<T>(parts: seq<seq<T>>, k: nat)
    requires k < |parts|
    ensures Flatten(parts[..k + 1]) == Flatten(parts[..k]) + parts[k]
  {
    assert parts[..k + 1][..k] == parts[..k];
  }

  function Tagged(context: string, names: seq<string>): seq<(string, string)> {
    seq(|names|, k requires 0 <= k < |names| => (context, names[k]))
  }

  lemma TaggedAppend(context: string, names: seq<string>, name: string)
    ensures Tagged(context, names + [name]) == Tagged(context, names) + [(context, name)]
  {
  }

  /** The `(path, name)` pairs `_check` collects from a value, in traversal order. */
  function Unresolved(v: Value, path: string): seq<(string, string)>
    decreases v, 1
  {
    match v
    case Str(s) => Tagged(Context(path), Placeholders(s))
    case Obj(fields) => Flatten(FieldParts(fields, path))
    case Arr(items) => Flatten(ItemParts(items, path))
    case _ => []
  }

  /** What each entry of a mapping contributes, under `path.key`. */
  function FieldParts(fields: seq<(string, Value)>, path: string): seq<seq<(string, string)>>
    decreases Obj(fields), 0
  {
    seq(|fields|, k requires 0 <= k < |fields| => Unresolved(fields[k].1, KeyPath(path, fields[k].0)))
  }

  /** What each item of a list contributes, under `path[index]`. */
  function ItemParts(items: seq<Value>, path: string): seq<seq<(string, string)>>
    decreases Arr(items), 0
  {
    seq(|items|, k requires 0 <= k < |items| => Unresolved(items[k], IndexPath(path, k)))
  }

  const PlaceholderAbort := "API-Aufruf aufgrund unaufgelöster Platzhalter abgebrochen: "

  function UnresolvedMessage(found: seq<(string, string)>, payloadHash: string): string {
    PlaceholderAbort
      + Join(", ", seq(|found|, k requires 0 <= k < |found| => found[k].0 + " -> " + found[k].1))
      + " (Payload-Hash: " + payloadHash + ")"
  }

  /** The verdict of `_sanitise_payload`: pass, or the error listing every finding. */
  function Sanitised(payload: Value, payloadHash: string): Outcome<string> {
    var found := Unresolved(payload, "");
    if found == [] then Pass else Fail(UnresolvedMessage(found, payloadHash))
  }

  /** The `unresolved` list that the recursive `_check` closure appends to. */
  class Sanitiser {
    var unresolved: seq<(string, string)>

    constructor ()
      ensures unresolved == []
    {
      unresolved := [];
    }

    /** The `finditer` loop over one string; a match resumes the scan after its closing brace. */
    method CheckString(s: string, path: string)
      modifies this
      ensures unresolved == old(unresolved) + Tagged(Context(path), Placeholders(s))
    {
      var i := 0;
      ghost var found: seq<string> := [];
      while i < |s|
        invariant 0 <= i <= |s|
        invariant Placeholders(s) == found + PlaceholdersFrom(s, i)
        invariant unresolved == old(unresolved) + Tagged(Context(path), found)
        decreases |s| - i
      {
        var e := TokenEnd(s, i);
        if e.Some? {
          var name := Strip(s[i + 1..e.value]);
          ScanToken(s, i, found);
          if IsPlaceholderName(name) {
            TaggedAppend(Context(path), found, name);
            unresolved := unresolved + [(Context(path), name)];
            found := found + [name];
          }
          i := e.value + 1;
        } else {
          i := i + 1;
        }
      }
    }

    /** `_check`: strings are scanned, mappings and lists are walked with extended paths. */
    method Check(value: Value, path: string)
      modifies this
      ensures unresolved == old(unresolved) + Unresolved(value, path)
      decreases value, 1
    {
      match value {
        case Str(s) =>
          CheckString(s, path);
        case Obj(fields) =>
          CheckFields(value, fields, path);
        case Arr(items) =>
          CheckItems(value, items, path);
        case _ =>
      }
    }

    /** The loop over the entries of a mapping. */
    method CheckFields(value: Value, fields: seq<(string, Value)>, path: string)
      requires value == Obj(fields)
      modifies this
      ensures unresolved == old(unresolved) + Unresolved(value, path)
      decreases value, 0
    {
      ghost var parts := FieldParts(fields, path);
      for k := 0 to |fields|
        invariant unresolved == old(unresolved) + Flatten(parts[..k])
      {
        Check(fields[k].1, KeyPath(path, fields[k].0));
        FlattenPrefix(parts, k);
        AppendAssoc(old(unresolved), Flatten(parts[..k]), parts[k]);
      }
      assert parts[..|fields|] == parts;
    }

    /** The loop over the items of a list, with their indices. */
    method CheckItems(value: Value, items: seq<Value>, path: string)
      requires value == Arr(items)
      modifies this
      ensures unresolved == old(unresolved) + Unresolved(value, path)
      decreases value, 0
    {
      ghost var parts := ItemParts(items, path);
      for k := 0 to |items|
        invariant unresolved == old(unresolved) + Flatten(parts[..k])
      {
        Check(items[k], IndexPath(path, k));
        FlattenPrefix(parts, k);
        AppendAssoc(old(unresolved), Flatten(parts[..k]), parts[k]);
      }
      assert parts[..|items|] == parts;
    }
  }

  /** `_sanitise_payload`: raises exactly when some string of the payload holds a placeholder. */
  method SanitisePayload(payload: Value, payloadHash: string) returns (o: Outcome<string>)
    ensures o.Pass? <==> Unresolved(payload, "") == []
    ensures o == Sanitised(payload, payloadHash)
  {
    var checker := new Sanitiser();
    checker.Check(payload, "");
    assert checker.unresolved == Unresolved(payload, "");
    if checker.unresolved == [] {
      return Pass;
    }
    return Fail(UnresolvedMessage(checker.unresolved, payloadHash));
  }

  /** A placeholder in any entry of an object makes the whole object fail the check. */
  lemma FieldPlaceholderFound(fields: seq<(string, Value)>, k: nat, path: string)
    requires k < |fields| && Unresolved(fields[k].1, KeyPath(path, fields[k].0)) != []
    ensures Unresolved(Obj(fields), path) != []
  {
    var parts := FieldParts(fields, path);
    assert parts[k] != [];
    FlattenEmpty(parts);
  }

  // ---------------------------------------------------------------------
  // Request construction
  // ---------------------------------------------------------------------

  /** The entries of the `stop` option: the stripped, non-empty stop sequences. */
  function StopOption(stop: seq<string>): seq<Value> {
    if stop == [] then []
    else
      var rest := StopOption(stop[1..]);
      if Strip(stop[0]) == [] then rest else [Str(Strip(stop[0]))] + rest
  }

  /** The four sampling controls `_prepare_options` always sends. */
  function SamplingOptions(p: Params): seq<(string, Value)> {
    [("temperature", Float(p.temperature)), ("top_p", Float(p.topP)),
     ("presence_penalty", Float(p.presencePenalty)), ("frequency_penalty", Float(p.frequencyPenalty))]
  }

  function SeedOption(p: Params): seq<(string, Value)> {
    if p.seed.Some? then [("seed", Int(p.seed.value))] else []
  }

  function PredictOption(p: Params): seq<(string, Value)> {
    if p.numPredict.Some? then [("num_predict", Int(p.numPredict.value))] else []
  }

  /** `_prepare_options` */
  function PrepareOptions(p: Params): seq<(string, Value)> {
    SamplingOptions(p) + SeedOption(p) + PredictOption(p) + [("stop", Arr(StopOption(p.stop)))]
  }

  lemma {:induction false} StopOptionClean(stop: seq<string>)
    ensures forall k :: 0 <= k < |StopOption(stop)| ==>
      StopOption(stop)[k].Str? && StopOption(stop)[k].s != [] && IsStripped(StopOption(stop)[k].s)
  {
    if stop != [] {
      StopOptionClean(stop[1..]);
      StripIsStripped(stop[0]);
    }
  }

  /**
   * The four sampling controls are always sent, seed and `num_predict` only
   * when set, `num_ctx` never, and the stop list holds clean strings only.
   */
  lemma PrepareOptionsSpec(p: Params)
    ensures Lookup(PrepareOptions(p), "temperature") == Some(Float(p.temperature))
    ensures Lookup(PrepareOptions(p), "top_p") == Some(Float(p.topP))
    ensures Lookup(PrepareOptions(p), "presence_penalty") == Some(Float(p.presencePenalty))
    ensures Lookup(PrepareOptions(p), "frequency_penalty") == Some(Float(p.frequencyPenalty))
    ensures Lookup(PrepareOptions(p), "seed") == (if p.seed.Some? then Some(Int(p.seed.value)) else None)
    ensures Lookup(PrepareOptions(p), "num_predict")
      == (if p.numPredict.Some? then Some(Int(p.numPredict.value)) else None)
    ensures Lookup(PrepareOptions(p), "num_ctx") == None
    ensures Lookup(PrepareOptions(p), "stop") == Some(Arr(StopOption(p.stop)))
    ensures forall k :: 0 <= k < |StopOption(p.stop)| ==>
      StopOption(p.stop)[k].Str? && StopOption(p.stop)[k].s != [] && IsStripped(StopOption(p.stop)[k].s)
  {
    StopOptionClean(p.stop);
    OptionsLookup(p, "temperature");
    OptionsLookup(p, "top_p");
    OptionsLookup(p, "presence_penalty");
    OptionsLookup(p, "frequency_penalty");
    OptionsLookup(p, "seed");
    OptionsLookup(p, "num_predict");
    OptionsLookup(p, "num_ctx");
    OptionsLookup(p, "stop");
  }

  lemma OptionsLookup(p: Params, key: string)
    ensures Lookup(PrepareOptions(p), key) ==
      if key == "temperature" then Some(Float(p.temperature))
      else if key == "top_p" then Some(Float(p.topP))
      else if key == "presence_penalty" then Some(Float(p.presencePenalty))
      else if key == "frequency_penalty" then Some(Float(p.frequencyPenalty))
      else if key == "seed" && p.seed.Some? then Some(Int(p.seed.value))
      else if key == "num_predict" && p.numPredict.Some? then Some(Int(p.numPredict.value))
      else if key == "stop" then Some(Arr(StopOption(p.stop)))
      else None
  {
    var stop := [("stop", Arr(StopOption(p.stop)))];
    LookupConcat(SamplingOptions(p) + SeedOption(p) + PredictOption(p), stop, key);
    LookupConcat(SamplingOptions(p) + SeedOption(p), PredictOption(p), key);
    LookupConcat(SamplingOptions(p), SeedOption(p), key);
    SamplingLookup(p, key);
  }

  lemma SamplingLookup(p: Params, key: string)
    ensures Lookup(SamplingOptions(p), key) ==
      if key == "temperature" then Some(Float(p.temperature))
      else if key == "top_p" then Some(Float(p.topP))
      else if key == "presence_penalty" then Some(Float(p.presencePenalty))
      else if key == "frequency_penalty" then Some(Float(p.frequencyPenalty))
      else None
  {
    var s0 := SamplingOptions(p);
    var s1 := s0[1..];
    var s2 := s1[1..];
    var s3 := s2[1..];
    assert s0[0].0 == "temperature" && s1[0].0 == "top_p";
    assert s2[0].0 == "presence_penalty" && s3[0].0 == "frequency_penalty";
    assert s3[1..] == [];
    assert Lookup(s0, key) == if key == "temperature" then Some(s0[0].1) else Lookup(s1, key);
    assert Lookup(s1, key) == if key == "top_p" then Some(s1[0].1) else Lookup(s2, key);
    assert Lookup(s2, key) == if key == "presence_penalty" then Some(s2[0].1) else Lookup(s3, key);
    assert Lookup(s3, key) == if key == "frequency_penalty" then Some(s3[0].1) else Lookup(s3[1..], key);
  }

  const DefaultBaseUrl := "http://localhost:11434"

  predicate IsSlash(c: char) {
    c == '/'
  }

  /** `(base_url or DEFAULT).rstrip("/") + "/api/generate"` */
  function RequestUrl(baseUrl: Option<string>): string {
    var base := if baseUrl.None? || baseUrl.value == [] then DefaultBaseUrl else baseUrl.value;
    TrimRight(base, IsSlash) + "/api/generate"
  }

  /** Trailing slashes of the base URL are dropped, so the endpoint path is never doubled. */
  lemma RequestUrlSlashes(base: string)
    requires base != []
    ensures RequestUrl(Some(base + "/")) == RequestUrl(Some(base))
    ensures RequestUrl(None) == RequestUrl(Some(""))
  {
    assert (base + "/")[..|base|] == base;
  }

  /** The request body: a fresh, empty context and the prepared options. */
  function RequestPayload(model: string, prompt: string, systemPrompt: string, p: Params): Value {
    Obj([("model", Str(model)), ("prompt", Str(prompt)), ("system", Str(systemPrompt)),
         ("stream", Bool(false)), ("context", Arr([])), ("options", Obj(PrepareOptions(p)))])
  }

  // ---------------------------------------------------------------------
  // Response handling
  // ---------------------------------------------------------------------

  /** `_normalise_payload`: a context list is replaced by its length. */
  function NormalisePayload(fields: seq<(string, Value)>): seq<(string, Value)> {
    var context := Lookup(fields, "context");
    if context.Some? && context.value.Arr? then
      Remove(Put(fields, "context_token_count", Int(|context.value.items|)), "context")
    else fields
  }

  lemma NormalisePayloadSpec(fields: seq<(string, Value)>, other: string)
    ensures var c := Lookup(fields, "context");
      if c.Some? && c.value.Arr? then
        && Lookup(NormalisePayload(fields), "context") == None
        && Lookup(NormalisePayload(fields), "context_token_count") == Some(Int(|c.value.items|))
        && (other != "context" && other != "context_token_count" ==>
             Lookup(NormalisePayload(fields), other) == Lookup(fields, other))
      else NormalisePayload(fields) == fields
  {
    var c := Lookup(fields, "context");
    if c.Some? && c.value.Arr? {
      var put := Put(fields, "context_token_count", Int(|c.value.items|));
      LookupPut(fields, "context_token_count", Int(|c.value.items|), other);
      LookupRemove(put, "context", other);
      LookupRemove(put, "context", "context_token_count");
      LookupPut(fields, "context_token_count", Int(|c.value.items|), "context_token_count");
    }
  }

  /** The string `content` of every mapping in a message list, in order. */
  function MessageContents(messages: seq<Value>): string {
    if messages == [] then []
    else EntryContent(messages[0]) + MessageContents(messages[1..])
  }

  /** The string `content` of one message entry, or nothing. */
  function EntryContent(entry: Value): string {
    var content := if entry.Obj? then Lookup(entry.fields, "content") else None;
    if content.Some? && content.value.Str? then content.value.s else []
  }

  /** `_extract_response_fragment` */
  function ExtractResponseFragment(payload: seq<(string, Value)>): string {
    var response := Lookup(payload, "response");
    var message := Lookup(payload, "message");
    var content := if message.Some? && message.value.Obj? then Lookup(message.value.fields, "content") else None;
    var messages := Lookup(payload, "messages");
    if response.Some? && response.value.Str? then response.value.s
    else if content.Some? && content.value.Str? then content.value.s
    else if messages.Some? && messages.value.Arr? then MessageContents(messages.value.items)
    else ""
  }

  /** The message list's text is the texts of its parts, one after the other. */
  lemma {:induction false} MessageContentsAppend(a: seq<Value>, b: seq<Value>)
    ensures MessageContents(a + b) == MessageContents(a) + MessageContents(b)
  {
    if a == [] {
      assert a + b == b;
    } else {
      assert (a + b)[0] == a[0];
      assert (a + b)[1..] == a[1..] + b;
      MessageContentsAppend(a[1..], b);
    }
  }

  /** One entry adds its string `content`, and nothing when it is not a mapping or has none. */
  lemma MessageContentsSingle(m: Value, c: string)
    ensures m.Obj? && Lookup(m.fields, "content") == Some(Str(c)) ==> MessageContents([m]) == c
    ensures !m.Obj? || Lookup(m.fields, "content").None? || !Lookup(m.fields, "content").value.Str? ==>
      MessageContents([m]) == ""
  {
    assert [m][1..] == [];
  }

  /** A string in this slot, as `isinstance(value, str)` tests it. */
  predicate IsStr(v: Option<Value>) {
    v.Some? && v.value.Str?
  }

  /** The `content` of the `message` mapping, if the payload has one. */
  function MessageContent(payload: seq<(string, Value)>): Option<Value> {
    var message := Lookup(payload, "message");
    if message.Some? && message.value.Obj? then Lookup(message.value.fields, "content") else None
  }

  /**
   * A string `response` wins even when empty; otherwise a string
   * `message.content`; otherwise a list `messages` gives the string
   * `content` of its mapping entries joined without separator; anything
   * else gives the empty text.
   */
  lemma ExtractResponseFragmentOrder(payload: seq<(string, Value)>, s: string, c: string)
    ensures Lookup(payload, "response") == Some(Str(s)) ==> ExtractResponseFragment(payload) == s
    ensures !IsStr(Lookup(payload, "response")) && MessageContent(payload) == Some(Str(c))
      ==> ExtractResponseFragment(payload) == c
    ensures !IsStr(Lookup(payload, "response")) && !IsStr(MessageContent(payload))
      && Lookup(payload, "messages").Some? && Lookup(payload, "messages").value.Arr?
      ==> ExtractResponseFragment(payload) == MessageContents(Lookup(payload, "messages").value.items)
    ensures !IsStr(Lookup(payload, "response")) && !IsStr(MessageContent(payload))
      && (Lookup(payload, "messages").None? || !Lookup(payload, "messages").value.Arr?)
      ==> ExtractResponseFragment(payload) == ""
  {
  }

  /** A decoded response object. */
  type Payload = seq<(string, Value)>

  /** `json.loads`: a value, or `None` for a decoding error. */
  type Decoder = string -> Option<Value>

  /** The objects among the non-blank lines of a streamed response. */
  function LinePayloads(lines: seq<string>, decode: Decoder): seq<Payload> {
    if lines == [] then []
    else
      var before := LinePayloads(lines[..|lines| - 1], decode);
      var candidate := Strip(lines[|lines| - 1]);
      var d := if candidate == [] then None else decode(candidate);
      if d.Some? && d.value.Obj? then before + [d.value.fields] else before
  }

  const NotAnObjectMessage := "Ollama-Response hat kein JSON-Objekt geliefert."
  const NoJsonMessage := "Kein gültiges JSON im Ollama-Response gefunden."
  const NoTextMessage := "Ollama-API lieferte keinen Text zurück."

  /** The payloads of a response: the whole text as one object, or else one object per line. */
  function CollectPayloads(text: string, decode: Decoder): Result<seq<Payload>, string> {
    var whole := decode(text);
    if whole.Some? then
      if whole.value.Obj? then Ok([whole.value.fields]) else Err(NotAnObjectMessage)
    else
      var found := LinePayloads(SplitLines(text), decode);
      if found == [] then Err(NoJsonMessage) else Ok(found)
  }

  /** The non-empty fragments of the payloads, in order. */
  function Fragments(payloads: seq<Payload>): seq<string> {
    if payloads == [] then []
    else
      var f := ExtractResponseFragment(payloads[0]);
      (if f == [] then [] else [f]) + Fragments(payloads[1..])
  }

  datatype LlmResult = LlmResult(text: string, raw: Payload)

  function Texts(xs: seq<string>): seq<Value> {
    seq(|xs|, k requires 0 <= k < |xs| => Str(xs[k]))
  }

  /** The text and metadata `_parse_ollama_response` builds from the payloads. */
  function Combine(payloads: seq<Payload>): Result<LlmResult, string>
    requires payloads != []
  {
    var fragments := Fragments(payloads);
    var combined := Strip(Join("", fragments));
    var last := payloads[|payloads| - 1];
    var text := if combined == [] then Strip(ExtractResponseFragment(last)) else combined;
    if text == [] then Err(NoTextMessage)
    else
      var raw := NormalisePayload(last);
      Ok(LlmResult(text, if |fragments| > 1 then Put(raw, "response_fragments", Arr(Texts(fragments))) else raw))
  }

  function ParseResponse(text: string, decode: Decoder): Result<LlmResult, string> {
    var payloads := CollectPayloads(text, decode);
    if payloads.Err? then Err(payloads.error) else Combine(payloads.value)
  }

  /** `_parse_ollama_response` */
  method ParseOllamaResponse(text: string, decode: Decoder) returns (r: Result<LlmResult, string>)
    ensures r == ParseResponse(text, decode)
  {
    var payloads: seq<Payload> := [];
    var whole := decode(text);
    if whole.Some? {
      if !whole.value.Obj? {
        return Err(NotAnObjectMessage);
      }
      payloads := [whole.value.fields];
    } else {
      var lines := SplitLines(text);
      for i := 0 to |lines|
        invariant payloads == LinePayloads(lines[..i], decode)
      {
        assert lines[..i + 1][..i] == lines[..i];
        var candidate := Strip(lines[i]);
        if candidate != [] {
          var d := decode(candidate);
          if d.Some? && d.value.Obj? {
            payloads := payloads + [d.value.fields];
          }
        }
      }
      assert lines[..|lines|] == lines;
      if payloads == [] {
        return Err(NoJsonMessage);
      }
    }
    return Combine(payloads);
  }

  lemma {:induction false} FragmentsNonEmpty(payloads: seq<Payload>)
    ensures forall k :: 0 <= k < |Fragments(payloads)| ==> Fragments(payloads)[k] != []
  {
    if payloads != [] {
      FragmentsNonEmpty(payloads[1..]);
    }
  }

  lemma {:induction false} FragmentsLast(payloads: seq<Payload>)
    requires payloads != [] && ExtractResponseFragment(payloads[|payloads| - 1]) != []
    ensures Fragments(payloads) != []
    ensures Fragments(payloads)[|Fragments(payloads)| - 1] == ExtractResponseFragment(payloads[|payloads| - 1])
  {
    if |payloads| > 1 {
      assert payloads[1..][|payloads[1..]| - 1] == payloads[|payloads| - 1];
      FragmentsLast(payloads[1..]);
    }
  }

  lemma {:induction false} JoinEmptyLast(parts: seq<string>) returns (front: string)
    requires parts != []
    ensures Join("", parts) == front + parts[|parts| - 1]
  {
    if |parts| == 1 {
      front := [];
      assert Join("", parts) == [] + parts[0];
    } else {
      var init := parts[..|parts| - 1];
      assert parts == init + [parts[|parts| - 1]];
      JoinAppend("", init, parts[|parts| - 1]);
      front := Join("", init);
      assert Join("", parts) == Join("", init) + parts[|parts| - 1];
    }
  }

  /**
   * The fallback to the last payload's fragment never yields text: whenever
   * the combined fragments strip to nothing, so does that fragment.
   */
  lemma FallbackRedundant(payloads: seq<Payload>)
    requires payloads != []
    requires Strip(Join("", Fragments(payloads))) == []
    ensures Strip(ExtractResponseFragment(payloads[|payloads| - 1])) == []
  {
    var e := ExtractResponseFragment(payloads[|payloads| - 1]);
    if e != [] {
      FragmentsLast(payloads);
      var fs := Fragments(payloads);
      var front := JoinEmptyLast(fs);
      StripEmptyIffSpace(Join("", fs));
      forall k | 0 <= k < |e| ensures IsSpace(e[k]) {
        assert e[k] == Join("", fs)[|front| + k];
      }
      StripEmptyIffSpace(e);
    }
  }

  /**
   * A parsed response has non-empty, stripped text: the stripped
   * concatenation of the fragments. The metadata is the last payload
   * without its context, plus the fragments when there were several.
   */
  lemma CombineSpec(payloads: seq<Payload>)
    requires payloads != []
    ensures var r := Combine(payloads);
      var fragments := Fragments(payloads);
      var raw := NormalisePayload(payloads[|payloads| - 1]);
      && (r.Ok? <==> Strip(Join("", fragments)) != [])
      && (r.Ok? ==> r.value.text == Strip(Join("", fragments)) && IsStripped(r.value.text))
      && (r.Ok? && |fragments| > 1 ==>
           r.value.raw == Put(raw, "response_fragments", Arr(Texts(fragments)))
           && Lookup(r.value.raw, "response_fragments") == Some(Arr(Texts(fragments))))
      && (r.Ok? && |fragments| <= 1 ==> r.value.raw == raw)
      && (r.Err? ==> r.error == NoTextMessage)
  {
    var fragments := Fragments(payloads);
    StripIsStripped(Join("", fragments));
    if Strip(Join("", fragments)) == [] {
      FallbackRedundant(payloads);
    }
    var raw := NormalisePayload(payloads[|payloads| - 1]);
    LookupPut(raw, "response_fragments", Arr(Texts(fragments)), "");
  }

  // ---------------------------------------------------------------------
  // Provider dispatch
  // ---------------------------------------------------------------------

  /** What the HTTP exchange gives back: no connection, undecodable bytes, or a body. */
  datatype Reply = Unreachable(reason: string) | Undecodable | Body(text: string)

  /** The network call: the URL and JSON payload of a POST request. */
  type Transport = (string, Value) -> Reply

  const UninterpretableMessage := "Antwort der Ollama-API konnte nicht interpretiert werden."

  const UnreachableLead := "Ollama konnte nicht erreicht werden: "

  /** The Ollama call after dispatch: build, check, send, read. */
  function GenerateWithOllama(model: string, prompt: string, systemPrompt: string, p: Params,
                              baseUrl: Option<string>, hash: Value -> string,
                              send: Transport, decode: Decoder): Result<LlmResult, string>
  {
    var payload := RequestPayload(model, prompt, systemPrompt, p);
    var check := Sanitised(payload, hash(payload));
    if check.Fail? then Err(check.error)
    else
      match send(RequestUrl(baseUrl), payload)
      case Unreachable(reason) => Err(UnreachableLead + reason)
      case Undecodable => Err(UninterpretableMessage)
      case Body(text) =>
        var r := ParseResponse(text, decode);
        if r.Err? then Err(UninterpretableMessage) else r
  }

  const ProviderLead := "LLM-Anbieter '"
  const ProviderTail := "' wird derzeit nicht unterstützt."
  const NoModelMessage := "Kein Ollama-Modell ausgewählt."

  /** `generate_text`: only the Ollama provider, and only with a model, gets as far as a request. */
  function GenerateText(provider: string, model: Option<string>, prompt: string, systemPrompt: string,
                        p: Params, baseUrl: Option<string>, hash: Value -> string,
                        send: Transport, decode: Decoder): Result<LlmResult, string>
  {
    if Lower(Strip(provider)) != "ollama" then
      Err(ProviderLead + provider + ProviderTail)
    else if model.None? || model.value == [] then Err(NoModelMessage)
    else GenerateWithOllama(model.value, prompt, systemPrompt, p, baseUrl, hash, send, decode)
  }

  /** Providers other than Ollama, and a missing model, fail without a request. */
  lemma GenerateTextDispatch(provider: string, model: Option<string>, prompt: string, systemPrompt: string,
                             p: Params, baseUrl: Option<string>, hash: Value -> string,
                             send: Transport, send': Transport, decode: Decoder)
    ensures Lower(Strip(provider)) != "ollama" ==>
      GenerateText(provider, model, prompt, systemPrompt, p, baseUrl, hash, send, decode)
        == Err(ProviderLead + provider + ProviderTail)
    ensures Lower(Strip(provider)) == "ollama" && (model.None? || model.value == []) ==>
      GenerateText(provider, model, prompt, systemPrompt, p, baseUrl, hash, send, decode)
        == Err(NoModelMessage)
    ensures Lower(Strip(provider)) != "ollama" || model.None? || model.value == [] ==>
      GenerateText(provider, model, prompt, systemPrompt, p, baseUrl, hash, send, decode)
        == GenerateText(provider, model, prompt, systemPrompt, p, baseUrl, hash, send', decode)
  {
  }

  /** A placeholder left in the prompt aborts the call before anything is sent. */
  lemma PromptPlaceholderBlocks(model: string, prompt: string, systemPrompt: string, p: Params,
                                baseUrl: Option<string>, hash: Value -> string,
                                send: Transport, send': Transport, decode: Decoder)
    requires Placeholders(prompt) != []
    ensures GenerateWithOllama(model, prompt, systemPrompt, p, baseUrl, hash, send, decode).Err?
    ensures GenerateWithOllama(model, prompt, systemPrompt, p, baseUrl, hash, send, decode)
      == GenerateWithOllama(model, prompt, systemPrompt, p, baseUrl, hash, send', decode)
  {
    var payload := RequestPayload(model, prompt, systemPrompt, p);
    var fields := payload.fields;
    assert fields[1] == ("prompt", Str(prompt));
    assert Unresolved(Str(prompt), KeyPath("", "prompt")) == Tagged("prompt", Placeholders(prompt));
    FieldPlaceholderFound(fields, 1, "");
  }
}
