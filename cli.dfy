/**
 * The command line's argument normalisers (`cli.py`): the `argparse` type
 * functions for booleans, keyword lists, register, language variant and
 * iteration count; the translation of a JSON settings file into extra
 * command-line tokens for `automatikmodus`; and the progress printer that
 * counts completed workflow steps.
 */
module Cli {
  import opened Common
  import opened Strings
  import opened Numerals
  import opened Json
  import opened WordSplit

  /** `argparse.ArgumentTypeError` from a type function, or the CLI's `_InputFileError`. */
  datatype CliError = ArgumentTypeError(message: string) | InputFileError(message: string)

  // ---------------------------------------------------------------------
  // Booleans
  // ---------------------------------------------------------------------

  const Truthy: set<string> := {"true", "1", "yes", "ja"}
  const Falsy: set<string> := {"false", "0", "no", "nein"}
  const BoolMessage := "Wert muss 'ja'/'nein' beziehungsweise 'true'/'false' sein."

  /** `_parse_bool`: the trimmed, lower-cased value must name a truth value. */
  function ParseBool(v: string): (r: Result<bool, CliError>)
    ensures r == Ok(true) <==> Lower(Strip(v)) in Truthy
    ensures r == Ok(false) <==> Lower(Strip(v)) in Falsy
    ensures r.Err? <==> Lower(Strip(v)) !in Truthy + Falsy
  {
    var n := Lower(Strip(v));
    if n in Truthy then Ok(true)
    else if n in Falsy then Ok(false)
    else Err(ArgumentTypeError(BoolMessage))
  }

  function BoolText(b: bool): string {
    if b then "true" else "false"
  }

  /** The spelling the settings file translation writes is read back as the same truth value. */
  lemma ParseBoolText(b: bool)
    ensures ParseBool(BoolText(b)) == Ok(b)
  {
    StripOfStripped(BoolText(b));
    assert Lower("true") == "true";
    assert Lower("false") == "false";
  }

  /** Case and surrounding whitespace do not matter: " JA " is yes. */
  lemma ParseBoolPadded()
    ensures ParseBool(" JA ") == Ok(true)
  {
    StripPaddedJa();
    assert Lower("JA") == "ja";
  }

  lemma StripPaddedJa()
    ensures Strip(" JA ") == "JA"
  {
    var front, back := StripSplit(" JA ");
    assert |front| == 1 && |back| == 1;
  }

  /** "Nein" is no. */
  lemma ParseBoolNein()
    ensures ParseBool("Nein") == Ok(false)
  {
    StripOfStripped("Nein");
    assert Lower("Nein") == "nein";
  }

  /** A word outside both lists is refused. */
  lemma ParseBoolUnknown()
    ensures ParseBool("vielleicht").Err?
  {
    StripOfStripped("vielleicht");
    assert Lower("vielleicht") == "vielleicht";
  }

  // ---------------------------------------------------------------------
  // Keyword lists
  // ---------------------------------------------------------------------

  /**
   * `_parse_keywords`: the comma-separated pieces, stripped, without blanks
   * and without repeats that differ only in case; the first spelling wins.
   */
  function Keywords(v: string): seq<string> {
    if v == [] then [] else DedupFrom(NonBlankStrips(SplitOn(v, ',')), {})
  }

  /** The loop of `_parse_keywords` with its `seen` set of lower-cased keywords. */
  method ParseKeywords(v: string) returns (keywords: seq<string>)
    ensures keywords == Keywords(v)
  {
    if v == [] {
      return [];
    }
    keywords := [];
    var seen: set<string> := {};
    var pieces := SplitOn(v, ',');
    for i := 0 to |pieces|
      invariant Keywords(v) == keywords + DedupFrom(NonBlankStrips(pieces[i..]), seen)
    {
      assert pieces[i..][1..] == pieces[i + 1..];
      var rest := NonBlankStrips(pieces[i + 1..]);
      var cleaned := Strip(pieces[i]);
      if cleaned != [] {
        assert NonBlankStrips(pieces[i..]) == [cleaned] + rest;
        assert ([cleaned] + rest)[1..] == rest;
        var lowered := Lower(cleaned);
        if lowered !in seen {
          seen := seen + {lowered};
          keywords := keywords + [cleaned];
        }
      }
    }
    assert pieces[|pieces|..] == [];
  }

  predicate IsKeyword(k: string) {
    k != [] && IsStripped(k) && ',' !in k
  }

  lemma SubsequenceMembers(a: seq<string>, b: seq<string>, x: string)
    requires IsSubsequence(a, b) && x in a
    ensures x in b
    decreases |b|
  {
    if a[0] != b[0] {
      SubsequenceMembers(a, b[1..], x);
    } else if x != a[0] {
      assert x in a[1..];
      SubsequenceMembers(a[1..], b[1..], x);
    }
  }

  /**
   * Every keyword is non-empty, stripped and comma-free; no two are equal
   * ignoring case; they keep the order of the input pieces; and the first
   * spelling of every piece is among them.
   */
  lemma KeywordsShape(v: string)
    ensures v == [] ==> Keywords(v) == []
    ensures forall i :: 0 <= i < |Keywords(v)| ==> IsKeyword(Keywords(v)[i])
    ensures NoCaseDuplicates(Keywords(v))
    ensures v != [] ==> IsSubsequence(Keywords(v), NonBlankStrips(SplitOn(v, ',')))
    ensures v != [] ==> forall i :: (0 <= i < |NonBlankStrips(SplitOn(v, ','))| &&
                                     (forall j :: 0 <= j < i ==>
                                        Lower(NonBlankStrips(SplitOn(v, ','))[j]) !=
                                        Lower(NonBlankStrips(SplitOn(v, ','))[i]))) ==>
                                    NonBlankStrips(SplitOn(v, ','))[i] in Keywords(v)
  {
    if v != [] {
      var pieces := SplitOn(v, ',');
      var nb := NonBlankStrips(pieces);
      SplitOnAvoids(v, ',', ',');
      NonBlankStripsShape(pieces, ',');
      DedupCorrect(nb, {});
      var ks := Keywords(v);
      forall i | 0 <= i < |ks| ensures IsKeyword(ks[i]) {
        SubsequenceMembers(ks, nb, ks[i]);
        var j :| 0 <= j < |nb| && nb[j] == ks[i];
      }
      forall i | 0 <= i < |nb| && (forall j :: 0 <= j < i ==> Lower(nb[j]) != Lower(nb[i]))
        ensures nb[i] in ks
      {
        DedupKeepsFirst(nb, {}, i);
      }
    }
  }

  /** Keywords joined by ", " after leading whitespace are split back into themselves. */
  lemma {:induction false} KeywordPieces(w: string, ks: seq<string>)
    requires AllSpace(w) && ks != []
    requires forall i :: 0 <= i < |ks| ==> IsKeyword(ks[i])
    ensures NonBlankStrips(SplitOn(w + Join(", ", ks), ',')) == ks
    decreases |ks|
  {
    var k := ks[0];
    assert ',' !in w by {
      assert forall i :: 0 <= i < |w| ==> w[i] != ',';
    }
    assert ',' !in w + k;
    StripSpacePrefix(w, k);
    StripOfStripped(k);
    if |ks| == 1 {
      assert w + Join(", ", ks) == w + k;
      SplitOnWithout(w + k, ',');
      assert NonBlankStrips([w + k]) == [k] + NonBlankStrips([]);
    } else {
      var rest := " " + Join(", ", ks[1..]);
      assert w + Join(", ", ks) == (w + k) + [','] + rest;
      SplitOnAt(w + k, ',', rest);
      var pieces := [w + k] + SplitOn(rest, ',');
      assert pieces[1..] == SplitOn(rest, ',');
      assert AllSpace(" ");
      KeywordPieces(" ", ks[1..]);
      assert NonBlankStrips(pieces) == [k] + ks[1..];
    }
  }

  lemma JoinStartsWith(sep: string, parts: seq<string>)
    requires parts != []
    ensures |Join(sep, parts)| >= |parts[0]|
  {
  }

  /**
   * Re-parsing the comma-joined keywords gives the same list: what
   * `_format_keywords_argument` writes, `_parse_keywords` reads back.
   */
  lemma KeywordsRoundTrip(v: string)
    ensures Keywords(Join(", ", Keywords(v))) == Keywords(v)
  {
    var ks := Keywords(v);
    KeywordsShape(v);
    if ks != [] {
      var j := Join(", ", ks);
      JoinStartsWith(", ", ks);
      assert IsKeyword(ks[0]);
      assert "" + j == j;
      KeywordPieces("", ks);
      DedupIdentity(ks, {});
    }
  }

  // ---------------------------------------------------------------------
  // Register and language variant
  // ---------------------------------------------------------------------

  /** `REGISTER_ALIASES`: lower-cased spelling to canonical form. */
  const RegisterAliases: map<string, string> := map["sie" := "Sie", "du" := "Du"]
  const Variants: set<string> := {"DE-DE", "DE-AT", "DE-CH"}

  const RegisterLead := "Ungültiges Register '"
  const RegisterAllowed := "'. Erlaubt sind: Du, Sie."

  /** `_parse_register`: blank is "" (no choice), "sie"/"du" in any case are canonical. */
  function ParseRegister(v: string): (r: Result<string, CliError>)
    ensures r.Ok? ==> r.value in {"", "Sie", "Du"}
    ensures r.Ok? && r.value != "" ==>
      Lower(Strip(v)) in RegisterAliases && r.value == RegisterAliases[Lower(Strip(v))]
    ensures Strip(v) == [] ==> r == Ok("")
    ensures r.Err? <==> Strip(v) != [] && Lower(Strip(v)) !in RegisterAliases
  {
    var t := Strip(v);
    if t == [] then Ok("")
    else
      var n := Lower(t);
      if n in RegisterAliases then Ok(RegisterAliases[n])
      else Err(ArgumentTypeError(RegisterLead + t + RegisterAllowed))
  }

  /** Normalising a register twice changes nothing. */
  lemma ParseRegisterIdempotent(v: string)
    requires ParseRegister(v).Ok?
    ensures ParseRegister(ParseRegister(v).value) == ParseRegister(v)
  {
    StripOfStripped("Sie");
    StripOfStripped("Du");
    assert Lower("Sie") == "sie";
    assert Lower("Du") == "du";
  }

  /** "  SIE " is the polite register. */
  lemma ParseRegisterPadded()
    ensures ParseRegister("  SIE ") == Ok("Sie")
  {
    StripPaddedSie();
    assert Lower("SIE") == "sie";
  }

  /** A word that is neither register is refused. */
  lemma ParseRegisterUnknown()
    ensures ParseRegister("freundschaftlich").Err?
  {
    StripOfStripped("freundschaftlich");
    assert Lower("freundschaftlich") == "freundschaftlich";
  }

  lemma StripPaddedSie()
    ensures Strip("  SIE ") == "SIE"
  {
    var front, back := StripSplit("  SIE ");
    assert |front| == 2 && |back| == 1;
  }

  const VariantLead := "Ungültige Sprachvariante '"
  const VariantAllowed := "'. Erlaubt sind: DE-AT, DE-CH, DE-DE."

  /** `_parse_variant`: blank is "", otherwise the upper-cased value must be a known variant. */
  function ParseVariant(v: string): (r: Result<string, CliError>)
    ensures r.Ok? ==> r.value == "" || r.value in Variants
    ensures r.Ok? && r.value != "" ==> r.value == Upper(Strip(v))
    ensures Strip(v) == [] ==> r == Ok("")
    ensures r.Err? <==> Strip(v) != [] && Upper(Strip(v)) !in Variants
  {
    var t := Strip(v);
    if t == [] then Ok("")
    else
      var n := Upper(t);
      if n in Variants then Ok(n)
      else Err(ArgumentTypeError(VariantLead + t + VariantAllowed))
  }

  lemma UpperOfVariant(s: string)
    requires s in Variants
    ensures Upper(s) == s && Strip(s) == s
  {
    VariantShape(s);
    UpperOfCode(s);
  }

  /** Every variant is `DE-` followed by two capital letters. */
  lemma VariantShape(s: string)
    requires s in Variants
    ensures |s| == 5 && s[0] == 'D' && s[1] == 'E' && s[2] == '-' && 'A' <= s[3] <= 'Z' && 'A' <= s[4] <= 'Z'
  {
  }

  /** A code of the shape `DE-XY` is already upper-case and stripped. */
  lemma UpperOfCode(s: string)
    requires |s| == 5 && s[0] == 'D' && s[1] == 'E' && s[2] == '-' && 'A' <= s[3] <= 'Z' && 'A' <= s[4] <= 'Z'
    ensures Upper(s) == s && Strip(s) == s
  {
    assert !IsSpace(s[0]) && !IsSpace(s[4]);
    StripOfStripped(s);
    assert forall i :: 0 <= i < |s| ==> !IsLowerChar(s[i]);
    UpperOfUpper(s);
  }

  /** Normalising a variant twice changes nothing. */
  lemma ParseVariantIdempotent(v: string)
    requires ParseVariant(v).Ok?
    ensures ParseVariant(ParseVariant(v).value) == ParseVariant(v)
  {
    var r := ParseVariant(v).value;
    if r != "" {
      UpperOfVariant(r);
    }
  }

  /** "de-at" is the Austrian variant. */
  lemma ParseVariantAustria()
    ensures ParseVariant("de-at") == Ok("DE-AT")
  {
    StripOfStripped("de-at");
    UpperDeAt();
  }

  /** "de-lu" is not a supported variant. */
  lemma ParseVariantUnknown()
    ensures ParseVariant("de-lu").Err?
  {
    StripOfStripped("de-lu");
    UpperDeLu();
  }

  lemma UpperDeAt()
    ensures Upper("de-at") == "DE-AT"
  {
    assert "de-at"[1..] == "e-at" && "e-at"[1..] == "-at" && "-at"[1..] == "at" && "at"[1..] == "t";
  }

  lemma UpperDeLu()
    ensures Upper("de-lu") == "DE-LU"
  {
    assert "de-lu"[1..] == "e-lu" && "e-lu"[1..] == "-lu" && "-lu"[1..] == "lu" && "lu"[1..] == "u";
  }

  // ---------------------------------------------------------------------
  // Iteration count
  // ---------------------------------------------------------------------

  const IterationsEmpty := "Anzahl der Iterationen darf nicht leer sein."
  const IterationsNotInteger := "Anzahl der Iterationen muss eine Ganzzahl sein."
  const IterationsNegative := "Anzahl der Iterationen darf nicht negativ sein."

  /** `_parse_iterations`: a non-blank, non-negative integer. */
  function ParseIterations(v: string): (r: Result<int, CliError>)
    ensures Strip(v) == [] ==> r == Err(ArgumentTypeError("Anzahl der Iterationen darf nicht leer sein."))
    ensures r.Ok? ==> r.value >= 0 && ParseInt(v) == Some(r.value)
    ensures ParseInt(v).Some? && ParseInt(v).value < 0 ==> r.Err?
    ensures ParseInt(v).None? ==> r.Err?
  {
    var t := Strip(v);
    if t == [] then Err(ArgumentTypeError(IterationsEmpty))
    else
      var p := ParseInt(v);
      if p.None? then Err(ArgumentTypeError(IterationsNotInteger))
      else if p.value < 0 then Err(ArgumentTypeError(IterationsNegative))
      else Ok(p.value)
  }

  /** A count written in decimal is read back; a negative one is refused as negative. */
  lemma ParseIterationsOfInt(n: int)
    ensures n >= 0 ==> ParseIterations(IntToString(n)) == Ok(n)
    ensures n < 0 ==> ParseIterations(IntToString(n)) ==
                      Err(ArgumentTypeError(IterationsNegative))
  {
    IntStringStripped(n);
    StripOfStripped(IntToString(n));
    IntRoundTrip(n);
  }

  // ---------------------------------------------------------------------
  // Settings files for automatikmodus
  // ---------------------------------------------------------------------

  const InputFlag := "--input-file"

  /** `_CLI_OPTION_MAP`: settings-file key to command-line option. */
  const OptionMap: map<string, string> := map[
    "title" := "--title",
    "content" := "--content",
    "text_type" := "--text-type",
    "word_count" := "--word-count",
    "iterations" := "--iterations",
    "llm_provider" := "--llm-provider",
    "audience" := "--audience",
    "tone" := "--tone",
    "register" := "--register",
    "variant" := "--variant",
    "constraints" := "--constraints",
    "sources_allowed" := "--sources-allowed",
    "seo_keywords" := "--seo-keywords",
    "include_compliance_note" := "--compliance-hint",
    "config" := "--config",
    "output_dir" := "--output-dir",
    "logs_dir" := "--logs-dir",
    "ollama_model" := "--ollama-model",
    "ollama_base_url" := "--ollama-base-url"
  ]

  /** `_REQUIRED_SETTINGS`: keys that may not be null in a settings file. */
  const RequiredSettings: set<string> := {"title", "content", "text_type", "word_count"}

  const NotBooleanTail := "' muss boolesch sein (true/false)."

  /** `_coerce_bool_from_input`: a JSON boolean, or a string `_parse_bool` accepts. */
  function CoerceBool(key: string, v: Value): (r: Result<bool, CliError>)
    ensures v.Bool? ==> r == Ok(v.b)
    ensures v.Str? ==> r == ParseBool(v.s)
    ensures !v.Bool? && !v.Str? ==> r.Err? && r.error.InputFileError?
  {
    match v
    case Bool(b) => Ok(b)
    case Str(s) => ParseBool(s)
    case _ => Err(InputFileError("Wert für '" + key + NotBooleanTail))
  }

  /** `str(item)` for each element of a list. */
  function ItemTexts(items: seq<Value>): (r: seq<string>)
    ensures |r| == |items|
  {
    seq(|items|, k requires 0 <= k < |items| => PyStr(items[k]))
  }

  /** The keys of an object, which is what iterating a `dict` yields. */
  function Keys(fields: seq<(string, Value)>): (r: seq<string>)
    ensures |r| == |fields|
  {
    seq(|fields|, k requires 0 <= k < |fields| => fields[k].0)
  }

  const KeywordTypeMessage := "SEO-Schlüsselwörter müssen als String oder Liste angegeben werden."

  /** The keyword list a settings-file value stands for: a string, or an iterable of items. */
  function KeywordList(v: Value): Result<seq<string>, CliError> {
    match v
    case Str(s) => Ok(Keywords(s))
    case Arr(items) => Ok(Keywords(Join(",", ItemTexts(items))))
    case Obj(fields) => Ok(Keywords(Join(",", Keys(fields))))
    case _ => Err(InputFileError(KeywordTypeMessage))
  }

  /** `_format_keywords_argument`: the keyword list joined by ", ". */
  function FormatKeywordsArgument(v: Value): Result<string, CliError> {
    match KeywordList(v)
    case Ok(ks) => Ok(Join(", ", ks))
    case Err(e) => Err(e)
  }

  lemma KeywordListAccepts(v: Value)
    ensures KeywordList(v).Ok? <==> (v.Str? || v.Arr? || v.Obj?)
  {
    match v
    case Str(_) =>
    case Arr(_) =>
    case Obj(_) =>
    case _ =>
  }

  /** The formatted argument parses back to the keyword list of the value. */
  lemma FormatKeywordsReparse(v: Value)
    ensures FormatKeywordsArgument(v).Ok? <==> (v.Str? || v.Arr? || v.Obj?)
    ensures FormatKeywordsArgument(v).Ok? ==>
      Keywords(FormatKeywordsArgument(v).value) == KeywordList(v).value
  {
    KeywordListAccepts(v);
    match v
    case Str(s) => KeywordsRoundTrip(s);
    case Arr(items) => KeywordsRoundTrip(Join(",", ItemTexts(items)));
    case Obj(fields) => KeywordsRoundTrip(Join(",", Keys(fields)));
    case _ =>
  }

  const UnknownSettingLead := "Unbekannte Einstellung '"
  const EmptySettingTail := "' darf nicht leer sein."

  /** `_build_setting_tokens`: the command-line tokens one settings-file entry stands for. */
  function SettingTokens(key: string, v: Value): Result<seq<string>, CliError> {
    if key !in OptionMap then Err(InputFileError(UnknownSettingLead + key + "'."))
    else
      var option := OptionMap[key];
      if v.Null? then
        if key in RequiredSettings then Err(InputFileError("Einstellung '" + key + EmptySettingTail))
        else Ok([])
      else if key == "include_compliance_note" then
        match CoerceBool(key, v)
        case Ok(b) => Ok(if b then [option] else [])
        case Err(e) => Err(e)
      else if key == "sources_allowed" then
        match CoerceBool(key, v)
        case Ok(b) => Ok([option, BoolText(b)])
        case Err(e) => Err(e)
      else if key == "seo_keywords" then
        match FormatKeywordsArgument(v)
        case Ok(f) => Ok([option, f])
        case Err(e) => Err(e)
      else Ok([option, PyStr(v)])
  }

  /**
   * The tokens are the option alone (a flag), the option and a value, or
   * nothing; unknown keys and null required settings are refused; and each
   * value token parses back to what the file said.
   */
  lemma SettingTokensSpec(key: string, v: Value)
    ensures key !in OptionMap ==> SettingTokens(key, v).Err?
    ensures key in RequiredSettings && v.Null? ==> SettingTokens(key, v).Err?
    ensures key in OptionMap && key !in RequiredSettings && v.Null? ==> SettingTokens(key, v) == Ok([])
    ensures SettingTokens(key, v).Ok? ==>
      var t := SettingTokens(key, v).value;
      |t| <= 2 && (t != [] ==> t[0] == OptionMap[key]) &&
      (|t| < 2 <==> key == "include_compliance_note" || v.Null?)
    ensures key == "include_compliance_note" && !v.Null? && SettingTokens(key, v).Ok? ==>
      (SettingTokens(key, v).value != [] <==> CoerceBool(key, v) == Ok(true))
    ensures key == "sources_allowed" && SettingTokens(key, v).Ok? && !v.Null? ==>
      ParseBool(SettingTokens(key, v).value[1]) == CoerceBool(key, v)
    ensures key == "seo_keywords" && SettingTokens(key, v).Ok? && !v.Null? ==>
      Keywords(SettingTokens(key, v).value[1]) == KeywordList(v).value
    ensures v.Int? && key in OptionMap && key != "include_compliance_note" && key != "sources_allowed" &&
            key != "seo_keywords" ==>
      SettingTokens(key, v) == Ok([OptionMap[key], IntToString(v.i)]) &&
      ParseInt(IntToString(v.i)) == Some(v.i)
  {
    if key == "sources_allowed" && CoerceBool(key, v).Ok? {
      ParseBoolText(CoerceBool(key, v).value);
    }
    FormatKeywordsReparse(v);
    if v.Int? {
      IntRoundTrip(v.i);
    }
  }

  /** What reading and decoding the settings file gives. */
  datatype InputFile = Missing | Undecodable(reason: string) | Decoded(data: Value)

  /** The tokens of all entries in file order; the first refused entry fails the whole file. */
  function EntryTokens(fields: seq<(string, Value)>): Result<seq<string>, CliError> {
    if fields == [] then Ok([])
    else
      match SettingTokens(fields[0].0, fields[0].1)
      case Err(e) => Err(e)
      case Ok(t) => Prepend(t, EntryTokens(fields[1..]))
  }

  function Prepend(t: seq<string>, r: Result<seq<string>, CliError>): Result<seq<string>, CliError> {
    match r
    case Ok(ts) => Ok(t + ts)
    case Err(e) => Err(e)
  }

  const FileMissingTail := "' wurde nicht gefunden."
  const FileUnreadableLead := "Einstellungsdatei konnte nicht gelesen werden: "
  const FileNotObject := "Einstellungsdatei muss ein JSON-Objekt enthalten."

  /** `_load_input_file` on the outcome of reading the file at `path`. */
  function FileTokens(path: string, file: InputFile): Result<seq<string>, CliError> {
    match file
    case Missing => Err(InputFileError("Einstellungsdatei '" + path + FileMissingTail))
    case Undecodable(reason) => Err(InputFileError(FileUnreadableLead + reason))
    case Decoded(data) =>
      if data.Obj? then EntryTokens(data.fields)
      else Err(InputFileError(FileNotObject))
  }

  /** The loop of `_load_input_file` that extends the token list entry by entry. */
  method LoadInputFile(path: string, file: InputFile) returns (r: Result<seq<string>, CliError>)
    ensures r == FileTokens(path, file)
  {
    match file
    case Missing =>
      return Err(InputFileError("Einstellungsdatei '" + path + FileMissingTail));
    case Undecodable(reason) =>
      return Err(InputFileError(FileUnreadableLead + reason));
    case Decoded(data) =>
      if !data.Obj? {
        return Err(InputFileError(FileNotObject));
      }
      var fields := data.fields;
      var tokens: seq<string> := [];
      assert fields[0..] == fields;
      PrependNothing(EntryTokens(fields));
      for i := 0 to |fields|
        invariant EntryTokens(fields) == Prepend(tokens, EntryTokens(fields[i..]))
      {
        assert fields[i..][1..] == fields[i + 1..];
        var t := SettingTokens(fields[i].0, fields[i].1);
        if t.Err? {
          return Err(t.error);
        }
        PrependTwice(tokens, t.value, EntryTokens(fields[i + 1..]));
        tokens := tokens + t.value;
      }
      assert fields[|fields|..] == [];
      assert tokens + [] == tokens;
      return Ok(tokens);
  }

  lemma PrependNothing(r: Result<seq<string>, CliError>)
    ensures Prepend([], r) == r
  {
    if r.Ok? {
      assert [] + r.value == r.value;
    }
  }

  lemma PrependTwice(a: seq<string>, b: seq<string>, r: Result<seq<string>, CliError>)
    ensures Prepend(a, Prepend(b, r)) == Prepend(a + b, r)
  {
    if r.Ok? {
      assert a + (b + r.value) == (a + b) + r.value;
    }
  }

  /** Every key of a file that loads is a known option with acceptable values. */
  lemma {:induction false} EntryTokensAccepted(fields: seq<(string, Value)>)
    requires EntryTokens(fields).Ok?
    ensures forall i :: 0 <= i < |fields| ==> SettingTokens(fields[i].0, fields[i].1).Ok?
    ensures forall i :: 0 <= i < |fields| ==> fields[i].0 in OptionMap
  {
    if fields != [] {
      EntryTokensAccepted(fields[1..]);
      forall i | 0 <= i < |fields| ensures SettingTokens(fields[i].0, fields[i].1).Ok? {
        if i > 0 {
          assert fields[i] == fields[1..][i - 1];
        }
      }
      forall i | 0 <= i < |fields| ensures fields[i].0 in OptionMap {
        SettingTokensSpec(fields[i].0, fields[i].1);
      }
    }
  }

  /** The positions of the flag in `xs`, in increasing order. */
  function FlagIndices(xs: seq<string>): seq<nat> {
    if xs == [] then []
    else FlagIndices(xs[..|xs| - 1]) + (if xs[|xs| - 1] == InputFlag then [|xs| - 1] else [])
  }

  /** The positions are exactly those holding the flag, as many as it occurs. */
  lemma FlagIndicesExact(xs: seq<string>)
    ensures forall k :: k in FlagIndices(xs) <==> 0 <= k < |xs| && xs[k] == InputFlag
    ensures |FlagIndices(xs)| == multiset(xs)[InputFlag]
  {
    FlagIndicesMembers(xs);
    FlagIndicesCount(xs);
  }

  lemma {:induction false} FlagIndicesMembers(xs: seq<string>)
    ensures forall k :: k in FlagIndices(xs) <==> 0 <= k < |xs| && xs[k] == InputFlag
  {
    if xs != [] {
      var init := xs[..|xs| - 1];
      FlagIndicesMembers(init);
      forall k ensures k in FlagIndices(xs) <==> 0 <= k < |xs| && xs[k] == InputFlag {
        if 0 <= k < |xs| - 1 {
          assert xs[k] == init[k];
        }
      }
    }
  }

  lemma {:induction false} FlagIndicesCount(xs: seq<string>)
    ensures |FlagIndices(xs)| == multiset(xs)[InputFlag]
  {
    if xs != [] {
      var init := xs[..|xs| - 1];
      FlagIndicesCount(init);
      LastSplit(xs);
    }
  }

  lemma LastSplit(xs: seq<string>)
    requires xs != []
    ensures multiset(xs) == multiset(xs[..|xs| - 1]) + multiset{xs[|xs| - 1]}
  {
    assert xs == xs[..|xs| - 1] + [xs[|xs| - 1]];
  }

  const RepeatedInputFile := "--input-file darf nur einmal angegeben werden."

  /** `_expand_with_input_file` on the arguments and the file system `read` reports. */
  function Expanded(args: seq<string>, read: string -> InputFile): Result<seq<string>, CliError> {
    var indices := FlagIndices(args);
    if args == [] || indices == [] then Ok(args)
    else if |indices| > 1 then Err(InputFileError(RepeatedInputFile))
    else if indices[0] + 1 >= |args| then Ok(args)
    else
      var path := args[indices[0] + 1];
      Spliced(args, FileTokens(path, read(path)))
  }

  /** `values[1:1] = tokens`: the tokens go right after the subcommand. */
  function Spliced(args: seq<string>, tokens: Result<seq<string>, CliError>): Result<seq<string>, CliError> {
    match tokens
    case Ok(t) => if args == [] then Ok(t) else Ok(args[..1] + t + args[1..])
    case Err(e) => Err(e)
  }

  /** The list comprehension over the flag positions, then the splice after the subcommand. */
  method ExpandWithInputFile(args: seq<string>, read: string -> InputFile) returns (r: Result<seq<string>, CliError>)
    ensures r == Expanded(args, read)
  {
    var values := args;
    if values == [] {
      return Ok(values);
    }
    var indices: seq<nat> := [];
    for i := 0 to |values|
      invariant indices == FlagIndices(values[..i])
    {
      assert values[..i + 1][..i] == values[..i];
      if values[i] == InputFlag {
        indices := indices + [i];
      }
    }
    assert values[..|values|] == values;
    if indices == [] {
      return Ok(values);
    }
    if |indices| > 1 {
      return Err(InputFileError(RepeatedInputFile));
    }
    var index := indices[0];
    if index + 1 >= |values| {
      return Ok(values);
    }
    var path := values[index + 1];
    var tokens := LoadInputFile(path, read(path));
    if tokens.Err? {
      return Err(tokens.error);
    }
    values := values[..1] + tokens.value + values[1..];
    return Ok(values);
  }

  /**
   * Without the flag, or with it as the last argument, nothing changes; a
   * repeated flag is refused; otherwise the file's tokens follow the first
   * argument and every original argument stays in place after them.
   */
  lemma ExpandedCases(args: seq<string>, read: string -> InputFile, k: nat)
    ensures InputFlag !in args ==> Expanded(args, read) == Ok(args)
    ensures multiset(args)[InputFlag] >= 2 ==>
      Expanded(args, read) == Err(InputFileError(RepeatedInputFile))
    ensures multiset(args)[InputFlag] == 1 && k < |args| && args[k] == InputFlag ==>
      (k + 1 == |args| ==> Expanded(args, read) == Ok(args)) &&
      (k + 1 < |args| ==>
         Expanded(args, read) == Spliced(args, FileTokens(args[k + 1], read(args[k + 1]))))
  {
    FlagIndicesExact(args);
    var indices := FlagIndices(args);
    assert indices != [] ==> indices[0] in indices;
    if InputFlag !in args {
      assert forall j :: 0 <= j < |args| ==> args[j] != InputFlag;
    }
    if multiset(args)[InputFlag] == 1 && k < |args| && args[k] == InputFlag {
      assert k in indices;
      assert indices[0] == k;
    }
  }

  /** After a successful expansion the arguments are the first one, the tokens, and the rest. */
  lemma ExpandedShape(args: seq<string>, read: string -> InputFile)
    requires Expanded(args, read).Ok?
    ensures args != [] ==> Expanded(args, read).value[..1] == args[..1]
    ensures |Expanded(args, read).value| >= |args|
    ensures args != [] ==>
      var r := Expanded(args, read).value;
      r[|r| - (|args| - 1)..] == args[1..]
  {
  }

  // ---------------------------------------------------------------------
  // Progress output
  // ---------------------------------------------------------------------

  /** `str(event.get(key, ""))` */
  function EventText(event: seq<(string, Value)>, key: string): string {
    match Lookup(event, key)
    case None => ""
    case Some(v) => PyStr(v)
  }

  predicate Completes(status: string) {
    status == "completed" || status == "succeeded"
  }

  /** The count after one event: completing events advance it, up to the total. */
  function CountAfter(completed: int, totalSteps: int, status: string): int {
    if Completes(status) then Min(completed + 1, totalSteps) else completed
  }

  /** The line written for an event, if any. */
  function ProgressLine(status: string, message: string, completed: int, totalSteps: int): Option<string> {
    if status == "started" then Some("[0/" + IntToString(totalSteps) + "] " + message)
    else if Completes(status) then Some("[" + IntToString(completed) + "/" + IntToString(totalSteps) + "] " + message)
    else if status == "failed" then Some("[FEHLER] " + message)
    else if status == "warning" then Some("[WARNUNG] " + message)
    else None
  }

  function Written(line: Option<string>): seq<string> {
    match line
    case None => []
    case Some(l) => [l]
  }

  /** `_ProgressPrinter`: the lines written so far stand for the stream. */
  class ProgressPrinter {
    const totalSteps: int
    var completed: int
    var lines: seq<string>

    ghost predicate Valid()
      reads this
    {
      1 <= totalSteps && 0 <= completed <= totalSteps
    }

    constructor (total: int)
      ensures Valid()
      ensures totalSteps == Max(1, total) && completed == 0 && lines == []
    {
      totalSteps := Max(1, total);
      completed := 0;
      lines := [];
    }

    /** `__call__`: advance the count on a completing event and write its line. */
    method Notify(event: seq<(string, Value)>)
      requires Valid()
      modifies this
      ensures Valid()
      ensures completed == CountAfter(old(completed), totalSteps, EventText(event, "status"))
      ensures lines == old(lines) + Written(ProgressLine(EventText(event, "status"),
                                                         EventText(event, "message"),
                                                         completed, totalSteps))
    {
      var status := EventText(event, "status");
      var message := EventText(event, "message");
      if status == "started" {
        lines := lines + ["[0/" + IntToString(totalSteps) + "] " + message];
        return;
      }
      if status in {"completed", "succeeded"} {
        completed := Min(completed + 1, totalSteps);
        lines := lines + ["[" + IntToString(completed) + "/" + IntToString(totalSteps) + "] " + message];
        return;
      }
      if status == "failed" {
        lines := lines + ["[FEHLER] " + message];
        return;
      }
      if status == "warning" {
        lines := lines + ["[WARNUNG] " + message];
      }
    }
  }

  /** The count after a run of events. */
  function CountAfterAll(completed: int, totalSteps: int, statuses: seq<string>): int
    decreases |statuses|
  {
    if statuses == [] then completed
    else CountAfterAll(CountAfter(completed, totalSteps, statuses[0]), totalSteps, statuses[1..])
  }

  function Completions(statuses: seq<string>): nat {
    if statuses == [] then 0
    else (if Completes(statuses[0]) then 1 else 0) + Completions(statuses[1..])
  }

  /** After any run of events the count is the number of completing events, capped at the total. */
  lemma {:induction false} CountAfterAllCapped(completed: int, totalSteps: int, statuses: seq<string>)
    requires 0 <= completed <= totalSteps
    ensures CountAfterAll(completed, totalSteps, statuses) == Min(completed + Completions(statuses), totalSteps)
    decreases |statuses|
  {
    if statuses != [] {
      CountAfterAllCapped(CountAfter(completed, totalSteps, statuses[0]), totalSteps, statuses[1..]);
    }
  }
}
