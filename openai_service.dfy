/**
 * OpenAIService: builds the prompts, shapes what the completion endpoint
 * returns into a JSON string (`callOpenAI`, `extractJson`), and patches the
 * parsed answer with fixed default values (`enforceFallbacks`).
 *
 * The HTTP exchange itself is a parameter `complete: string -> ProviderReply`;
 * Jackson's parser and pretty printer are the parameters `decode` and `render`.
 */
module OpenAIService {
  import opened Wrappers
  import opened JavaString
  import opened Json

  // =====================================================================
  // Completion client: callOpenAI and extractJson
  // =====================================================================

  /** A string that starts with '{' and ends with '}'. */
  predicate BraceDelimited(s: string)
  {
    |s| > 0 && s[0] == '{' && s[|s| - 1] == '}'
  }

  /**
   * What the POST to the chat-completions endpoint yields: either a body
   * whose "choices" entry is missing (None) or holds the message contents of
   * its choices (each already passed through `String.valueOf`), or an
   * exception with its message.
   */
  datatype ProviderReply =
    | Replied(choices: Option<seq<string>>)
    | Threw(message: string)

  /** The `{"error":"..."}` strings the service returns instead of throwing. */
  function ErrorObject(message: string): (r: string)
    ensures BraceDelimited(r)
  {
    "{\"error\":\"" + message + "\"}"
  }

  const EmptyResponseError: string := ErrorObject("Empty OpenAI response")
  const ExtractFailedError: string := ErrorObject("Failed to extract JSON from response")
  const ApiErrorLead: string := "API Error: "

  /**
   * The string the service returns for a caught exception: the message is
   * embedded after "API Error: " with every double quote turned into a
   * single quote, so the only double quotes are those of the object.
   */
  function ApiError(message: string): (r: string)
    ensures exists embedded ::
      && r == ErrorObject(ApiErrorLead + embedded)
      && |embedded| == |message|
      && '"' !in embedded
      && (forall k :: 0 <= k < |message| && message[k] == '"' ==> embedded[k] == '\'')
      && (forall k :: 0 <= k < |message| && message[k] != '"' ==> embedded[k] == message[k])
  {
    var escaped := ReplaceChar(message, '"', '\'');
    ReplaceCharRemoves(message, '"', '\'');
    ErrorObject(ApiErrorLead + escaped)
  }

  /** The exception `String.substring(begin, end)` throws when `end < begin`. */
  datatype SubstringError = SubstringOutOfBounds(begin: nat, end: nat, length: nat)

  /** Its message, in the wording of JDK 9 through 17. */
  function SubstringMessage(e: SubstringError): string
  {
    "begin " + DecimalString(e.begin) + ", end " + DecimalString(e.end) + ", length " + DecimalString(e.length)
  }

  /**
   * `extractJson`: the slice from the first '{' to the last '}', trimmed; the
   * fixed sentinel when either brace is missing; and the exception of
   * `substring` when the last '}' lies more than one position before the
   * first '{'.
   */
  function ExtractJson(s: string): (r: Result<string, SubstringError>)
    ensures '{' !in s || '}' !in s ==> r == Ok(ExtractFailedError)
    ensures '{' in s && '}' in s && IndexOf(s, '{') < LastIndexOf(s, '}') ==>
      r == Ok(s[IndexOf(s, '{')..LastIndexOf(s, '}') + 1])
    ensures '{' in s && '}' in s && LastIndexOf(s, '}') + 1 == IndexOf(s, '{') ==> r == Ok("")
    ensures '{' in s && '}' in s && LastIndexOf(s, '}') + 1 < IndexOf(s, '{') ==>
      r == Err(SubstringOutOfBounds(IndexOf(s, '{'), LastIndexOf(s, '}') + 1, |s|))
  {
    var objStart := IndexOf(s, '{');
    var objEnd := LastIndexOf(s, '}');
    if objStart != -1 && objEnd != -1 then
      if objStart <= objEnd + 1 then
        var slice := s[objStart..objEnd + 1];
        if objStart < objEnd + 1 then
          TrimKeepsUntrimmableEnds(slice);
          Ok(Trim(slice))
        else
          Ok(Trim(slice))
      else
        Err(SubstringOutOfBounds(objStart, objEnd + 1, |s|))
    else
      Ok(ExtractFailedError)
  }

  /** The first '{' is at or before any '{', the last '}' at or after any '}'. */
  lemma BracesAround(s: string, i: nat, j: nat)
    requires i <= j < |s| && s[i] == '{' && s[j] == '}'
    ensures 0 <= IndexOf(s, '{') <= i < j <= LastIndexOf(s, '}') < |s|
  {
    assert s[i] in s && s[j] in s;
    var a, e := IndexOf(s, '{'), LastIndexOf(s, '}');
    assert forall k :: 0 <= k < a ==> s[..a][k] == s[k];
    assert forall k :: e + 1 <= k < |s| ==> s[e + 1..][k - e - 1] == s[k];
  }

  /**
   * When some '{' comes before some '}', the result is the slice from the
   * first '{' to the last '}': it is brace-delimited, no longer than the
   * input, and the input holds no '{' before it and no '}' after it.
   */
  lemma ExtractJsonSlice(s: string, i: nat, j: nat)
    requires i <= j < |s| && s[i] == '{' && s[j] == '}'
    ensures ExtractJson(s).Ok?
    ensures var v := ExtractJson(s).value;
      && BraceDelimited(v) && |v| <= |s|
      && exists a: nat, b: nat :: a < b <= |s| && v == s[a..b] && '{' !in s[..a] && '}' !in s[b..]
  {
    BracesAround(s, i, j);
    var a, e := IndexOf(s, '{'), LastIndexOf(s, '}');
    var v := s[a..e + 1];
    assert ExtractJson(s) == Ok(v);
    assert v[0] == s[a] && v[|v| - 1] == s[e];
    assert v == s[a..e + 1] && '{' !in s[..a] && '}' !in s[e + 1..];
  }

  /** Every successful non-empty result of `extractJson` is brace-delimited. */
  lemma ExtractJsonOkShape(s: string)
    requires ExtractJson(s).Ok? && ExtractJson(s).value != ""
    ensures BraceDelimited(ExtractJson(s).value)
  {
    if '{' in s && '}' in s {
      var a, e := IndexOf(s, '{'), LastIndexOf(s, '}');
      if a < e {
        assert s[a..e + 1][0] == s[a];
      }
    }
  }

  /** `extractJson` returns a brace-delimited string unchanged. */
  lemma ExtractJsonOfDelimited(v: string)
    requires BraceDelimited(v)
    ensures ExtractJson(v) == Ok(v)
  {
    var a, e := IndexOf(v, '{'), LastIndexOf(v, '}');
    assert a == 0;
    assert e == |v| - 1;
    assert v[a..e + 1] == v;
  }

  /** `extractJson` is idempotent on its own non-empty output. */
  lemma ExtractJsonIdempotent(s: string)
    requires ExtractJson(s).Ok? && ExtractJson(s).value != ""
    ensures ExtractJson(ExtractJson(s).value) == ExtractJson(s)
  {
    ExtractJsonOkShape(s);
    ExtractJsonOfDelimited(ExtractJson(s).value);
  }

  /**
   * A JSON object surrounded by prose without braces is extracted exactly,
   * whatever the prose says.
   */
  lemma ExtractJsonAround(before: string, obj: string, after: string)
    requires '{' !in before && '}' !in after
    requires BraceDelimited(obj)
    ensures ExtractJson(before + obj + after) == Ok(obj)
  {
    var s := before + obj + after;
    var i, j := |before|, |before| + |obj| - 1;
    assert s[i] == '{' && s[j] == '}';
    assert s[..i] == before;
    assert s[j + 1..] == after;
    var a, e := IndexOf(s, '{'), LastIndexOf(s, '}');
    assert s[a..e + 1] == obj;
  }

  /**
   * `callOpenAI` after the HTTP exchange: the empty-response sentinel when
   * there are no choices, the extracted JSON of the first choice's trimmed
   * content, or the API-error string for any exception (the exchange's own
   * or the one `substring` throws inside `extractJson`).
   */
  function CallOpenAI(reply: ProviderReply): (r: string)
    ensures reply.Replied? && (reply.choices.None? || reply.choices.value == []) ==> r == EmptyResponseError
    ensures reply.Threw? ==> r == ApiError(reply.message)
    ensures reply.Replied? && reply.choices.Some? && reply.choices.value != [] ==>
      match ExtractJson(Trim(reply.choices.value[0]))
      case Ok(v) => r == v
      case Err(e) => r == ApiError(SubstringMessage(e))
  {
    match reply
    case Threw(message) => ApiError(message)
    case Replied(choices) =>
      if choices.None? || |choices.value| == 0 then EmptyResponseError
      else
        match ExtractJson(Trim(choices.value[0]))
        case Ok(v) => v
        case Err(e) => ApiError(SubstringMessage(e))
  }

  /** Whatever the provider does, `callOpenAI` yields "" or a brace-delimited string. */
  lemma CallOpenAIShape(reply: ProviderReply)
    ensures var r := CallOpenAI(reply); r == "" || BraceDelimited(r)
  {
    var r := CallOpenAI(reply);
    if reply.Replied? && reply.choices.Some? && reply.choices.value != [] {
      var t := Trim(reply.choices.value[0]);
      if ExtractJson(t).Ok? && ExtractJson(t).value != "" {
        ExtractJsonOkShape(t);
      }
    }
  }

  // =====================================================================
  // Response normaliser: enforceFallbacks and enforceArrayDefault
  // =====================================================================

  /** The mode test of the service: `"candidate".equalsIgnoreCase(mode)`. */
  predicate IsCandidate(mode: string)
  {
    EqualsIgnoreCase("candidate", mode)
  }

  const StrongPointsFallback: string := "Possesses significant experience or background worth building upon"
  const WeakPointsFallback: string := "Lacks some role-specific tools or certifications"

  /** The two top-level array fields, with their fallback sentences, in the order they are enforced. */
  const PointDefaults: seq<(string, string)> :=
    [("strong_points", StrongPointsFallback), ("weak_points", WeakPointsFallback)]

  /** The five recommendation sub-keys, with their fallback strings, in the order they are enforced. */
  const RecommendationDefaults: seq<(string, string)> := [
    ("online_courses", "Try 'Career Essentials in Tech' on Coursera or edX"),
    ("youtube_channels", "Search 'Tech With Tim' or 'Simplilearn'"),
    ("career_guides", "See careerfoundry.com or indeed.com/career-advice"),
    ("alternative_roles", "Consider roles like QA Analyst, Support Engineer"),
    ("skills_to_learn", "Communication, project documentation, basic SQL")
  ]

  function DefaultKeys(defaults: seq<(string, string)>): (keys: seq<string>)
    ensures |keys| == |defaults|
    ensures forall k :: 0 <= k < |defaults| ==> keys[k] == defaults[k].0
  {
    if |defaults| == 0 then [] else [defaults[0].0] + DefaultKeys(defaults[1..])
  }

  /** The fallback of the first entry for `key`. */
  function DefaultFor(defaults: seq<(string, string)>, key: string): string
    requires key in DefaultKeys(defaults)
  {
    if defaults[0].0 == key then defaults[0].1 else DefaultFor(defaults[1..], key)
  }

  /**
   * The test of `enforceArrayDefault`: `!node.hasNonNull(key) || node.get(key).isEmpty()`.
   * A present string or number has size 0 and so needs the default too.
   */
  predicate NeedsDefault(fields: Fields, key: string)
  {
    !HasNonNull(fields, key) || IsEmpty(Lookup(fields, key).value)
  }

  /** A field that holds a non-empty array or object. */
  predicate Filled(fields: Fields, key: string)
  {
    Lookup(fields, key).Some? && IsNonEmptyContainer(Lookup(fields, key).value)
  }

  lemma NeedsDefaultIffNotFilled(fields: Fields, key: string)
    ensures NeedsDefault(fields, key) <==> !Filled(fields, key)
  {
  }

  /** `enforceArrayDefault(node, key, fallback)` on the object's fields. */
  function ArrayDefault(fields: Fields, key: string, fallback: string): Fields
  {
    if NeedsDefault(fields, key) then Put(fields, key, JArray([JString(fallback)])) else fields
  }

  /**
   * After `enforceArrayDefault` the key holds a non-empty container; a value
   * that needed the default is replaced by the one-element fallback array, a
   * value that did not is left untouched, and no other key changes.
   */
  lemma ArrayDefaultEffect(fields: Fields, key: string, fallback: string)
    ensures var r := ArrayDefault(fields, key, fallback);
      && Filled(r, key)
      && (NeedsDefault(fields, key) ==> Lookup(r, key) == Some(JArray([JString(fallback)])))
      && (!NeedsDefault(fields, key) ==> r == fields)
      && (forall other :: other != key ==> Lookup(r, other) == Lookup(fields, other))
  {
    var v := JArray([JString(fallback)]);
    LookupPutSame(fields, key, v);
    forall other | other != key
      ensures Lookup(ArrayDefault(fields, key, fallback), other) == Lookup(fields, other)
    {
      LookupPutOther(fields, key, v, other);
    }
  }

  /** A run of `enforceArrayDefault` calls, one per entry, in order. */
  function ApplyDefaults(fields: Fields, defaults: seq<(string, string)>): Fields
    decreases |defaults|
  {
    if |defaults| == 0 then fields
    else ApplyDefaults(ArrayDefault(fields, defaults[0].0, defaults[0].1), defaults[1..])
  }

  /** One more `enforceArrayDefault` call at the end of a run. */
  lemma {:induction false} ApplyDefaultsSnoc(fields: Fields, defaults: seq<(string, string)>, last: (string, string))
    ensures ApplyDefaults(fields, defaults + [last]) == ArrayDefault(ApplyDefaults(fields, defaults), last.0, last.1)
    decreases |defaults|
  {
    if |defaults| == 0 {
      assert ([] + [last])[1..] == [];
    } else {
      assert (defaults + [last])[1..] == defaults[1..] + [last];
      ApplyDefaultsSnoc(ArrayDefault(fields, defaults[0].0, defaults[0].1), defaults[1..], last);
    }
  }

  lemma PointDefaultsUnfold(fields: Fields)
    ensures ApplyDefaults(fields, PointDefaults) ==
      ArrayDefault(ArrayDefault(fields, "strong_points", StrongPointsFallback), "weak_points", WeakPointsFallback)
  {
    ApplyDefaultsSnoc(fields, [], PointDefaults[0]);
    ApplyDefaultsSnoc(fields, [PointDefaults[0]], PointDefaults[1]);
    assert [] + [PointDefaults[0]] == [PointDefaults[0]];
    assert [PointDefaults[0]] + [PointDefaults[1]] == PointDefaults;
  }

  /** Keys the run does not mention keep their values. */
  lemma {:induction false} ApplyDefaultsOther(fields: Fields, defaults: seq<(string, string)>, other: string)
    requires other !in DefaultKeys(defaults)
    ensures Lookup(ApplyDefaults(fields, defaults), other) == Lookup(fields, other)
    decreases |defaults|
  {
    if |defaults| > 0 {
      ArrayDefaultEffect(fields, defaults[0].0, defaults[0].1);
      assert DefaultKeys(defaults) == [defaults[0].0] + DefaultKeys(defaults[1..]);
      ApplyDefaultsOther(ArrayDefault(fields, defaults[0].0, defaults[0].1), defaults[1..], other);
    }
  }

  /** A key that is already filled keeps its value through the run. */
  lemma {:induction false} ApplyDefaultsKeepsFilled(fields: Fields, defaults: seq<(string, string)>, key: string)
    requires Filled(fields, key)
    ensures Lookup(ApplyDefaults(fields, defaults), key) == Lookup(fields, key)
    decreases |defaults|
  {
    if |defaults| > 0 {
      var next := ArrayDefault(fields, defaults[0].0, defaults[0].1);
      ArrayDefaultEffect(fields, defaults[0].0, defaults[0].1);
      assert Lookup(next, key) == Lookup(fields, key);
      ApplyDefaultsKeepsFilled(next, defaults[1..], key);
    }
  }

  /**
   * After the run every key it mentions is filled: with its old value when
   * that was a non-empty container, with the one-element fallback array otherwise.
   */
  lemma {:induction false} ApplyDefaultsFills(fields: Fields, defaults: seq<(string, string)>, key: string)
    requires key in DefaultKeys(defaults)
    ensures Filled(ApplyDefaults(fields, defaults), key)
    ensures Filled(fields, key) ==> Lookup(ApplyDefaults(fields, defaults), key) == Lookup(fields, key)
    ensures !Filled(fields, key) ==>
      Lookup(ApplyDefaults(fields, defaults), key) == Some(JArray([JString(DefaultFor(defaults, key))]))
    decreases |defaults|
  {
    var next := ArrayDefault(fields, defaults[0].0, defaults[0].1);
    ArrayDefaultEffect(fields, defaults[0].0, defaults[0].1);
    assert DefaultKeys(defaults) == [defaults[0].0] + DefaultKeys(defaults[1..]);
    if defaults[0].0 == key {
      ApplyDefaultsKeepsFilled(next, defaults[1..], key);
    } else {
      ApplyDefaultsFills(next, defaults[1..], key);
    }
  }

  /** The run changes nothing when every key it mentions is already filled. */
  lemma {:induction false} ApplyDefaultsNoop(fields: Fields, defaults: seq<(string, string)>)
    requires forall k :: 0 <= k < |defaults| ==> Filled(fields, defaults[k].0)
    ensures ApplyDefaults(fields, defaults) == fields
    decreases |defaults|
  {
    if |defaults| > 0 {
      ArrayDefaultEffect(fields, defaults[0].0, defaults[0].1);
      assert forall k :: 0 <= k < |defaults[1..]| ==> defaults[1..][k] == defaults[k + 1];
      ApplyDefaultsNoop(fields, defaults[1..]);
    }
  }

  /** After the run every mentioned key is filled, which is what makes it idempotent. */
  lemma ApplyDefaultsIdempotent(fields: Fields, defaults: seq<(string, string)>)
    ensures ApplyDefaults(ApplyDefaults(fields, defaults), defaults) == ApplyDefaults(fields, defaults)
  {
    var once := ApplyDefaults(fields, defaults);
    forall k | 0 <= k < |defaults| ensures Filled(once, defaults[k].0) {
      ApplyDefaultsFills(fields, defaults, defaults[k].0);
    }
    ApplyDefaultsNoop(once, defaults);
  }

  /**
   * The rewrite `enforceFallbacks` performs on the parsed tree, or None
   * where Jackson throws (a root that is not an object; in candidate mode,
   * a `recommendations` value that is not an object) and the raw text is
   * returned instead.
   */
  function NormalizeTree(tree: Json, mode: string): Option<Json>
  {
    if !tree.JObject? then None
    else
      var fields := ApplyDefaults(tree.fields, PointDefaults);
      if IsCandidate(mode) && Has(fields, "recommendations") then
        match Lookup(fields, "recommendations").value
        case JObject(recs) =>
          Some(JObject(Put(fields, "recommendations", JObject(ApplyDefaults(recs, RecommendationDefaults)))))
        case _ => None
      else
        Some(JObject(fields))
  }

  /** The five sub-keys the candidate prompt asks for, in its order. */
  const RecommendationKeys: seq<string> :=
    ["online_courses", "youtube_channels", "career_guides", "alternative_roles", "skills_to_learn"]

  const PointKeys: seq<string> := ["strong_points", "weak_points"]

  /** The keys of the two fallback tables, in call order. */
  lemma DefaultKeyTables()
    ensures DefaultKeys(PointDefaults) == PointKeys
    ensures DefaultKeys(RecommendationDefaults) == RecommendationKeys
    ensures "recommendations" !in PointKeys
  {
    assert DefaultKeys(PointDefaults[1..]) == ["weak_points"];
    assert DefaultKeys(RecommendationDefaults[4..]) == ["skills_to_learn"];
    assert DefaultKeys(RecommendationDefaults[3..]) == ["alternative_roles", "skills_to_learn"];
    assert DefaultKeys(RecommendationDefaults[2..]) == RecommendationKeys[2..];
    assert DefaultKeys(RecommendationDefaults[1..]) == RecommendationKeys[1..];
  }

  /** The fallback tables: their keys in call order, and the sentence each key falls back to. */
  lemma DefaultTables()
    ensures DefaultKeys(PointDefaults) == PointKeys
    ensures DefaultFor(PointDefaults, "strong_points") == StrongPointsFallback
    ensures DefaultFor(PointDefaults, "weak_points") == WeakPointsFallback
    ensures DefaultKeys(RecommendationDefaults) == RecommendationKeys
    ensures DefaultFor(RecommendationDefaults, "online_courses") == "Try 'Career Essentials in Tech' on Coursera or edX"
    ensures DefaultFor(RecommendationDefaults, "youtube_channels") == "Search 'Tech With Tim' or 'Simplilearn'"
    ensures DefaultFor(RecommendationDefaults, "career_guides") == "See careerfoundry.com or indeed.com/career-advice"
    ensures DefaultFor(RecommendationDefaults, "alternative_roles") == "Consider roles like QA Analyst, Support Engineer"
    ensures DefaultFor(RecommendationDefaults, "skills_to_learn") == "Communication, project documentation, basic SQL"
    ensures "recommendations" !in PointKeys
  {
    DefaultKeyTables();
  }

  /** The tree rewrite gives up exactly where Jackson's casts throw. */
  lemma NormalizeTreeFails(tree: Json, mode: string)
    ensures NormalizeTree(tree, mode).None? <==>
      || !tree.JObject?
      || (&& IsCandidate(mode)
          && Has(tree.fields, "recommendations")
          && !Lookup(tree.fields, "recommendations").value.JObject?)
  {
    if tree.JObject? {
      DefaultKeyTables();
      ApplyDefaultsOther(tree.fields, PointDefaults, "recommendations");
    }
  }

  /**
   * After a successful rewrite `strong_points` and `weak_points` each hold a
   * non-empty container: the old value when it already was one, the
   * one-element fallback array otherwise.
   */
  lemma NormalizeTreePoints(tree: Json, mode: string, key: string)
    requires NormalizeTree(tree, mode).Some?
    requires key in PointKeys
    ensures var out := NormalizeTree(tree, mode).value;
      && out.JObject?
      && Filled(out.fields, key)
      && (Filled(tree.fields, key) ==> Lookup(out.fields, key) == Lookup(tree.fields, key))
      && (!Filled(tree.fields, key) ==>
            Lookup(out.fields, key) == Some(JArray([JString(DefaultFor(PointDefaults, key))])))
  {
    DefaultKeyTables();
    var fields := ApplyDefaults(tree.fields, PointDefaults);
    ApplyDefaultsFills(tree.fields, PointDefaults, key);
    if IsCandidate(mode) && Has(fields, "recommendations") {
      var recs := Lookup(fields, "recommendations").value.fields;
      LookupPutOther(fields, "recommendations", JObject(ApplyDefaults(recs, RecommendationDefaults)), key);
    }
  }

  /**
   * The recommendations block: the rewrite never adds or removes the key; it
   * touches its value only in candidate mode, where afterwards each of the
   * five sub-keys holds a non-empty container (untouched if it already did,
   * the fallback array otherwise) and every other sub-key is unchanged.
   */
  lemma NormalizeTreeRecommendations(tree: Json, mode: string, sub: string)
    requires NormalizeTree(tree, mode).Some?
    ensures var out := NormalizeTree(tree, mode).value;
      && out.JObject?
      && (Has(out.fields, "recommendations") <==> Has(tree.fields, "recommendations"))
      && (!IsCandidate(mode) ==>
            Lookup(out.fields, "recommendations") == Lookup(tree.fields, "recommendations"))
      && (IsCandidate(mode) && Has(tree.fields, "recommendations") ==>
            && Lookup(tree.fields, "recommendations").value.JObject?
            && Lookup(out.fields, "recommendations").value.JObject?
            && var before := Lookup(tree.fields, "recommendations").value.fields;
               var after := Lookup(out.fields, "recommendations").value.fields;
               && (sub in RecommendationKeys ==> Filled(after, sub))
               && (sub in RecommendationKeys && Filled(before, sub) ==> Lookup(after, sub) == Lookup(before, sub))
               && (sub in RecommendationKeys && !Filled(before, sub) ==>
                     Lookup(after, sub) == Some(JArray([JString(DefaultFor(RecommendationDefaults, sub))])))
               && (sub !in RecommendationKeys ==> Lookup(after, sub) == Lookup(before, sub)))
  {
    DefaultKeyTables();
    var fields := ApplyDefaults(tree.fields, PointDefaults);
    ApplyDefaultsOther(tree.fields, PointDefaults, "recommendations");
    if IsCandidate(mode) && Has(fields, "recommendations") {
      var recs := Lookup(fields, "recommendations").value.fields;
      var recs' := ApplyDefaults(recs, RecommendationDefaults);
      LookupPutSame(fields, "recommendations", JObject(recs'));
      if sub in RecommendationKeys {
        ApplyDefaultsFills(recs, RecommendationDefaults, sub);
      } else {
        ApplyDefaultsOther(recs, RecommendationDefaults, sub);
      }
    }
  }

  /** Every key other than the two point lists and `recommendations` keeps its value. */
  lemma NormalizeTreeOtherKeys(tree: Json, mode: string, key: string)
    requires NormalizeTree(tree, mode).Some?
    requires key !in PointKeys && key != "recommendations"
    ensures Lookup(NormalizeTree(tree, mode).value.fields, key) == Lookup(tree.fields, key)
  {
    DefaultKeyTables();
    var fields := ApplyDefaults(tree.fields, PointDefaults);
    ApplyDefaultsOther(tree.fields, PointDefaults, key);
    if IsCandidate(mode) && Has(fields, "recommendations") {
      var recs := Lookup(fields, "recommendations").value.fields;
      LookupPutOther(fields, "recommendations", JObject(ApplyDefaults(recs, RecommendationDefaults)), key);
    }
  }

  /**
   * A tree whose required fields are all filled already comes back as it is:
   * the rewrite only adds what is missing.
   */
  lemma NormalizeTreeStable(tree: Json, mode: string)
    requires tree.JObject?
    requires forall k :: 0 <= k < |PointKeys| ==> Filled(tree.fields, PointKeys[k])
    requires IsCandidate(mode) && Has(tree.fields, "recommendations") ==>
      && Lookup(tree.fields, "recommendations").value.JObject?
      && forall k :: 0 <= k < |RecommendationKeys| ==>
           Filled(Lookup(tree.fields, "recommendations").value.fields, RecommendationKeys[k])
    ensures NormalizeTree(tree, mode) == Some(tree)
  {
    DefaultKeyTables();
    ApplyDefaultsNoop(tree.fields, PointDefaults);
    var fields := ApplyDefaults(tree.fields, PointDefaults);
    if IsCandidate(mode) && Has(fields, "recommendations") {
      var recs := Lookup(fields, "recommendations").value.fields;
      ApplyDefaultsNoop(recs, RecommendationDefaults);
      PutExisting(fields, "recommendations", JObject(recs));
    }
  }

  /** Applying the tree rewrite to its own result changes nothing. */
  lemma NormalizeTreeIdempotent(tree: Json, mode: string)
    requires NormalizeTree(tree, mode).Some?
    ensures NormalizeTree(NormalizeTree(tree, mode).value, mode) == NormalizeTree(tree, mode)
  {
    var out := NormalizeTree(tree, mode).value;
    forall k | 0 <= k < |PointKeys| ensures Filled(out.fields, PointKeys[k]) {
      NormalizeTreePoints(tree, mode, PointKeys[k]);
    }
    if IsCandidate(mode) && Has(out.fields, "recommendations") {
      NormalizeTreeRecommendations(tree, mode, "");
      forall k | 0 <= k < |RecommendationKeys|
        ensures Filled(Lookup(out.fields, "recommendations").value.fields, RecommendationKeys[k])
      {
        NormalizeTreeRecommendations(tree, mode, RecommendationKeys[k]);
      }
    }
    NormalizeTreeStable(out, mode);
  }

  /**
   * `enforceFallbacks` on text: Jackson's parse, the tree rewrite and the
   * pretty printer; on any failure the raw text comes back unchanged.
   */
  function Fallbacks(rawJson: string, mode: string,
                     decode: string -> Result<Json, string>, render: Json -> string): string
  {
    match decode(rawJson)
    case Err(_) => rawJson
    case Ok(tree) =>
      match NormalizeTree(tree, mode)
      case None => rawJson
      case Some(out) => render(out)
  }

  /**
   * Unparsable text, a root that is not an object, and (in candidate mode) a
   * `recommendations` value that is not an object all return the raw text;
   * everything else is the printed rewritten tree.
   */
  lemma FallbacksCases(rawJson: string, mode: string,
                       decode: string -> Result<Json, string>, render: Json -> string)
    ensures decode(rawJson).Err? ==> Fallbacks(rawJson, mode, decode, render) == rawJson
    ensures decode(rawJson).Ok? && !decode(rawJson).value.JObject? ==>
      Fallbacks(rawJson, mode, decode, render) == rawJson
    ensures decode(rawJson).Ok? && decode(rawJson).value.JObject? && IsCandidate(mode)
            && Has(decode(rawJson).value.fields, "recommendations")
            && !Lookup(decode(rawJson).value.fields, "recommendations").value.JObject? ==>
      Fallbacks(rawJson, mode, decode, render) == rawJson
    ensures decode(rawJson).Ok? && NormalizeTree(decode(rawJson).value, mode).Some? ==>
      Fallbacks(rawJson, mode, decode, render) == render(NormalizeTree(decode(rawJson).value, mode).value)
  {
    if decode(rawJson).Ok? {
      NormalizeTreeFails(decode(rawJson).value, mode);
    }
  }

  /** A run of `enforceArrayDefault` calls keeps every key unique. */
  lemma {:induction false} ApplyDefaultsUnique(fields: Fields, defaults: seq<(string, string)>)
    requires UniqueFields(fields)
    ensures UniqueFields(ApplyDefaults(fields, defaults))
    decreases |defaults|
  {
    if |defaults| > 0 {
      var next := ArrayDefault(fields, defaults[0].0, defaults[0].1);
      if NeedsDefault(fields, defaults[0].0) {
        var v := JArray([JString(defaults[0].1)]);
        assert UniqueKeys(v) by {
          assert forall k :: 0 <= k < |v.items| ==> v.items[k] == JString(defaults[0].1);
        }
        PutUnique(fields, defaults[0].0, v);
      }
      ApplyDefaultsUnique(next, defaults[1..]);
    }
  }

  /** The tree rewrite keeps every key unique: it only puts arrays of one string and a patched child. */
  lemma NormalizeTreeUnique(tree: Json, mode: string)
    requires UniqueKeys(tree) && NormalizeTree(tree, mode).Some?
    ensures UniqueKeys(NormalizeTree(tree, mode).value)
  {
    var fields := ApplyDefaults(tree.fields, PointDefaults);
    ApplyDefaultsUnique(tree.fields, PointDefaults);
    if IsCandidate(mode) && Has(fields, "recommendations") {
      var child := Lookup(fields, "recommendations").value;
      LookupUnique(fields, "recommendations");
      ApplyDefaultsUnique(child.fields, RecommendationDefaults);
      PutUnique(fields, "recommendations", JObject(ApplyDefaults(child.fields, RecommendationDefaults)));
    }
  }

  /**
   * With a parser that, like Jackson's, returns trees with unique keys, and
   * a printer that the parser reads back exactly on such trees, running
   * `enforceFallbacks` on its own output yields the same text again.
   */
  lemma FallbacksIdempotent(rawJson: string, mode: string,
                            decode: string -> Result<Json, string>, render: Json -> string)
    requires forall s :: decode(s).Ok? ==> UniqueKeys(decode(s).value)
    requires forall tree :: UniqueKeys(tree) ==> decode(render(tree)) == Ok(tree)
    ensures var once := Fallbacks(rawJson, mode, decode, render);
      Fallbacks(once, mode, decode, render) == once
  {
    if decode(rawJson).Ok? && NormalizeTree(decode(rawJson).value, mode).Some? {
      var out := NormalizeTree(decode(rawJson).value, mode).value;
      NormalizeTreeUnique(decode(rawJson).value, mode);
      assert decode(render(out)) == Ok(out);
      NormalizeTreeIdempotent(decode(rawJson).value, mode);
    }
  }

  /** What is left of `enforceFallbacks` once the two point lists are patched. */
  lemma FallbacksAfterPoints(rawJson: string, mode: string,
                             decode: string -> Result<Json, string>, render: Json -> string,
                             tree: Json, fields: Fields)
    requires decode(rawJson) == Ok(tree) && tree.JObject?
    requires fields == ApplyDefaults(tree.fields, PointDefaults)
    ensures !(IsCandidate(mode) && Has(fields, "recommendations")) ==>
      Fallbacks(rawJson, mode, decode, render) == render(JObject(fields))
    ensures IsCandidate(mode) && Has(fields, "recommendations") && !Lookup(fields, "recommendations").value.JObject? ==>
      Fallbacks(rawJson, mode, decode, render) == rawJson
    ensures IsCandidate(mode) && Has(fields, "recommendations") && Lookup(fields, "recommendations").value.JObject? ==>
      var recs := Lookup(fields, "recommendations").value.fields;
      Fallbacks(rawJson, mode, decode, render) ==
        render(JObject(Put(fields, "recommendations", JObject(ApplyDefaults(recs, RecommendationDefaults)))))
  {
    if IsCandidate(mode) && Has(fields, "recommendations") {
      var child := Lookup(fields, "recommendations").value;
      if child.JObject? {
        assert NormalizeTree(tree, mode)
          == Some(JObject(Put(fields, "recommendations", JObject(ApplyDefaults(child.fields, RecommendationDefaults)))));
      } else {
        assert NormalizeTree(tree, mode).None?;
      }
    } else {
      assert NormalizeTree(tree, mode) == Some(JObject(fields));
    }
  }

  /**
   * `enforceArrayDefault(node, key, fallbackValue)`: mutates the node in
   * place with `putArray(key).add(fallbackValue)` when the value is missing,
   * null, or of size 0.
   */
  method EnforceArrayDefault(node: ObjectNode, key: string, fallbackValue: string)
    modifies node
    ensures node.fields == ArrayDefault(old(node.fields), key, fallbackValue)
  {
    if !HasNonNull(node.fields, key) || IsEmpty(node.Get(key).value) {
      node.PutArrayWith(key, fallbackValue);
    }
  }

  /** The five `enforceArrayDefault` calls `enforceFallbacks` makes on the recommendations node. */
  method EnforceRecommendationDefaults(node: ObjectNode)
    modifies node
    ensures node.fields == ApplyDefaults(old(node.fields), RecommendationDefaults)
  {
    ghost var start := node.fields;
    ghost var table := RecommendationDefaults;
    EnforceArrayDefault(node, "online_courses", "Try 'Career Essentials in Tech' on Coursera or edX");
    ApplyDefaultsSnoc(start, [], table[0]);
    assert node.fields == ApplyDefaults(start, table[..1]);
    EnforceArrayDefault(node, "youtube_channels", "Search 'Tech With Tim' or 'Simplilearn'");
    ApplyDefaultsSnoc(start, table[..1], table[1]);
    assert table[..1] + [table[1]] == table[..2];
    EnforceArrayDefault(node, "career_guides", "See careerfoundry.com or indeed.com/career-advice");
    ApplyDefaultsSnoc(start, table[..2], table[2]);
    assert table[..2] + [table[2]] == table[..3];
    EnforceArrayDefault(node, "alternative_roles", "Consider roles like QA Analyst, Support Engineer");
    ApplyDefaultsSnoc(start, table[..3], table[3]);
    assert table[..3] + [table[3]] == table[..4];
    EnforceArrayDefault(node, "skills_to_learn", "Communication, project documentation, basic SQL");
    ApplyDefaultsSnoc(start, table[..4], table[4]);
    assert table[..4] + [table[4]] == table;
  }

  /**
   * `enforceFallbacks(rawJson, mode)`: parses the text into an ObjectNode,
   * patches it in place and prints it. The cast failures of Jackson return
   * the raw text. The recommendations child is patched as its own node and
   * stored back under its key, which gives the same tree as Jackson's
   * shared child node.
   */
  method EnforceFallbacks(rawJson: string, mode: string,
                          decode: string -> Result<Json, string>, render: Json -> string)
    returns (result: string)
    ensures result == Fallbacks(rawJson, mode, decode, render)
  {
    var parsed := decode(rawJson);
    if parsed.Err? || !parsed.value.JObject? {
      return rawJson;
    }
    var root := new ObjectNode(parsed.value.fields);
    ghost var start := root.fields;
    // enforceFallbacks tests and patches the two point lists as enforceArrayDefault does.
    EnforceArrayDefault(root, "strong_points", StrongPointsFallback);
    EnforceArrayDefault(root, "weak_points", WeakPointsFallback);
    PointDefaultsUnfold(start);
    FallbacksAfterPoints(rawJson, mode, decode, render, parsed.value, root.fields);
    if IsCandidate(mode) && Has(root.fields, "recommendations") {
      var node := root.Get("recommendations").value;
      if !node.JObject? {
        return rawJson;
      }
      var recs := new ObjectNode(node.fields);
      EnforceRecommendationDefaults(recs);
      root.Set("recommendations", JObject(recs.fields));
    }
    result := render(JObject(root.fields));
  }

  // =====================================================================
  // Prompt builder
  // =====================================================================

  /**
   * The JSON template that `analyzeResume` shows the model, as the list of
   * its keys and placeholders; RenderValue prints it exactly as `analyzeResume`
   * append it.
   */
  datatype ShapeField = ShapeField(key: string, value: ShapeValue)
  datatype ShapeValue = Placeholder(text: string) | Nested(fields: seq<ShapeField>)

  /** One line per field, `indent"key": value`, with a comma on every line but the last. */
  function RenderFields(fields: seq<ShapeField>, indent: string): string
    decreases fields
  {
    if |fields| == 0 then ""
    else
      indent + "\"" + fields[0].key + "\": " + RenderValue(fields[0].value, indent)
      + (if |fields| == 1 then "\n" else ",\n")
      + RenderFields(fields[1..], indent)
  }

  function RenderValue(v: ShapeValue, indent: string): string
    decreases v
  {
    match v
    case Placeholder(text) => text
    case Nested(fields) => "{\n" + RenderFields(fields, indent + "  ") + indent + "}"
  }

  /** The keys of the template at its own level. */
  function Keys(fields: seq<ShapeField>): (keys: seq<string>)
    ensures |keys| == |fields|
    ensures forall k :: 0 <= k < |fields| ==> keys[k] == fields[k].key
  {
    if |fields| == 0 then [] else [fields[0].key] + Keys(fields[1..])
  }

  /** The keys of the template at every depth. */
  ghost function AllKeys(fields: seq<ShapeField>): set<string>
    decreases fields
  {
    if |fields| == 0 then {} else {fields[0].key} + ValueKeys(fields[0].value) + AllKeys(fields[1..])
  }

  ghost function ValueKeys(v: ShapeValue): set<string>
    decreases v
  {
    match v
    case Placeholder(_) => {}
    case Nested(fields) => AllKeys(fields)
  }

  /** Every key of the template appears, in double quotes, in its rendering. */
  lemma {:induction false} KeysAppearQuoted(fields: seq<ShapeField>, indent: string, key: string)
    requires key in AllKeys(fields)
    ensures Contains(RenderFields(fields, indent), "\"" + key + "\"")
    decreases fields
  {
    var f := fields[0];
    var value := RenderValue(f.value, indent);
    var sep := if |fields| == 1 then "\n" else ",\n";
    var rest := RenderFields(fields[1..], indent);
    var line := indent + "\"" + f.key + "\": " + value + sep;
    assert RenderFields(fields, indent) == line + rest;
    if key == f.key {
      var q := "\"" + key + "\"";
      assert line == indent + q + (": " + value + sep);
      assert OccursAt(line, q, |indent|);
      ContainsInLeft(line, rest, q);
    } else if key in ValueKeys(f.value) {
      var nested := f.value.fields;
      KeysAppearQuoted(nested, indent + "  ", key);
      assert value == ("{\n" + RenderFields(nested, indent + "  ")) + (indent + "}");
      ContainsInRight("{\n", RenderFields(nested, indent + "  "), "\"" + key + "\"");
      ContainsInLeft("{\n" + RenderFields(nested, indent + "  "), indent + "}", "\"" + key + "\"");
      assert line == (indent + "\"" + f.key + "\": ") + value + sep;
      ContainsInRight(indent + "\"" + f.key + "\": ", value, "\"" + key + "\"");
      ContainsInLeft((indent + "\"" + f.key + "\": ") + value, sep, "\"" + key + "\"");
      ContainsInLeft(line, rest, "\"" + key + "\"");
    } else {
      KeysAppearQuoted(fields[1..], indent, key);
      ContainsInRight(line, rest, "\"" + key + "\"");
    }
  }

  const ListPlaceholder: ShapeValue := Placeholder("[\"...\"]")

  /** The five sub-keys of "recommendations", each asking for a list. */
  const RecommendationShape: seq<ShapeField> := [
    ShapeField("online_courses", ListPlaceholder),
    ShapeField("youtube_channels", ListPlaceholder),
    ShapeField("career_guides", ListPlaceholder),
    ShapeField("alternative_roles", ListPlaceholder),
    ShapeField("skills_to_learn", ListPlaceholder)
  ]

  /** The fields every analysis asks for, in the `analyzeResume` template. */
  const CommonShape: seq<ShapeField> := [
    ShapeField("status", Placeholder("\"success\"")),
    ShapeField("candidate_name", Placeholder("\"...\"")),
    ShapeField("suited_for_role", Placeholder("\"Yes\" or \"No\"")),
    ShapeField("strong_points", ListPlaceholder),
    ShapeField("weak_points", ListPlaceholder)
  ]

  const CandidateTail: seq<ShapeField> := [
    ShapeField("improvement_suggestions", ListPlaceholder),
    ShapeField("recommendations", Nested(RecommendationShape))
  ]

  const OtherTail: seq<ShapeField> := [
    ShapeField("comparison_score", Placeholder("\"Ranks higher than XX%\"")),
    ShapeField("improvement_suggestions", ListPlaceholder)
  ]

  /** The template for a mode: `analyzeResume` chooses the tail by the candidate test. */
  function ResponseShape(mode: string): seq<ShapeField>
  {
    CommonShape + if IsCandidate(mode) then CandidateTail else OtherTail
  }

  /** The bullet list of step 6 in candidate mode. */
  function Bullets(keys: seq<string>): string
  {
    if |keys| == 0 then "" else "   - " + keys[0] + "\n" + Bullets(keys[1..])
  }

  /** Every listed key has its own bullet line. */
  lemma {:induction false} BulletsListEach(keys: seq<string>, k: nat)
    requires k < |keys|
    ensures Contains(Bullets(keys), "   - " + keys[k] + "\n")
  {
    var head := "   - " + keys[0] + "\n";
    assert Bullets(keys) == head + Bullets(keys[1..]);
    if k == 0 {
      ContainsItself(head);
      ContainsInLeft(head, Bullets(keys[1..]), head);
    } else {
      BulletsListEach(keys[1..], k - 1);
      ContainsInRight(head, Bullets(keys[1..]), "   - " + keys[k] + "\n");
    }
  }

  const TaskSteps: string :=
    "### TASK:\n"
    + "1. Compare required skills vs resume.\n"
    + "2. Return \"suited_for_role\": \"Yes\" or \"No\"\n"
    + "3. Extract candidate name or fallback to 'Unnamed Candidate'\n"
    + "4. Include strong_points (include 6+ years exp even if unrelated)\n"
    + "5. weak_points must describe real gaps or general ones\n"

  /** Step 6 of the task list of `analyzeResume`. */
  function StepSix(mode: string): string
  {
    if IsCandidate(mode) then "6. Always provide:\n" + Bullets(RecommendationKeys)
    else "6. Provide comparison_score and suggestions\n"
  }

  const AdvisorLine: string := "You are an honest and intelligent AI career advisor and resume evaluator.\n"

  /** The line naming the role, followed by a blank line. */
  function RoleLine(role: string): string
  {
    "Strictly analyze the resume below ONLY for the role: '" + role + "'.\n\n"
  }

  const JsonLead: string := "\nOnly return this JSON (never leave fields blank):\n"

  /** The JSON template of the mode, printed without indentation. */
  function ShapeText(mode: string): string
  {
    RenderValue(Nested(ResponseShape(mode)), "")
  }

  /** The part of the prompt before the resume text. */
  function AnalyzePreamble(role: string, mode: string): string
  {
    AdvisorLine + RoleLine(role) + TaskSteps + StepSix(mode) + JsonLead + ShapeText(mode)
  }

  /** The closing section of the analysis prompt: the resume text itself. */
  function ResumeSection(resumeText: string): string
  {
    "\n\n### Resume:\n" + resumeText
  }

  /** The prompt `analyzeResume` sends. */
  function AnalyzePrompt(resumeText: string, role: string, mode: string): string
  {
    AnalyzePreamble(role, mode) + ResumeSection(resumeText)
  }

  /** Every analysis prompt ends with the resume section, holding the resume text verbatim. */
  lemma AnalyzePromptEndsWithResume(resumeText: string, role: string, mode: string)
    ensures EndsWith(AnalyzePrompt(resumeText, role, mode), ResumeSection(resumeText))
    ensures EndsWith(AnalyzePrompt(resumeText, role, mode), resumeText)
  {
    var pre := AnalyzePreamble(role, mode);
    var sec := ResumeSection(resumeText);
    assert (pre + sec)[|pre + sec| - |sec|..] == sec;
    assert (pre + sec)[|pre + sec| - |resumeText|..] == resumeText;
  }

  /** The prompt depends on the mode only through the case-insensitive candidate test. */
  lemma AnalyzePromptByCandidacy(resumeText: string, role: string, mode1: string, mode2: string)
    requires IsCandidate(mode1) == IsCandidate(mode2)
    ensures AnalyzePrompt(resumeText, role, mode1) == AnalyzePrompt(resumeText, role, mode2)
  {
  }

  lemma ShapeKeyTables()
    ensures Keys(RecommendationShape) == RecommendationKeys
    ensures AllKeys(RecommendationShape) == {"online_courses", "youtube_channels", "career_guides", "alternative_roles", "skills_to_learn"}
    ensures AllKeys(CommonShape) == {"status", "candidate_name", "suited_for_role", "strong_points", "weak_points"}
    ensures AllKeys(CandidateTail) == {"improvement_suggestions", "recommendations"} + AllKeys(RecommendationShape)
    ensures AllKeys(OtherTail) == {"comparison_score", "improvement_suggestions"}
  {
    assert AllKeys(RecommendationShape[4..]) == {"skills_to_learn"};
    assert AllKeys(RecommendationShape[3..]) == {"alternative_roles", "skills_to_learn"};
    assert AllKeys(RecommendationShape[2..]) == {"career_guides", "alternative_roles", "skills_to_learn"};
    assert AllKeys(RecommendationShape[1..]) == {"youtube_channels", "career_guides", "alternative_roles", "skills_to_learn"};
    assert AllKeys(CommonShape[4..]) == {"weak_points"};
    assert AllKeys(CommonShape[3..]) == {"strong_points", "weak_points"};
    assert AllKeys(CommonShape[2..]) == {"suited_for_role", "strong_points", "weak_points"};
    assert AllKeys(CommonShape[1..]) == {"candidate_name", "suited_for_role", "strong_points", "weak_points"};
    assert AllKeys(CandidateTail[1..]) == {"recommendations"} + AllKeys(RecommendationShape);
    assert AllKeys(OtherTail[1..]) == {"improvement_suggestions"};
  }

  lemma {:induction false} AllKeysAppend(a: seq<ShapeField>, b: seq<ShapeField>)
    ensures AllKeys(a + b) == AllKeys(a) + AllKeys(b)
    decreases a
  {
    if |a| == 0 {
      assert a + b == b;
    } else {
      assert (a + b)[0] == a[0];
      assert (a + b)[1..] == a[1..] + b;
      AllKeysAppend(a[1..], b);
    }
  }

  /**
   * The template by mode: candidate mode asks for `recommendations` with
   * exactly the five sub-keys (the ones the normaliser defaults) and never
   * for `comparison_score`; every other mode asks for `comparison_score`
   * and for none of the recommendation keys. Both ask for the two point lists.
   */
  lemma ResponseShapeByMode(mode: string)
    ensures "strong_points" in AllKeys(ResponseShape(mode)) && "weak_points" in AllKeys(ResponseShape(mode))
    ensures IsCandidate(mode) ==>
      && ShapeField("recommendations", Nested(RecommendationShape)) in ResponseShape(mode)
      && Keys(RecommendationShape) == DefaultKeys(RecommendationDefaults)
      && "comparison_score" !in AllKeys(ResponseShape(mode))
    ensures !IsCandidate(mode) ==>
      && "comparison_score" in Keys(ResponseShape(mode))
      && "recommendations" !in AllKeys(ResponseShape(mode))
      && forall k :: 0 <= k < |RecommendationKeys| ==> RecommendationKeys[k] !in AllKeys(ResponseShape(mode))
  {
    if IsCandidate(mode) {
      assert ResponseShape(mode) == CommonShape + CandidateTail;
      CandidateShapeKeys();
    } else {
      assert ResponseShape(mode) == CommonShape + OtherTail;
      OtherShapeKeys();
      RecommendationKeysNotInOtherShape(AllKeys(ResponseShape(mode)));
    }
  }

  lemma CandidateShapeKeys()
    ensures ShapeField("recommendations", Nested(RecommendationShape)) in CommonShape + CandidateTail
    ensures Keys(RecommendationShape) == DefaultKeys(RecommendationDefaults)
    ensures AllKeys(CommonShape + CandidateTail) == {"status", "candidate_name", "suited_for_role", "strong_points", "weak_points", "improvement_suggestions", "recommendations", "online_courses", "youtube_channels", "career_guides", "alternative_roles", "skills_to_learn"}
  {
    CandidateHasRecommendations();
    RecommendationKeysAreDefaults();
    CandidateAllKeys();
  }

  lemma CandidateHasRecommendations()
    ensures ShapeField("recommendations", Nested(RecommendationShape)) in CommonShape + CandidateTail
  {
    assert (CommonShape + CandidateTail)[6] == ShapeField("recommendations", Nested(RecommendationShape));
  }

  lemma RecommendationKeysAreDefaults()
    ensures Keys(RecommendationShape) == DefaultKeys(RecommendationDefaults)
  {
    ShapeKeyTables();
    DefaultKeyTables();
  }

  lemma CandidateAllKeys()
    ensures AllKeys(CommonShape + CandidateTail) == {"status", "candidate_name", "suited_for_role", "strong_points", "weak_points", "improvement_suggestions", "recommendations", "online_courses", "youtube_channels", "career_guides", "alternative_roles", "skills_to_learn"}
  {
    ShapeKeyTables();
    AllKeysAppend(CommonShape, CandidateTail);
  }

  lemma OtherShapeKeys()
    ensures "comparison_score" in Keys(CommonShape + OtherTail)
    ensures AllKeys(CommonShape + OtherTail) == {"status", "candidate_name", "suited_for_role", "strong_points", "weak_points", "comparison_score", "improvement_suggestions"}
  {
    ShapeKeyTables();
    AllKeysAppend(CommonShape, OtherTail);
    assert Keys(CommonShape + OtherTail)[5] == "comparison_score";
  }

  /** None of the recommendation keys is among the keys of the non-candidate template. */
  lemma RecommendationKeysNotInOtherShape(keys: set<string>)
    requires keys == {"status", "candidate_name", "suited_for_role", "strong_points", "weak_points", "comparison_score", "improvement_suggestions"}
    ensures "recommendations" !in keys
    ensures forall k :: 0 <= k < |RecommendationKeys| ==> RecommendationKeys[k] !in keys
  {
    assert RecommendationKeys == ["online_courses", "youtube_channels", "career_guides", "alternative_roles", "skills_to_learn"];
  }

  /** Every key of the mode's template appears in double quotes in the prompt. */
  lemma AnalyzePromptMentionsKeys(resumeText: string, role: string, mode: string, key: string)
    requires key in AllKeys(ResponseShape(mode))
    ensures Contains(AnalyzePrompt(resumeText, role, mode), "\"" + key + "\"")
  {
    var q := "\"" + key + "\"";
    var body := RenderFields(ResponseShape(mode), "  ");
    KeysAppearQuoted(ResponseShape(mode), "  ", key);
    ContainsInRight("{\n", body, q);
    ContainsInLeft("{\n" + body, "}", q);
    assert "" + "  " == "  ";
    assert ShapeText(mode) == "{\n" + body + "}";
    var head := AdvisorLine + RoleLine(role) + TaskSteps + StepSix(mode) + JsonLead;
    ContainsInRight(head, ShapeText(mode), q);
    ContainsInLeft(head + ShapeText(mode), ResumeSection(resumeText), q);
  }

  /** In candidate mode step 6 lists each of the five recommendation keys as a bullet. */
  lemma CandidatePromptListsRecommendations(resumeText: string, role: string, mode: string, k: nat)
    requires IsCandidate(mode) && k < |RecommendationKeys|
    ensures Contains(AnalyzePrompt(resumeText, role, mode), "   - " + RecommendationKeys[k] + "\n")
  {
    var t := "   - " + RecommendationKeys[k] + "\n";
    BulletsListEach(RecommendationKeys, k);
    ContainsInRight("6. Always provide:\n", Bullets(RecommendationKeys), t);
    var before := AdvisorLine + RoleLine(role) + TaskSteps;
    ContainsInRight(before, StepSix(mode), t);
    ContainsInLeft(before + StepSix(mode), JsonLead, t);
    ContainsInLeft(before + StepSix(mode) + JsonLead, ShapeText(mode), t);
    ContainsInLeft(AnalyzePreamble(role, mode), ResumeSection(resumeText), t);
  }

  /**
   * `analyzeResume`: the analysis prompt goes to the provider, the reply is
   * shaped by `callOpenAI`, and the result is normalised for the mode.
   */
  method AnalyzeResume(resumeText: string, role: string, mode: string,
                       complete: string -> ProviderReply,
                       decode: string -> Result<Json, string>, render: Json -> string)
    returns (r: string)
    ensures r == Fallbacks(CallOpenAI(complete(AnalyzePrompt(resumeText, role, mode))), mode, decode, render)
  {
    var rawJson := CallOpenAI(complete(AnalyzePrompt(resumeText, role, mode)));
    r := EnforceFallbacks(rawJson, mode, decode, render);
  }

  /** The prompt of `generateImprovedResume`. */
  function ImprovePrompt(resumeText: string, role: string): string
  {
    "You are an AI resume optimizer. Improve this resume for the role: '" + role + "'.\n"
    + "- Use bullet points and relevant keywords.\n"
    + "- Make it clear and ATS-friendly.\n"
    + "Return:\n{ \"status\": \"success\", \"improved_resume\": \"...\" }\n\n"
    + "### Resume:\n" + resumeText
  }

  /** The improvement prompt ends with the resume text verbatim. */
  lemma ImprovePromptEndsWithResume(resumeText: string, role: string)
    ensures EndsWith(ImprovePrompt(resumeText, role), "### Resume:\n" + resumeText)
  {
    var p := ImprovePrompt(resumeText, role);
    var tail := "### Resume:\n" + resumeText;
    var head := "You are an AI resume optimizer. Improve this resume for the role: '" + role + "'.\n"
      + "- Use bullet points and relevant keywords.\n"
      + "- Make it clear and ATS-friendly.\n"
      + "Return:\n{ \"status\": \"success\", \"improved_resume\": \"...\" }\n\n";
    assert p == head + tail;
    assert (head + tail)[|head + tail| - |tail|..] == tail;
  }

  /**
   * `generateImprovedResume`: the provider's answer as `callOpenAI` shapes
   * it, with no normalisation; whatever the provider does, the result is ""
   * or a brace-delimited string.
   */
  function GenerateImprovedResume(resumeText: string, role: string,
                                  complete: string -> ProviderReply): (r: string)
    ensures r == "" || BraceDelimited(r)
  {
    CallOpenAIShape(complete(ImprovePrompt(resumeText, role)));
    CallOpenAI(complete(ImprovePrompt(resumeText, role)))
  }

  // ---------------------------------------------------------------------
  // The numbered resume list of the batch prompts
  // ---------------------------------------------------------------------

  /** The label a resume gets in the batch prompts: "Resume 1", "Resume 2", ... */
  function ResumeLabel(i: nat): string
  {
    "Resume " + DecimalString(i + 1)
  }

  /** The block the loop appends for the resume at index `i`. */
  function ResumeEntry(i: nat, text: string, fileName: string): string
  {
    ResumeLabel(i) + " (File: " + fileName + "):\n" + text + "\n\n"
  }

  /** The text after the first `n` iterations of the resume loop of `compareResumesInBatch` (and of its JD variant). */
  function ResumesBlock(texts: seq<string>, fileNames: seq<string>, n: nat): string
    requires n <= |texts| && n <= |fileNames|
  {
    if n == 0 then ""
    else ResumesBlock(texts, fileNames, n - 1) + ResumeEntry(n - 1, texts[n - 1], fileNames[n - 1])
  }

  /** The loop that builds the numbered list, one resume per iteration. */
  method BuildResumesBlock(texts: seq<string>, fileNames: seq<string>) returns (combined: string)
    requires |texts| <= |fileNames|
    ensures combined == ResumesBlock(texts, fileNames, |texts|)
  {
    combined := "";
    var i := 0;
    while i < |texts|
      invariant 0 <= i <= |texts|
      invariant combined == ResumesBlock(texts, fileNames, i)
    {
      combined := combined + ResumeLabel(i) + " (File: " + fileNames[i] + "):\n" + texts[i] + "\n\n";
      i := i + 1;
    }
  }

  /** The list after `m` resumes extends the list after `k <= m`. */
  lemma {:induction false} ResumesBlockPrefix(texts: seq<string>, fileNames: seq<string>, k: nat, m: nat)
    requires k <= m <= |texts| && m <= |fileNames|
    ensures |ResumesBlock(texts, fileNames, k)| <= |ResumesBlock(texts, fileNames, m)|
    ensures ResumesBlock(texts, fileNames, m)[..|ResumesBlock(texts, fileNames, k)|] == ResumesBlock(texts, fileNames, k)
    decreases m
  {
    if k < m {
      ResumesBlockPrefix(texts, fileNames, k, m - 1);
      var a := ResumesBlock(texts, fileNames, m - 1);
      var e := ResumeEntry(m - 1, texts[m - 1], fileNames[m - 1]);
      var pk := |ResumesBlock(texts, fileNames, k)|;
      assert (a + e)[..pk] == a[..pk];
    }
  }

  /**
   * Every resume is in the list, in input order: the entry of resume `k`,
   * with its number, file name and text, starts right where the list of the
   * resumes before it ends.
   */
  lemma ResumesBlockEntry(texts: seq<string>, fileNames: seq<string>, k: nat)
    requires k < |texts| <= |fileNames|
    ensures OccursAt(ResumesBlock(texts, fileNames, |texts|),
                     ResumeEntry(k, texts[k], fileNames[k]),
                     |ResumesBlock(texts, fileNames, k)|)
  {
    ResumesBlockPrefix(texts, fileNames, k + 1, |texts|);
    var before := ResumesBlock(texts, fileNames, k);
    var e := ResumeEntry(k, texts[k], fileNames[k]);
    OccursAtMiddle(before, e, "");
    assert before + e + "" == ResumesBlock(texts, fileNames, k + 1);
    OccursAtExtend(ResumesBlock(texts, fileNames, k + 1), ResumesBlock(texts, fileNames, |texts|), e, |before|);
  }

  /** Distinct positions get distinct labels, so the labels the provider returns identify resumes. */
  lemma ResumeLabelsDistinct(i: nat, j: nat)
    requires i != j
    ensures ResumeLabel(i) != ResumeLabel(j)
  {
    if ResumeLabel(i) == ResumeLabel(j) {
      assert ResumeLabel(i)[7..] == DecimalString(i + 1);
      assert ResumeLabel(j)[7..] == DecimalString(j + 1);
      DecimalStringInjective(i + 1, j + 1);
    }
  }

  /** Labels count from 1. */
  lemma FirstResumeLabel()
    ensures ResumeLabel(0) == "Resume 1"
  {
    assert DecimalString(1) == "1";
  }

  // ---------------------------------------------------------------------
  // Batch prompts
  // ---------------------------------------------------------------------

  /** The closing section of both batch prompts: the numbered list. */
  function ResumesSection(resumesBlock: string): string
  {
    "### Resumes:\n" + resumesBlock
  }

  /** The instructions of `compareResumesInBatch` before the list. */
  function BatchHeader(role: string): string
  {
    "You are an AI recruiter evaluating candidates for the role: '" + role + "'.\n"
    + "- Extract name or fallback to file name.\n"
    + "- Score (0\U{2013}100) based on match.\n"
    + "Output JSON array:\n"
    + "[ { \"index\": 0, \"file_name\": \"...\", \"candidate_name\": \"...\", \"score\": 87, \"summary\": \"...\" } ]\n\n"
  }

  /** The prompt of `compareResumesInBatch`. */
  function BatchPrompt(resumesBlock: string, role: string): string
  {
    BatchHeader(role) + ResumesSection(resumesBlock)
  }

  const JDLead: string := "You are an AI recruiter comparing resumes to the following Job Description:\n\n"

  /** The instructions of `compareResumesInBatchWithJD` that follow the job description. */
  const JDInstructions: string :=
    "\n\n"
    + "- Carefully review each resume for relevance and match to the JD.\n"
    + "- Score each resume from 0 to 100 based on how well it fits the JD.\n"
    + "- Extract candidate name from resume, fallback to 'Unnamed' if missing.\n"
    + "- Extract current or most recent company name, fallback to 'N/A' if missing.\n"
    + "- Output a JSON object with:\n"
    + "    1. \"ranked_resumes\": a list of resumes sorted by score (highest first), each with:\n"
    + "       - file_name\n"
    + "       - candidate_name\n"
    + "       - company { name }\n"
    + "       - score\n"
    + "       - rank (1 for best match, 2 for second best, etc.)\n"
    + "       - summary (brief overview)\n"
    + "       - rank_summary (1-line reason why this resume fits the JD)\n"
    + "    2. \"top_fits\": list of resume labels (e.g., \"Resume 1\", \"Resume 2\") where score \U{2265} 80.\n\n"
    + "Return **only** a valid JSON object with the structure above \U{2014} no explanation or extra text.\n\n"

  /** The prompt of `compareResumesInBatchWithJD`. */
  function BatchWithJDPrompt(resumesBlock: string, jobDescription: string): string
  {
    JDLead + jobDescription + JDInstructions + ResumesSection(resumesBlock)
  }

  /** Both batch prompts end with the numbered list. */
  lemma BatchPromptsEndWithResumes(resumesBlock: string, role: string, jobDescription: string)
    ensures EndsWith(BatchPrompt(resumesBlock, role), ResumesSection(resumesBlock))
    ensures EndsWith(BatchWithJDPrompt(resumesBlock, jobDescription), ResumesSection(resumesBlock))
  {
    EndsWithConcat(BatchHeader(role), ResumesSection(resumesBlock));
    EndsWithConcat(JDLead + jobDescription + JDInstructions, ResumesSection(resumesBlock));
  }

  /** The job description stands right after the opening line of the JD prompt. */
  lemma BatchWithJDPromptHasJobDescription(resumesBlock: string, jobDescription: string)
    ensures OccursAt(BatchWithJDPrompt(resumesBlock, jobDescription), jobDescription, |JDLead|)
  {
    var head := JDLead + jobDescription + JDInstructions;
    OccursAtMiddle(JDLead, jobDescription, JDInstructions);
    assert (head + ResumesSection(resumesBlock))[..|head|] == head;
    OccursAtExtend(head, BatchWithJDPrompt(resumesBlock, jobDescription), jobDescription, |JDLead|);
  }

  /**
   * `compareResumesInBatch`: the numbered list of every resume goes to the
   * provider under the role prompt; the answer is shaped by `callOpenAI` and
   * not normalised.
   */
  method CompareResumesInBatch(resumeTexts: seq<string>, fileNames: seq<string>, role: string,
                               complete: string -> ProviderReply)
    returns (r: string)
    requires |resumeTexts| <= |fileNames|
    ensures r == CallOpenAI(complete(BatchPrompt(ResumesBlock(resumeTexts, fileNames, |resumeTexts|), role)))
    ensures r == "" || BraceDelimited(r)
  {
    var combined := BuildResumesBlock(resumeTexts, fileNames);
    var prompt := BatchPrompt(combined, role);
    CallOpenAIShape(complete(prompt));
    r := CallOpenAI(complete(prompt));
  }

  /**
   * `compareResumesInBatchWithJD`: as above under the job-description
   * prompt; the user e-mail parameter takes no part.
   */
  method CompareResumesInBatchWithJD(resumeTexts: seq<string>, fileNames: seq<string>,
                                     jobDescription: string, userEmail: string,
                                     complete: string -> ProviderReply)
    returns (r: string)
    requires |resumeTexts| <= |fileNames|
    ensures r == CallOpenAI(complete(BatchWithJDPrompt(ResumesBlock(resumeTexts, fileNames, |resumeTexts|), jobDescription)))
    ensures r == "" || BraceDelimited(r)
  {
    var combined := BuildResumesBlock(resumeTexts, fileNames);
    var prompt := BatchWithJDPrompt(combined, jobDescription);
    CallOpenAIShape(complete(prompt));
    r := CallOpenAI(complete(prompt));
  }
}
