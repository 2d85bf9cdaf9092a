/** The AI service: prompt construction, the single call to the generative
    model, extraction of the JSON object embedded in the reply text, and the
    canned fallback content. The model call and `JSON.parse` are not part of
    this model; both are parameters. */
module AiService {
  import opened Wrappers
  import opened Json
  import opened Text

  /** The problem fields the full-set prompt interpolates. */
  datatype ProblemData = ProblemData(category: Json, title: Json, description: Json, severity: Json)

  /** The problem fields the single-affirmation prompt interpolates. */
  datatype PersonalData = PersonalData(category: Json, description: Json)

  /** The caller's preferences; a missing (`undefined`) entry is `None`.
      A call without preferences passes `Preferences(None, None)`, the `{}`
      default. */
  datatype Preferences = Preferences(tone: Option<Json>, length: Option<Json>)

  /** The generative model as seen by the service: given a prompt, either
      the reply text or the error the call threw. */
  type Model = string -> Result<string, string>

  /** `JSON.parse`: the decoded value, or `None` where it throws. */
  type Decoder = string -> Option<Json>

  const CallFailedMessage: string := "Failed to generate affirmations"

  const FallbackAffirmations: seq<string> := [
    "I am capable of overcoming this challenge",
    "I have the strength to work through this situation",
    "I am worthy of positive change and growth",
    "I trust in my ability to find solutions",
    "I am resilient and can handle whatever comes my way"
  ]

  const FallbackSolutions: seq<string> := [
    "Break down the problem into smaller, manageable steps",
    "Seek support from trusted friends, family, or professionals",
    "Practice self-care and maintain a positive mindset"
  ]

  const FallbackMotivational: seq<string> := [
    "Every challenge is an opportunity for growth and learning",
    "You have overcome difficulties before and you can do it again"
  ]

  /** The object returned whenever the reply holds no decodable JSON object. */
  const FallbackSet: Json := JObj(map[
    "affirmations" := Strings(FallbackAffirmations),
    "solutions" := Strings(FallbackSolutions),
    "motivational" := Strings(FallbackMotivational)
  ])

  const FallbackSentence: string :=
    "I am capable of overcoming this challenge and growing stronger through it."

  const DefaultTone: Json := JStr("encouraging")
  const DefaultLength: Json := JStr("medium")

  const FullSetIntro: string :=
    "\n  You are a compassionate AI assistant specializing in creating personalized affirmations and solutions for personal growth.\n\n  Problem Details:"

  const FullSetInstructions: string :=
    "\n  Please provide:\n  1. 5 positive affirmations that are specific, empowering, and directly address the problem\n  2. 3 practical solutions or action steps\n  3. 2 motivational statements\n\n  Format your response as JSON with this structure:\n  {\n    \"affirmations\": [\n      \"affirmation 1\",\n      \"affirmation 2\",\n      \"affirmation 3\",\n      \"affirmation 4\",\n      \"affirmation 5\"\n    ],\n    \"solutions\": [\n      \"solution 1\",\n      \"solution 2\", \n      \"solution 3\"\n    ],\n    \"motivational\": [\n      \"motivational statement 1\",\n      \"motivational statement 2\"\n    ]\n  }\n\n  Make the affirmations:\n  - Present tense and positive\n  - Specific to the problem\n  - Believable and achievable\n  - Empowering and encouraging\n  - Personal and direct (use \"I\" statements)\n\n  Make the solutions:\n  - Practical and actionable\n  - Specific steps they can take\n  - Realistic and achievable\n  - Directly related to the problem\n\n  Make the motivational statements:\n  - Inspiring and uplifting\n  - Focus on growth and potential\n  - Encourage persistence and self-belief\n  "

  /** The "Problem Details" lines of the full-set prompt. */
  function ProblemLines(p: ProblemData): string {
    "\n  - Category: " + ToText(p.category)
    + "\n  - Title: " + ToText(p.title)
    + "\n  - Description: " + ToText(p.description)
    + "\n  - Severity (1-10): " + ToText(p.severity)
    + "\n"
  }

  /** The prompt asking for 5 affirmations, 3 solutions and 2 motivational
      statements as a JSON object. */
  function FullSetPrompt(p: ProblemData): string {
    FullSetIntro + ProblemLines(p) + FullSetInstructions
  }

  /** The four problem fields appear, as template text and unaltered, each
      on its own labelled line of the full-set prompt. */
  lemma FullSetPromptShowsProblem(p: ProblemData)
    ensures IsInfix(
      "\n  - Category: " + ToText(p.category) + "\n  - Title: " + ToText(p.title)
      + "\n  - Description: " + ToText(p.description)
      + "\n  - Severity (1-10): " + ToText(p.severity) + "\n",
      FullSetPrompt(p))
  {
    InfixOfConcat(FullSetIntro, ProblemLines(p), FullSetInstructions);
  }

  /** `text.match(/\{[\s\S]*\}/)`: from the first `{` to the last `}`,
      when that `}` lies after the `{`. */
  function BraceSpan(text: string): (r: Option<string>)
    ensures r.Some? ==> |r.value| >= 2 && r.value[0] == '{' && r.value[|r.value| - 1] == '}'
  {
    match FirstIndex(text, '{')
    case None => None
    case Some(i) =>
      match LastIndex(text, '}')
      case None => None
      case Some(j) => if i < j then Some(text[i..j + 1]) else None
  }

  /** A candidate match of the pattern: a `{` at `i`, a `}` at `j > i`. */
  ghost predicate IsBraceMatch(text: string, i: int, j: int) {
    0 <= i < j < |text| && text[i] == '{' && text[j] == '}'
  }

  /** The match a backtracking regex engine reports: the leftmost start, and
      from it the longest extent the greedy `[\s\S]*` allows. */
  ghost predicate IsLeftmostLongest(text: string, i: int, j: int) {
    && IsBraceMatch(text, i, j)
    && forall i', j' :: IsBraceMatch(text, i', j') ==> i <= i' && (i' == i ==> j' <= j)
  }

  /** `BraceSpan` finds exactly the match the regular expression reports:
      none when no `}` follows a `{`, otherwise the leftmost-longest one. */
  lemma BraceSpanIsRegexMatch(text: string)
    ensures BraceSpan(text).Some? <==> exists i, j :: IsBraceMatch(text, i, j)
    ensures BraceSpan(text).Some? ==> exists i, j :: IsLeftmostLongest(text, i, j)
    ensures forall i, j :: IsLeftmostLongest(text, i, j) ==> BraceSpan(text) == Some(text[i..j + 1])
  {
    var fi, lj := FirstIndex(text, '{'), LastIndex(text, '}');
    forall i, j | IsBraceMatch(text, i, j)
      ensures fi.Some? && lj.Some? && fi.value <= i && j <= lj.value
    {
      assert text[i] == '{' && text[j] == '}';
    }
    if BraceSpan(text).Some? {
      assert IsBraceMatch(text, fi.value, lj.value);
      assert IsLeftmostLongest(text, fi.value, lj.value);
    }
  }

  /** A JSON object text with no `{` in the prose before it and no `}` in
      the prose after it is extracted exactly. */
  lemma EmbeddedObjectExtracted(before: string, obj: string, after: string)
    requires '{' !in before && '}' !in after
    requires |obj| >= 2 && obj[0] == '{' && obj[|obj| - 1] == '}'
    ensures BraceSpan(before + obj + after) == Some(obj)
  {
    var text := before + obj + after;
    var i, j := |before|, |before| + |obj| - 1;
    assert text[i] == '{' && text[j] == '}';
    var fi, lj := FirstIndex(text, '{'), LastIndex(text, '}');
    assert fi == Some(i);
    assert lj == Some(j);
    assert text[i..j + 1] == obj;
  }

  /** The decode-or-fallback step applied to the model's reply text. */
  function NormalizeReply(text: string, parse: Decoder): (r: Json)
    ensures (forall i, j :: !IsBraceMatch(text, i, j)) ==> r == FallbackSet
    ensures forall i, j :: IsLeftmostLongest(text, i, j) && parse(text[i..j + 1]).None? ==> r == FallbackSet
    ensures forall i, j :: IsLeftmostLongest(text, i, j) && parse(text[i..j + 1]).Some? ==>
      r == parse(text[i..j + 1]).value
  {
    BraceSpanIsRegexMatch(text);
    match BraceSpan(text)
    case None => FallbackSet
    case Some(span) =>
      match parse(span)
      case Some(decoded) => decoded
      case None => FallbackSet
  }

  /** `AIService.generateAffirmations`: a failed model call is rethrown
      under a fixed message and never replaced by the fallback; a reply is
      normalised. */
  function GenerateAffirmations(p: ProblemData, model: Model, parse: Decoder): (r: Result<Json, string>)
    ensures r.Failure? <==> model(FullSetPrompt(p)).Failure?
    ensures r.Failure? ==> r.error == CallFailedMessage
    ensures r.Success? ==> r.value == NormalizeReply(model(FullSetPrompt(p)).value, parse)
  {
    match model(FullSetPrompt(p))
    case Failure(_) => Failure(CallFailedMessage)
    case Success(text) => Success(NormalizeReply(text, parse))
  }

  /** The fallback object carries the three arrays with the canned strings,
      5, 3 and 2 of them. */
  lemma FallbackSetShape()
    ensures Get(FallbackSet, "affirmations") == Some(Strings(FallbackAffirmations))
    ensures Get(FallbackSet, "solutions") == Some(Strings(FallbackSolutions))
    ensures Get(FallbackSet, "motivational") == Some(Strings(FallbackMotivational))
    ensures |FallbackAffirmations| == 5 && |FallbackSolutions| == 3 && |FallbackMotivational| == 2
  {
  }

  /** A reply without any `{`, such as an apology, yields the fallback set
      whatever the decoder does. */
  lemma ProseReplyYieldsFallback(p: ProblemData, model: Model, parse: Decoder)
    requires model(FullSetPrompt(p)).Success? && '{' !in model(FullSetPrompt(p)).value
    ensures GenerateAffirmations(p, model, parse) == Success(FallbackSet)
  {
  }

  /** A JSON object embedded in prose is decoded and returned as it is:
      whatever its arrays hold, they are not checked, padded to 5, 3 and 2
      or truncated. */
  lemma DecodedReplyNotPadded(p: ProblemData, model: Model, parse: Decoder,
                              before: string, obj: string, after: string, v: Json)
    requires '{' !in before && '}' !in after
    requires |obj| >= 2 && obj[0] == '{' && obj[|obj| - 1] == '}'
    requires model(FullSetPrompt(p)) == Success(before + obj + after)
    requires parse(obj) == Some(v)
    ensures GenerateAffirmations(p, model, parse) == Success(v)
  {
    EmbeddedObjectExtracted(before, obj, after);
  }

  const PersonalizedIntro: string :=
    "\n  Create a personalized affirmation for someone dealing with:"

  const PersonalizedInstructions: string :=
    "\n  Generate a single, powerful affirmation that is:\n  - Personal and specific to their situation\n  - Positive and empowering\n  - Believable and achievable\n  - In present tense using \"I\" statements\n  - Tailored to their specific problem description\n\n  Return only the affirmation text, no additional formatting.\n  "

  /** The problem and preference lines of the single-affirmation prompt,
      with `tone = 'encouraging'` and `length = 'medium'` as defaults. */
  function PreferenceLines(d: PersonalData, prefs: Preferences): string {
    "\n  Category: " + ToText(d.category)
    + "\n  Problem: " + ToText(d.description)
    + "\n  Tone: " + ToText(prefs.tone.GetOr(DefaultTone))
    + "\n  Length: " + ToText(prefs.length.GetOr(DefaultLength))
    + "\n"
  }

  /** The prompt asking for one bare affirmation. */
  function PersonalizedPrompt(d: PersonalData, prefs: Preferences): string {
    PersonalizedIntro + PreferenceLines(d, prefs) + PersonalizedInstructions
  }

  /** The prompt shows category and description, and the tone and length
      given, or `encouraging` and `medium` where the preference is absent. */
  lemma PersonalizedPromptShowsPreferences(d: PersonalData, prefs: Preferences)
    ensures IsInfix(
      "\n  Category: " + ToText(d.category) + "\n  Problem: " + ToText(d.description)
      + "\n  Tone: " + (if prefs.tone.Some? then ToText(prefs.tone.value) else "encouraging")
      + "\n  Length: " + (if prefs.length.Some? then ToText(prefs.length.value) else "medium") + "\n",
      PersonalizedPrompt(d, prefs))
  {
    InfixOfConcat(PersonalizedIntro, PreferenceLines(d, prefs), PersonalizedInstructions);
  }

  /** `AIService.generatePersonalizedAffirmation`: the trimmed reply, or the
      fixed sentence when the call fails; it never fails itself. */
  function GeneratePersonalizedAffirmation(d: PersonalData, prefs: Preferences, model: Model): (r: string)
    ensures model(PersonalizedPrompt(d, prefs)).Failure? ==> r == FallbackSentence
    ensures model(PersonalizedPrompt(d, prefs)).Success? ==> IsTrimOf(r, model(PersonalizedPrompt(d, prefs)).value)
  {
    match model(PersonalizedPrompt(d, prefs))
    case Failure(_) => FallbackSentence
    case Success(text) => Trim(text)
  }
}
