/** The AI service module: the two prompt templates, the mapping from the
    model's reply to a result or one fixed error, and the response schemas.
    The model call itself is the parameter `generate` (prompt to reply text,
    or a failure), and JSON.parse is the parameter `parse`. */
module GeminiService {
  import opened Core
  import opened Types

  // ---------------------------------------------------------------------
  // Prompt templates

  const RagPromptHead := "\n    You are an expert AI legal research assistant. Your task is to analyze the provided legal document context and answer the user's question based *exclusively* on that context.\n    USER QUESTION: \""
  const RagPromptMiddle := "\"\n    DOCUMENT CONTEXT:\n    ---\n    "
  const RagPromptTail := "\n    ---\n    Format the final output as a valid JSON object matching the required schema.\n  "

  /** A template with one field: `head + field + tail`. */
  function Fill1(head: string, field: string, tail: string): (p: string)
    ensures StartsWith(p, head)
    ensures OccursAt(p, field, |head|)
    ensures OccursAt(p, tail, |head| + |field|)
    ensures |p| == |head| + |field| + |tail|
  {
    var p := head + field + tail;
    assert p[..|head|] == head;
    assert p[|head|..|head| + |field|] == field;
    assert p[|head| + |field|..|p|] == tail;
    p
  }

  /** A template with two fields: `head + first + middle + second + tail`. */
  function Fill2(head: string, first: string, middle: string, second: string, tail: string): (p: string)
    ensures StartsWith(p, head)
    ensures OccursAt(p, first, |head|)
    ensures OccursAt(p, middle, |head| + |first|)
    ensures OccursAt(p, second, |head| + |first| + |middle|)
    ensures OccursAt(p, tail, |head| + |first| + |middle| + |second|)
    ensures |p| == |head| + |first| + |middle| + |second| + |tail|
  {
    var p := head + first + middle + second + tail;
    var i := |head| + |first|;
    var j := i + |middle| + |second|;
    assert p[..|head|] == head;
    assert p[|head|..i] == first;
    assert p[i..i + |middle|] == middle;
    assert p[i + |middle|..j] == second;
    assert p[j..|p|] == tail;
    p
  }

  /** The RAG prompt: the query, unescaped, inside double quotes after
      "USER QUESTION: ", and the context, unescaped, between two `---` lines. */
  function RagPrompt(query: string, context: string): (p: string)
    ensures OccursAt(p, query, |RagPromptHead|)
    ensures OccursAt(p, context, |RagPromptHead| + |query| + |RagPromptMiddle|)
    ensures StartsWith(p, RagPromptHead)
    ensures |p| == |RagPromptHead| + |query| + |RagPromptMiddle| + |context| + |RagPromptTail|
  {
    Fill2(RagPromptHead, query, RagPromptMiddle, context, RagPromptTail)
  }

  /** Both delimiters sit where the template puts them: the closing quote and
      the opening `---` right after the query, the closing `---` right after
      the context. */
  lemma RagPromptDelimiters(query: string, context: string)
    ensures OccursAt(RagPrompt(query, context), RagPromptMiddle, |RagPromptHead| + |query|)
    ensures OccursAt(RagPrompt(query, context), RagPromptTail, |RagPromptHead| + |query| + |RagPromptMiddle| + |context|)
  {
  }

  /** With no escaping, a query that contains the delimiter text is
      indistinguishable from a shorter query with a longer context. */
  lemma RagPromptNotEscaped()
    ensures RagPrompt("a" + RagPromptMiddle + "b", "c") == RagPrompt("a", "b" + RagPromptMiddle + "c")
  {
    DelimiterShifts(RagPromptHead, RagPromptMiddle, RagPromptTail, "a", "b", "c");
  }

  /** In a template that joins two fields with a delimiter, a delimiter inside
      the first field reads the same as one inside the second. */
  lemma DelimiterShifts(head: string, middle: string, tail: string, a: string, b: string, c: string)
    ensures head + (a + middle + b) + middle + c + tail == head + a + middle + (b + middle + c) + tail
  {
    assert a + middle + b + middle + c == a + middle + (b + middle + c);
  }

  predicate NoDoubleQuote(s: string) {
    forall i :: 0 <= i < |s| ==> s[i] != '"'
  }

  /** A query free of double quotes is recovered exactly from the prompt, and
      so is the context. */
  lemma RagPromptRecoverable(q1: string, c1: string, q2: string, c2: string)
    requires NoDoubleQuote(q1) && NoDoubleQuote(q2)
    requires RagPrompt(q1, c1) == RagPrompt(q2, c2)
    ensures q1 == q2 && c1 == c2
  {
    assert RagPromptMiddle[0] == '"';
    TemplateRecoverable(RagPromptHead, RagPromptMiddle, RagPromptTail, q1, c1, q2, c2);
  }

  /** In a template `head + query + middle + context + tail` whose middle opens
      with a double quote, a quote-free query and its context are determined
      by the text. */
  lemma TemplateRecoverable(head: string, middle: string, tail: string,
                            q1: string, c1: string, q2: string, c2: string)
    requires NoDoubleQuote(q1) && NoDoubleQuote(q2)
    requires |middle| > 0 && middle[0] == '"'
    requires head + q1 + middle + c1 + tail == head + q2 + middle + c2 + tail
    ensures q1 == q2 && c1 == c2
  {
    var t1 := middle + c1 + tail;
    var t2 := middle + c2 + tail;
    var h := |head|;
    assert head + q1 + middle + c1 + tail == head + (q1 + t1);
    assert head + q2 + middle + c2 + tail == head + (q2 + t2);
    assert q1 + t1 == (head + (q1 + t1))[h..];
    assert q2 + t2 == (head + (q2 + t2))[h..];
    QuoteSplit(q1, t1, q2, t2);
    var m := |middle|;
    assert c1 == t1[m..m + |c1|];
    assert c2 == t2[m..m + |c2|];
  }

  /** Two texts each made of a quote-free part and a rest that opens with a
      double quote are equal only when both parts are. */
  lemma QuoteSplit(q1: string, r1: string, q2: string, r2: string)
    requires q1 + r1 == q2 + r2
    requires NoDoubleQuote(q1) && NoDoubleQuote(q2)
    requires |r1| > 0 && r1[0] == '"' && |r2| > 0 && r2[0] == '"'
    ensures q1 == q2 && r1 == r2
  {
    FirstQuoteAfter(q1, r1);
    FirstQuoteAfter(q2, r2);
    assert q1 == (q1 + r1)[..|q1|];
    assert q2 == (q2 + r2)[..|q2|];
    assert r1 == (q1 + r1)[|q1|..];
    assert r2 == (q2 + r2)[|q2|..];
  }

  /** The index of the first double quote in `s`, or `|s|` when there is none. */
  function FirstQuote(s: string): (k: nat)
    ensures k <= |s|
  {
    if s == [] then 0 else if s[0] == '"' then 0 else 1 + FirstQuote(s[1..])
  }

  lemma {:induction false} FirstQuoteAfter(q: string, r: string)
    requires NoDoubleQuote(q) && |r| > 0 && r[0] == '"'
    ensures FirstQuote(q + r) == |q|
  {
    if q == [] {
      assert q + r == r;
    } else {
      assert (q + r)[1..] == q[1..] + r;
      FirstQuoteAfter(q[1..], r);
    }
  }

  const PrecedentPromptHead := "\n        You are an expert AI judicial assistant. Your task is to perform a comprehensive analysis of the provided case context and structure your findings in a precise JSON format.\n\n        1.  **Summarize Key Arguments**: Distill the core legal arguments from both the plaintiff and defendant.\n        2.  **Identify Influencing Statutes**: Pinpoint the top 3 statutes or key precedents from the context that are most influential. For each one, provide a clear, direct quote and a brief explanation of its relevance.\n        3.  **Check for Logical Consistency**: Analyze the arguments. Identify any potential gaps in legal reasoning or failures to address a critical point.\n        4.  **Detect Potential Bias**: Scrutinize the language for any indication of implicit bias. If detected, issue a concise warning.\n\n        CASE CONTEXT:\n        ---\n        "
  const PrecedentPromptTail := "\n        ---\n\n        Your response MUST be a valid JSON object matching the required schema.\n    "

  /** The precedent prompt: the context, unescaped, between the `---` lines
      that follow "CASE CONTEXT:". */
  function PrecedentPrompt(context: string): (p: string)
    ensures OccursAt(p, context, |PrecedentPromptHead|)
    ensures StartsWith(p, PrecedentPromptHead)
    ensures |p| == |PrecedentPromptHead| + |context| + |PrecedentPromptTail|
  {
    Fill1(PrecedentPromptHead, context, PrecedentPromptTail)
  }

  /** Different contexts give different precedent prompts. */
  lemma PrecedentPromptInjective(c1: string, c2: string)
    requires PrecedentPrompt(c1) == PrecedentPrompt(c2)
    ensures c1 == c2
  {
    Fill1Injective(PrecedentPromptHead, PrecedentPromptTail, c1, c2);
  }

  /** A one-field template determines its field. */
  lemma Fill1Injective(head: string, tail: string, f1: string, f2: string)
    requires Fill1(head, f1, tail) == Fill1(head, f2, tail)
    ensures f1 == f2
  {
    var p := Fill1(head, f1, tail);
    assert f1 == p[|head|..|head| + |f1|] == f2;
  }

  // ---------------------------------------------------------------------
  // Reply handling

  const RagError := "Failed to get a valid RAG analysis from the AI model."
  const PrecedentError := "Failed to get a valid precedent analysis from the AI model."

  /** performRAGSearch: the model is asked with the RAG prompt; its reply is
      trimmed, refused when nothing is left, and parsed. Every failure, of the
      call, the empty check or the parse, becomes the one fixed error. */
  function PerformRagSearch(query: string, context: string,
                            generate: string -> Outcome<string>,
                            parse: string -> Option<RagResult>): (r: Outcome<RagResult>)
    ensures r.Err? ==> r.message == RagError
    ensures r.Ok? <==>
      var reply := generate(RagPrompt(query, context));
      reply.Ok? && !IsBlank(reply.value) && parse(Trim(reply.value)).Some?
    ensures r.Ok? ==> r.value == parse(Trim(generate(RagPrompt(query, context)).value)).value
  {
    match generate(RagPrompt(query, context))
    case Err(_) => Err(RagError)
    case Ok(text) =>
      var jsonText := Trim(text);
      BlankIffTrimEmpty(text);
      if jsonText == [] then Err(RagError)
      else match parse(jsonText)
        case None => Err(RagError)
        case Some(result) => Ok(result)
  }

  /** A reply that is blank after trimming is refused even when the parser
      would accept the empty text. */
  lemma BlankRagReplyRefused(query: string, context: string,
                             generate: string -> Outcome<string>,
                             parse: string -> Option<RagResult>)
    requires generate(RagPrompt(query, context)).Ok?
    requires IsBlank(generate(RagPrompt(query, context)).value)
    ensures PerformRagSearch(query, context, generate, parse) == Err(RagError)
  {
  }

  /** getPrecedentAnalysis: the model is asked with the precedent prompt and
      its trimmed reply is parsed, with no separate empty check. Every failure
      becomes the one fixed error. */
  function GetPrecedentAnalysis(context: string,
                                generate: string -> Outcome<string>,
                                parse: string -> Option<PrecedentAnalysisResult>): (r: Outcome<PrecedentAnalysisResult>)
    ensures r.Err? ==> r.message == PrecedentError
    ensures r.Ok? <==>
      var reply := generate(PrecedentPrompt(context));
      reply.Ok? && parse(Trim(reply.value)).Some?
    ensures r.Ok? ==> r.value == parse(Trim(generate(PrecedentPrompt(context)).value)).value
  {
    match generate(PrecedentPrompt(context))
    case Err(_) => Err(PrecedentError)
    case Ok(text) =>
      match parse(Trim(text))
      case None => Err(PrecedentError)
      case Some(result) => Ok(result)
  }

  /** The two calls differ only in the empty check: a blank reply reaches the
      precedent parser as the empty text, so it fails exactly when the parser
      refuses "". */
  lemma BlankPrecedentReplyGoesToParser(context: string,
                                        generate: string -> Outcome<string>,
                                        parse: string -> Option<PrecedentAnalysisResult>)
    requires generate(PrecedentPrompt(context)).Ok?
    requires IsBlank(generate(PrecedentPrompt(context)).value)
    ensures GetPrecedentAnalysis(context, generate, parse).Ok? <==> parse("").Some?
  {
  }

  // ---------------------------------------------------------------------
  // Response schemas

  /** A response schema: a string, an array of one item schema, or an object
      with named property schemas and a list of required property names.
      Descriptions are not kept. */
  datatype Schema =
    | SString
    | SArray(items: Schema)
    | SObject(properties: seq<(string, Schema)>, required: seq<string>)

  function PropertyNames(properties: seq<(string, Schema)>): (names: seq<string>)
    ensures |names| == |properties|
    ensures forall i :: 0 <= i < |properties| ==> names[i] == properties[i].0
  {
    if properties == [] then [] else [properties[0].0] + PropertyNames(properties[1..])
  }

  /** Every `required` list names only properties declared beside it, and no
      object declares a property twice, at every level. */
  predicate WellFormed(s: Schema) {
    match s
    case SString => true
    case SArray(items) => WellFormed(items)
    case SObject(properties, required) =>
      && (forall n :: n in required ==> n in PropertyNames(properties))
      && (forall i, j :: 0 <= i < j < |properties| ==> properties[i].0 != properties[j].0)
      && (forall i :: 0 <= i < |properties| ==> WellFormed(properties[i].1))
  }

  /** Every declared property is required, at every level. */
  predicate FullyRequired(s: Schema) {
    match s
    case SString => true
    case SArray(items) => FullyRequired(items)
    case SObject(properties, required) =>
      && (forall i :: 0 <= i < |properties| ==> properties[i].0 in required)
      && (forall i :: 0 <= i < |properties| ==> FullyRequired(properties[i].1))
  }

  const RagSchema := SObject(
    [("answer", SString), ("citations", SArray(SString))],
    ["answer", "citations"])

  const KeyArgumentsSchema := SObject(
    [("plaintiff", SString), ("defendant", SString)],
    ["plaintiff", "defendant"])

  const InfluencingStatuteSchema := SObject(
    [("statute", SString), ("quote", SString), ("relevance", SString)],
    ["statute", "quote", "relevance"])

  const ConsistencyCheckSchema := SObject(
    [("issue", SString), ("explanation", SString)],
    ["issue", "explanation"])

  const BiasDetectionSchema := SObject([("warning", SString)], ["warning"])

  const PrecedentAnalysisSchema := SObject(
    [ ("keyArguments", KeyArgumentsSchema),
      ("influencingStatutes", SArray(InfluencingStatuteSchema)),
      ("consistencyCheck", SArray(ConsistencyCheckSchema)),
      ("biasDetection", BiasDetectionSchema) ],
    ["keyArguments", "influencingStatutes", "consistencyCheck", "biasDetection"])

  /** The RAG schema is well formed and requires both of its fields. */
  lemma RagSchemaSound()
    ensures WellFormed(RagSchema) && FullyRequired(RagSchema)
  {
    assert PropertyNames(RagSchema.properties) == ["answer", "citations"];
  }

  lemma KeyArgumentsSchemaSound()
    ensures WellFormed(KeyArgumentsSchema) && FullyRequired(KeyArgumentsSchema)
  {
    assert PropertyNames(KeyArgumentsSchema.properties) == ["plaintiff", "defendant"];
  }

  lemma InfluencingStatuteSchemaSound()
    ensures WellFormed(InfluencingStatuteSchema) && FullyRequired(InfluencingStatuteSchema)
  {
    assert PropertyNames(InfluencingStatuteSchema.properties) == ["statute", "quote", "relevance"];
  }

  lemma ConsistencyCheckSchemaSound()
    ensures WellFormed(ConsistencyCheckSchema) && FullyRequired(ConsistencyCheckSchema)
  {
    assert PropertyNames(ConsistencyCheckSchema.properties) == ["issue", "explanation"];
  }

  lemma BiasDetectionSchemaSound()
    ensures WellFormed(BiasDetectionSchema) && FullyRequired(BiasDetectionSchema)
  {
    assert PropertyNames(BiasDetectionSchema.properties) == ["warning"];
  }

  /** The precedent schema is well formed, requires every field at every
      level, and its top level requires exactly its four fields, in order. */
  lemma PrecedentSchemaSound()
    ensures WellFormed(PrecedentAnalysisSchema) && FullyRequired(PrecedentAnalysisSchema)
    ensures PrecedentAnalysisSchema.required == PropertyNames(PrecedentAnalysisSchema.properties)
  {
    KeyArgumentsSchemaSound();
    InfluencingStatuteSchemaSound();
    ConsistencyCheckSchemaSound();
    BiasDetectionSchemaSound();
    assert PropertyNames(PrecedentAnalysisSchema.properties)
        == ["keyArguments", "influencingStatutes", "consistencyCheck", "biasDetection"];
  }
}
