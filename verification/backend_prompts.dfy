/** The prompts the API server sends to the language model: fixed templates around the
    document text and the user's input, with one optional clause each for keywords and
    context. */
module BackendPrompts {
  import opened Optional
  import opened Text

  const QaLead: string := "Here is the entire document content:\n\n"
  const QaQuestion: string := "\n\nQuestion: "
  const QaTail: string := "\nAnswer:"

  /** The question-answering prompt: the whole document, then the question. */
  function QaPrompt(text: string, query: string): string {
    QaLead + text + QaQuestion + query + QaTail
  }

  /** The document sits right after the fixed opening and the question right before the
      fixed closing, both verbatim. */
  lemma QaPromptEmbeds(text: string, query: string)
    ensures var p := QaPrompt(text, query);
      && |p| == |QaLead| + |text| + |QaQuestion| + |query| + |QaTail|
      && p[|QaLead|..|QaLead| + |text|] == text
      && p[|p| - |QaTail| - |query|..|p| - |QaTail|] == query
      && p[|p| - |QaTail|..] == QaTail
  {
    var p := QaPrompt(text, query);
    assert p == (QaLead + text + QaQuestion) + query + QaTail;
  }

  /** Over the same document, the prompt tells apart every two questions. */
  lemma QaPromptDeterminesQuery(text: string, q1: string, q2: string)
    requires QaPrompt(text, q1) == QaPrompt(text, q2)
    ensures q1 == q2
  {
    assert QaPrompt(text, q1) == (QaLead + text + QaQuestion) + q1 + QaTail;
    assert QaPrompt(text, q2) == (QaLead + text + QaQuestion) + q2 + QaTail;
    FramedEqual(QaLead + text + QaQuestion, q1, q2, QaTail);
  }

  const KeyInfoLead: string := "PDF Content:\n"

  function KeywordClause(keywords: string): string {
    "Focus on these keywords: " + keywords + ".\n"
  }

  function LengthClause(summaryLength: string): string {
    "Provide a " + summaryLength + " summary of the key information."
  }

  /** The summarization prompt: the document, the keyword clause when `keywords` is truthy,
      and the requested length, which is put in as given. */
  function KeyInfoPrompt(text: string, summaryLength: string, keywords: Option<string>): string {
    KeyInfoLead + text + "\n\n"
    + (if Truthy(keywords) then KeywordClause(keywords.value) else "")
    + LengthClause(summaryLength)
  }

  /** The prompt opens with the document and always closes with the length sentence; with
      truthy keywords the keyword clause comes just before that sentence. */
  lemma KeyInfoFrame(text: string, summaryLength: string, keywords: Option<string>)
    ensures var p := KeyInfoPrompt(text, summaryLength, keywords);
      var close := LengthClause(summaryLength);
      && KeyInfoLead + text <= p
      && |close| <= |p| && p[|p| - |close|..] == close
      && (Truthy(keywords) ==>
            var k := KeywordClause(keywords.value);
            |k| + |close| <= |p| && p[|p| - |close| - |k|..|p| - |close|] == k)
  {
    var p := KeyInfoPrompt(text, summaryLength, keywords);
    var mid := if Truthy(keywords) then KeywordClause(keywords.value) else "";
    assert p == (KeyInfoLead + text) + ("\n\n" + mid + LengthClause(summaryLength));
    assert p == (KeyInfoLead + text + "\n\n") + mid + LengthClause(summaryLength);
  }

  /** The keywords change the prompt exactly when they are truthy: `None` and the empty
      string leave it as if no keywords were given. */
  lemma KeyInfoKeywordsMatterIffTruthy(text: string, summaryLength: string, keywords: Option<string>)
    ensures KeyInfoPrompt(text, summaryLength, keywords) != KeyInfoPrompt(text, summaryLength, None)
        <==> Truthy(keywords)
  {
    if Truthy(keywords) {
      assert |KeyInfoPrompt(text, summaryLength, keywords)| > |KeyInfoPrompt(text, summaryLength, None)|;
    }
  }

  function TermHead(term: string): string {
    "Explain the term '" + term + "'."
  }

  function ContextClause(context: string): string {
    " Provide the explanation in the context of: " + context + "."
  }

  const GeneralClause: string := " Provide a general explanation."

  /** The term-explanation prompt: the quoted term, then the context clause when `context`
      is truthy and the general clause otherwise. */
  function TermPrompt(term: string, context: Option<string>): string {
    TermHead(term) + (if Truthy(context) then ContextClause(context.value) else GeneralClause)
  }

  /** The context changes the prompt exactly when it is truthy; the term is always quoted at
      the start. */
  lemma TermContextMattersIffTruthy(term: string, context: Option<string>)
    ensures TermHead(term) <= TermPrompt(term, context)
    ensures TermPrompt(term, context) != TermPrompt(term, None) <==> Truthy(context)
  {
    var h := TermHead(term);
    if Truthy(context) {
      var c := ContextClause(context.value);
      assert TermPrompt(term, context)[|h| + 9] == c[9] == 't';
      assert TermPrompt(term, None)[|h| + 9] == GeneralClause[9] == 'a';
    }
  }

  const MisinformationLead: string :=
    "Analyze the following text segment for potential misinformation. "
    + "Provide a brief assessment of its likelihood of being misinformation "
    + "and highlight any specific claims that might be inaccurate or misleading. "
    + "Text to analyze: \""

  const SentimentLead: string :=
    "Analyze the sentiment of the following text segment. "
    + "Indicate whether the sentiment is positive, negative, or neutral, "
    + "and briefly explain your reasoning. "
    + "Text to analyze: \""

  function MisinformationPrompt(segment: string): string {
    MisinformationLead + segment + "\""
  }

  function SentimentPrompt(segment: string): string {
    SentimentLead + segment + "\""
  }

  /** The segment closes the misinformation prompt verbatim, inside double quotes, and the
      prompt tells apart every two segments. */
  lemma MisinformationPromptQuotes(s1: string, s2: string)
    ensures var p := MisinformationPrompt(s1);
      |s1| + 2 <= |p| && p[|p| - |s1| - 2..] == "\"" + s1 + "\""
    ensures MisinformationPrompt(s1) == MisinformationPrompt(s2) ==> s1 == s2
  {
    var p := MisinformationPrompt(s1);
    assert p == MisinformationLead[..|MisinformationLead| - 1] + ("\"" + s1 + "\"");
    if MisinformationPrompt(s1) == MisinformationPrompt(s2) {
      FramedEqual(MisinformationLead, s1, s2, "\"");
    }
  }

  /** The segment closes the sentiment prompt verbatim, inside double quotes, and the prompt
      tells apart every two segments. */
  lemma SentimentPromptQuotes(s1: string, s2: string)
    ensures var p := SentimentPrompt(s1);
      |s1| + 2 <= |p| && p[|p| - |s1| - 2..] == "\"" + s1 + "\""
    ensures SentimentPrompt(s1) == SentimentPrompt(s2) ==> s1 == s2
  {
    var p := SentimentPrompt(s1);
    assert p == SentimentLead[..|SentimentLead| - 1] + ("\"" + s1 + "\"");
    if SentimentPrompt(s1) == SentimentPrompt(s2) {
      FramedEqual(SentimentLead, s1, s2, "\"");
    }
  }
}
