/** The prompts of the Streamlit application. The summary and term prompts are assembled
    from a list of parts: a fixed choice among instructions, optional lines for keywords
    and context, and fixed closings. The misinformation and sentiment prompts are single
    templates. */
module StreamlitPrompts {
  import opened Optional
  import opened Text

  const ShortInstruction: string := "Provide a very brief summary " + "(1-2 sentences)."
  const MediumInstruction: string := "Provide a concise summary " + "(3-5 sentences)."
  const LongInstruction: string := "Provide a detailed summary " + "(6-8 sentences)."
  const ComprehensiveInstruction: string :=
    "Provide a comprehensive summary " + "that includes:\n"
    + "1. **Main Ideas:** Identify the core concepts and arguments presented.\n"
    + "2. **Useful Information:** Extract key facts, data, or insights that are particularly valuable.\n"
    + "3. **Quotable Passages:** Pinpoint specific sentences or phrases that are impactful, insightful, or representative of the text's message.\n"
    + "4. **Concise Summary:** Provide a brief overview of the entire text, removing any redundancies and focusing on the most critical information."

  const KeySentencesInstruction: string :=
    "\n\nIdentify and list the key sentences "
    + "from the original text that were most important for creating the summary, under the heading 'Key Sentences for Summary:'."

  const ComprehensiveClosing: string :=
    "\nPlease structure your full response "
    + "clearly, using headings for each section (Main Ideas, Useful Information, Quotable Passages, Concise Summary, Key Sentences for Summary:)."

  const PlainClosing: string :=
    "\nPlease structure your response "
    + "clearly, using headings for the summary and 'Key Sentences for Summary:'."

  const LengthInstructions: seq<string> :=
    [ShortInstruction, MediumInstruction, LongInstruction, ComprehensiveInstruction]

  function Opening(pdfText: string): string {
    "Analyze the following text:\n\n" + pdfText + "\n\n"
  }

  /** The instruction for a requested length; anything but the three named lengths falls to
      the comprehensive one. */
  function LengthInstruction(summaryLength: string): (r: string)
    ensures r in LengthInstructions
  {
    if summaryLength == "Short" then ShortInstruction
    else if summaryLength == "Medium" then MediumInstruction
    else if summaryLength == "Long" then LongInstruction
    else ComprehensiveInstruction
  }

  function KeywordLine(keywords: string): string {
    "\nFocus the summary on aspects " + "related to the following keywords: " + keywords + "."
  }

  /** The closing: the sectioned one for exactly "Comprehensive", the plain one otherwise. */
  function Closing(summaryLength: string): string {
    if summaryLength == "Comprehensive" then ComprehensiveClosing else PlainClosing
  }

  /** The parts of the summary prompt, in order. */
  function KeyInfoParts(pdfText: string, summaryLength: string, keywords: Option<string>): seq<string> {
    Assemble(Opening(pdfText), LengthInstruction(summaryLength),
      if Truthy(keywords) then Some(KeywordLine(keywords.value)) else None,
      KeySentencesInstruction, Closing(summaryLength))
  }

  /** Opening, instruction, the keyword line when there is one, key-sentences request, closing. */
  function Assemble(opening: string, instruction: string, keywordLine: Option<string>,
                    keySentences: string, closing: string): seq<string> {
    [opening, instruction]
    + (if keywordLine.Some? then [keywordLine.value] else [])
    + [keySentences, closing]
  }

  /** `extract_key_info` up to the model call: the parts are appended one by one and joined
      with newlines. */
  method ExtractKeyInfo(pdfText: string, summaryLength: string, keywords: Option<string>) returns (prompt: string)
    ensures prompt == Join(KeyInfoParts(pdfText, summaryLength, keywords), "\n")
  {
    var parts := [Opening(pdfText)];
    if summaryLength == "Short" {
      parts := parts + [ShortInstruction];
    } else if summaryLength == "Medium" {
      parts := parts + [MediumInstruction];
    } else if summaryLength == "Long" {
      parts := parts + [LongInstruction];
    } else {
      parts := parts + [ComprehensiveInstruction];
    }
    if Truthy(keywords) {
      parts := parts + [KeywordLine(keywords.value)];
    }
    parts := parts + [KeySentencesInstruction];
    if summaryLength == "Comprehensive" {
      parts := parts + [ComprehensiveClosing];
    } else {
      parts := parts + [PlainClosing];
    }
    AppendedInOrder(Opening(pdfText), LengthInstruction(summaryLength),
      KeywordLine(if Truthy(keywords) then keywords.value else ""),
      KeySentencesInstruction, Closing(summaryLength));
    prompt := Join(parts, "\n");
  }

  /** Appending the parts one by one, the keyword line only when there is one, assembles
      them. */
  lemma AppendedInOrder(opening: string, instruction: string, keywordLine: string,
                        keySentences: string, closing: string)
    ensures [opening] + [instruction] + [keywordLine] + [keySentences] + [closing]
         == Assemble(opening, instruction, Some(keywordLine), keySentences, closing)
    ensures [opening] + [instruction] + [keySentences] + [closing]
         == Assemble(opening, instruction, None, keySentences, closing)
  {
  }

  /** Exactly one part is a length instruction: the second, chosen by the requested length,
      with the three named lengths given their own sentence and every other value the
      comprehensive one. */
  lemma OneLengthInstruction(pdfText: string, summaryLength: string, keywords: Option<string>)
    ensures var parts := KeyInfoParts(pdfText, summaryLength, keywords);
      && parts[1] == LengthInstruction(summaryLength)
      && forall i :: 0 <= i < |parts| && i != 1 ==> parts[i] !in LengthInstructions
    ensures summaryLength == "Short" ==> LengthInstruction(summaryLength) == ShortInstruction
    ensures summaryLength == "Medium" ==> LengthInstruction(summaryLength) == MediumInstruction
    ensures summaryLength == "Long" ==> LengthInstruction(summaryLength) == LongInstruction
    ensures summaryLength !in ["Short", "Medium", "Long"] ==>
      LengthInstruction(summaryLength) == ComprehensiveInstruction
  {
    var kw := if Truthy(keywords) then keywords.value else "";
    InstructionsLead();
    LaterPartsLead(summaryLength, kw);
    assert Opening(pdfText)[0] == 'A';
    OnlySecondLeadsWith(Opening(pdfText), LengthInstruction(summaryLength),
      if Truthy(keywords) then Some(KeywordLine(kw)) else None,
      KeySentencesInstruction, Closing(summaryLength), LengthInstructions, 'P');
  }

  /** When every string of `lead` starts with `c` and no part but the second does, no part
      but the second is in `lead`. */
  lemma OnlySecondLeadsWith(opening: string, instruction: string, keywordLine: Option<string>,
                            keySentences: string, closing: string, lead: seq<string>, c: char)
    requires forall s :: s in lead ==> s != [] && s[0] == c
    requires opening != [] && opening[0] != c
    requires keywordLine.Some? ==> keywordLine.value != [] && keywordLine.value[0] != c
    requires keySentences != [] && keySentences[0] != c
    requires closing != [] && closing[0] != c
    ensures var parts := Assemble(opening, instruction, keywordLine, keySentences, closing);
      && parts[1] == instruction
      && forall i :: 0 <= i < |parts| && i != 1 ==> parts[i] !in lead
  {
    var parts := Assemble(opening, instruction, keywordLine, keySentences, closing);
    forall i | 0 <= i < |parts| && i != 1
      ensures parts[i] !in lead
    {
      assert parts[i] != [] && parts[i][0] != c;
    }
  }

  /** A part that looks like a keyword line. */
  predicate IsKeywordLine(s: string) {
    |s| >= 2 && s[0] == '\n' && s[1] == 'F'
  }

  /** The keyword line is there exactly when `keywords` is truthy, and then it is the third
      part and names the keywords. */
  lemma KeywordLineIffTruthy(pdfText: string, summaryLength: string, keywords: Option<string>)
    ensures var parts := KeyInfoParts(pdfText, summaryLength, keywords);
      && ((exists i :: 0 <= i < |parts| && IsKeywordLine(parts[i])) <==> Truthy(keywords))
      && |parts| == (if Truthy(keywords) then 5 else 4)
      && (Truthy(keywords) ==> parts[2] == KeywordLine(keywords.value))
  {
    var kw := if Truthy(keywords) then keywords.value else "";
    InstructionsLead();
    LaterPartsLead(summaryLength, kw);
    assert Opening(pdfText)[0] == 'A';
    assert LengthInstruction(summaryLength) in LengthInstructions;
    OptionalSlot(Opening(pdfText), LengthInstruction(summaryLength),
      if Truthy(keywords) then Some(KeywordLine(kw)) else None,
      KeySentencesInstruction, Closing(summaryLength));
  }

  /** The keyword line is the one part that looks like one: present exactly when given, and
      then third. */
  lemma OptionalSlot(opening: string, instruction: string, keywordLine: Option<string>,
                     keySentences: string, closing: string)
    requires !IsKeywordLine(opening) && !IsKeywordLine(instruction)
    requires !IsKeywordLine(keySentences) && !IsKeywordLine(closing)
    requires keywordLine.Some? ==> IsKeywordLine(keywordLine.value)
    ensures var parts := Assemble(opening, instruction, keywordLine, keySentences, closing);
      && ((exists i :: 0 <= i < |parts| && IsKeywordLine(parts[i])) <==> keywordLine.Some?)
      && |parts| == (if keywordLine.Some? then 5 else 4)
      && (keywordLine.Some? ==> parts[2] == keywordLine.value)
  {
    var parts := Assemble(opening, instruction, keywordLine, keySentences, closing);
    if keywordLine.Some? {
      assert IsKeywordLine(parts[2]);
    } else {
      assert parts == [opening, instruction, keySentences, closing];
    }
  }

  /** Every length instruction starts with 'P'. */
  lemma InstructionsLead()
    ensures forall s :: s in LengthInstructions ==> |s| >= 2 && s[0] == 'P'
  {
  }

  /** The key-sentences request and the closings start with a line break and then a
      character other than 'F'; the keyword line with a line break and then 'F'. */
  lemma LaterPartsLead(summaryLength: string, keywords: string)
    ensures var ks := KeySentencesInstruction; |ks| >= 2 && ks[0] == '\n' && ks[1] == '\n'
    ensures var c := Closing(summaryLength); |c| >= 2 && c[0] == '\n' && c[1] == 'P'
    ensures var k := KeywordLine(keywords); |k| >= 2 && k[0] == '\n' && k[1] == 'F'
  {
  }

  /** The key-sentences request is always there, second to last: after the keyword line
      when there is one, and just before the closing. */
  lemma KeySentencesBeforeClosing(pdfText: string, summaryLength: string, keywords: Option<string>)
    ensures var parts := KeyInfoParts(pdfText, summaryLength, keywords);
      && |parts| >= 4
      && parts[|parts| - 2] == KeySentencesInstruction
      && parts[|parts| - 1] == Closing(summaryLength)
  {
  }

  /** The sectioned closing is used exactly for the literal "Comprehensive"; a length outside
      the four options therefore gets the comprehensive instruction but the plain
      closing. */
  lemma ClosingIffComprehensive(pdfText: string, summaryLength: string, keywords: Option<string>)
    ensures var parts := KeyInfoParts(pdfText, summaryLength, keywords);
      parts[|parts| - 1] == ComprehensiveClosing <==> summaryLength == "Comprehensive"
    ensures summaryLength !in ["Short", "Medium", "Long", "Comprehensive"] ==>
      var parts := KeyInfoParts(pdfText, summaryLength, keywords);
      parts[1] == ComprehensiveInstruction && parts[|parts| - 1] == PlainClosing
  {
    assert |ComprehensiveClosing| != |PlainClosing|;
  }

  /** The joined prompt opens with the document, verbatim, and ends with the closing. */
  lemma KeyInfoPromptFrame(pdfText: string, summaryLength: string, keywords: Option<string>)
    ensures var p := Join(KeyInfoParts(pdfText, summaryLength, keywords), "\n");
      var close := Closing(summaryLength);
      && "Analyze the following text:\n\n" + pdfText <= p
      && |close| <= |p| && p[|p| - |close|..] == close
  {
    var parts := KeyInfoParts(pdfText, summaryLength, keywords);
    JoinStartsWithFirst(parts, "\n");
    JoinEndsWithLast(parts, "\n");
    assert Opening(pdfText) == ("Analyze the following text:\n\n" + pdfText) + "\n\n";
  }

  function TermOpening(term: string): string {
    "You are an expert at explaining complex terms and concepts.\nTerm to explain: '" + term + "'\n"
  }

  function ContextLine(context: string): string {
    "Provided context: '" + context + "'\n"
  }

  const NoContextLine: string := "No specific context provided.\n"

  const TermInstructions: string :=
    "\nPlease provide:\n"
    + "1. A clear definition of the term.\n"
    + "2. An explanation of the term, specifically considering the provided context (if any). If no context is given, provide a general explanation.\n"
    + "3. A list of related concepts or any additional relevant information.\n"
    + "4. (Optional) Suggest 1-2 full URL links to highly reputable sources (like Wikipedia or well-known academic/professional sites) for further reading on this term. Ensure the links are full URLs.\n"

  /** The parts of the term prompt: the term, the context line or the no-context line, the
      instructions. */
  function TermParts(term: string, context: Option<string>): seq<string> {
    [ TermOpening(term),
      if Truthy(context) then ContextLine(context.value) else NoContextLine,
      TermInstructions ]
  }

  /** `explain_term` up to the model call: the parts are appended and joined with nothing
      between them. */
  method ExplainTerm(term: string, context: Option<string>) returns (prompt: string)
    ensures prompt == Join(TermParts(term, context), "")
  {
    var parts := [TermOpening(term)];
    if Truthy(context) {
      parts := parts + [ContextLine(context.value)];
    } else {
      parts := parts + [NoContextLine];
    }
    parts := parts + [TermInstructions];
    assert parts == TermParts(term, context);
    prompt := Join(parts, "");
  }

  /** The term prompt is its three parts run together; the context line is there exactly
      when `context` is truthy, and otherwise the prompt says that no context was given. */
  lemma TermPromptContextIffTruthy(term: string, context: Option<string>)
    ensures var p := Join(TermParts(term, context), "");
      var mid := if Truthy(context) then ContextLine(context.value) else NoContextLine;
      p == TermOpening(term) + mid + TermInstructions
    ensures Join(TermParts(term, context), "") != Join(TermParts(term, None), "") <==> Truthy(context)
  {
    var h := TermOpening(term);
    var mid := if Truthy(context) then ContextLine(context.value) else NoContextLine;
    JoinThreeTogether(h, mid, TermInstructions);
    if Truthy(context) {
      JoinThreeTogether(h, NoContextLine, TermInstructions);
      ContextLineIsNotNoContextLine(context.value);
      DifferAfter(h, mid, NoContextLine, TermInstructions, TermInstructions);
    }
  }

  /** The context line and the no-context line start differently. */
  lemma ContextLineIsNotNoContextLine(context: string)
    ensures ContextLine(context) != [] && NoContextLine != []
    ensures ContextLine(context)[0] != NoContextLine[0]
  {
    assert ContextLine(context)[0] == 'P';
    assert NoContextLine[0] == 'N';
  }

  const MisinformationIntro: string :=
    "You are an analytical AI assistant. Analyze the following text segment for potential misinformation.\n"
    + "\nText Segment:\n"

  const MisinformationOutro: string :=
    "\n\nPlease perform the following:\n"
    + "1.  Identify specific claims or statements within this text that might be controversial, lack widely accepted evidence, or could be potentially misleading.\n"
    + "2.  For each identified claim, provide a brief assessment of its likely accuracy.\n"
    + "3.  IMPORTANT: Conclude your analysis with the following disclaimer: 'This assessment is based on my training data up to my last update and is not a real-time or infallible fact-check. Always verify critical information from multiple reputable sources.'\n"
    + "\nIf no potentially problematic claims are identified, state that clearly.\n"

  const SentimentIntro: string :=
    "Analyze the sentiment of the following text segment.\n"
    + "Classify the sentiment as 'Positive', 'Negative', or 'Neutral'.\n"
    + "Provide a brief explanation for your classification.\n"
    + "Optionally, include a confidence score for your classification.\n"
    + "\nText Segment:\n"

  const SentimentOutro: string :=
    "\n\nFormat your response as:\n"
    + "Sentiment: [Positive/Negative/Neutral]\n"
    + "Confidence: [0.xx] (Optional)\n"
    + "Explanation: [Your explanation]\n"

  /** The segment between single quotes on its own line, after the task and before the
      instructions. */
  function MisinformationPrompt(segment: string): string {
    MisinformationIntro + "'" + segment + "'" + MisinformationOutro
  }

  function SentimentPrompt(segment: string): string {
    SentimentIntro + "'" + segment + "'" + SentimentOutro
  }

  /** The segment sits verbatim between single quotes at the same place in every
      misinformation prompt, and the prompt tells apart every two segments. */
  lemma MisinformationPromptQuotes(s1: string, s2: string)
    ensures var p := MisinformationPrompt(s1); var at := |MisinformationIntro|;
      && |p| == |MisinformationIntro| + |s1| + 2 + |MisinformationOutro|
      && p[at..at + |s1| + 2] == "'" + s1 + "'"
    ensures MisinformationPrompt(s1) == MisinformationPrompt(s2) ==> s1 == s2
  {
    QuotedAt(MisinformationIntro, s1, MisinformationOutro);
    if MisinformationPrompt(s1) == MisinformationPrompt(s2) {
      QuotedDetermines(MisinformationIntro, s1, s2, MisinformationOutro);
    }
  }

  /** The same for the sentiment prompt. */
  lemma SentimentPromptQuotes(s1: string, s2: string)
    ensures var p := SentimentPrompt(s1); var at := |SentimentIntro|;
      && |p| == |SentimentIntro| + |s1| + 2 + |SentimentOutro|
      && p[at..at + |s1| + 2] == "'" + s1 + "'"
    ensures SentimentPrompt(s1) == SentimentPrompt(s2) ==> s1 == s2
  {
    QuotedAt(SentimentIntro, s1, SentimentOutro);
    if SentimentPrompt(s1) == SentimentPrompt(s2) {
      QuotedDetermines(SentimentIntro, s1, s2, SentimentOutro);
    }
  }
}
