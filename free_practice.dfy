/**
 * The free mock language model used for practice: it takes the last
 * message of its input and answers with one of five canned replies, chosen
 * by keywords in the lower-cased text.
 */
module FreePractice {
  import opened Text

  /** What `invoke` may be given. */
  datatype Item =
    | Message(content: string)   // an object with a `content` attribute
    | Value(text: string)        // anything else, by its `str()`

  datatype Input =
    | WithContent(content: string)   // a message object itself
    | Items(items: seq<Item>)        // a list
    | Other(text: string)            // anything else (a plain string, say), by its `str()`

  /** The text `invoke` looks at. */
  function ContentOf(input: Input): (r: string)
    ensures input.WithContent? ==> r == input.content
    ensures input.Items? && |input.items| > 0 && input.items[|input.items| - 1].Message? ==>
      r == input.items[|input.items| - 1].content
    ensures input.Items? && |input.items| == 0 ==> r == "[]"
  {
    match input
    case WithContent(c) => c
    case Items(items) =>
      if |items| > 0 then
        match items[|items| - 1]
        case Message(c) => c
        case Value(t) => t
      else "[]"
    case Other(t) => t
  }

  const TechWords: seq<string> := ["python", "code", "programming", "function"]
  const CreativeWords: seq<string> := ["story", "creative", "write", "narrative"]
  const BusinessWords: seq<string> := ["business", "proposal", "strategy", "plan"]
  const MathWords: seq<string> := ["calculate", "math", "number", "+", "-", "*", "/"]

  /** The five replies: four fixed texts, and the general one that quotes the request. */
  datatype Reply = TechReply | CreativeReply | BusinessReply | MathReply | GeneralReply(excerpt: string)

  /** The first 100 characters. */
  function Excerpt(content: string): (r: string)
    ensures |r| <= 100 && |r| <= |content| && r == content[..|r|]
    ensures |content| <= 100 ==> r == content
  {
    if |content| <= 100 then content else content[..100]
  }

  /** The reply to a text: the first keyword list that matches decides. */
  function Respond(content: string): (r: Reply)
    ensures r == TechReply <==> ContainsAny(Lower(content), TechWords)
    ensures r == CreativeReply <==> !ContainsAny(Lower(content), TechWords) && ContainsAny(Lower(content), CreativeWords)
    ensures r == BusinessReply <==>
      !ContainsAny(Lower(content), TechWords) && !ContainsAny(Lower(content), CreativeWords)
      && ContainsAny(Lower(content), BusinessWords)
    ensures r == MathReply <==>
      !ContainsAny(Lower(content), TechWords) && !ContainsAny(Lower(content), CreativeWords)
      && !ContainsAny(Lower(content), BusinessWords) && ContainsAny(Lower(content), MathWords)
    ensures r.GeneralReply? <==>
      !ContainsAny(Lower(content), TechWords) && !ContainsAny(Lower(content), CreativeWords)
      && !ContainsAny(Lower(content), BusinessWords) && !ContainsAny(Lower(content), MathWords)
    ensures r.GeneralReply? ==> r.excerpt == Excerpt(content)
  {
    var l := Lower(content);
    if ContainsAny(l, TechWords) then TechReply
    else if ContainsAny(l, CreativeWords) then CreativeReply
    else if ContainsAny(l, BusinessWords) then BusinessReply
    else if ContainsAny(l, MathWords) then MathReply
    else GeneralReply(Excerpt(content))
  }

  /** `FreeLLM`: the temperature is kept but never read. */
  datatype FreeLLM = FreeLLM(temperature: real)

  /** `FreeLLM.invoke`. */
  function Invoke(llm: FreeLLM, input: Input): Reply
  {
    Respond(ContentOf(input))
  }

  /** The reply depends on the last message only, never on the temperature. */
  lemma InvokeIgnoresTemperature(t1: real, t2: real, input: Input, earlier: seq<Item>, c: string)
    ensures Invoke(FreeLLM(t1), input) == Invoke(FreeLLM(t2), input)
    ensures Invoke(FreeLLM(t1), Items(earlier + [Message(c)])) == Invoke(FreeLLM(t2), WithContent(c))
  {
    var items := earlier + [Message(c)];
    assert items[|items| - 1] == Message(c);
  }

  /** What the general reply says after echoing the question. */
  const GeneralTail :=
    "\n\n"
    + "I'm a mock LLM designed for learning LangChain concepts without API costs. "
    + "In a real application, this would be replaced with ChatOpenAI() and provide much more sophisticated responses.\n\n"
    + "This demonstrates how LangChain chains work:\n"
    + "1. Your input → Prompt formatting\n"
    + "2. Prompt → LLM processing  \n"
    + "3. LLM response → Output parsing\n"
    + "4. Final result → Your application\n\n"
    + "To use real AI, simply replace FreeLLM() with ChatOpenAI() and add your API key!"

  /** The text of the general reply. */
  function GeneralText(excerpt: string): (r: string)
    ensures StartsWith(r, "Thank you for your question about: \"" + excerpt + "...\"")
  {
    var head := "Thank you for your question about: \"" + excerpt + "...\"";
    StartsWithAppend(head, GeneralTail);
    head + GeneralTail
  }

  /** Keywords match inside longer words: "planet" holds "plan" and gets the business reply. */
  lemma PlanetIsBusiness(content: string)
    requires Contains(Lower(content), "planet")
    requires !ContainsAny(Lower(content), TechWords) && !ContainsAny(Lower(content), CreativeWords)
    ensures Respond(content) == BusinessReply
  {
    assert "planet" == "plan" + "et";
    ContainsStart(Lower(content), "plan", "et");
    assert BusinessWords[3] == "plan";
  }

  /** Any '+', '-', '*' or '/' asks for the math reply once no earlier list matched: "well-known" does. */
  lemma OperatorIsMath(content: string, i: nat)
    requires i < |content| && content[i] in {'+', '-', '*', '/'}
    requires !ContainsAny(Lower(content), TechWords) && !ContainsAny(Lower(content), CreativeWords)
    requires !ContainsAny(Lower(content), BusinessWords)
    ensures Respond(content) == MathReply
  {
    var l := Lower(content);
    assert l[i] == content[i];
    assert l[i..i + 1] == [content[i]];
    OccursContains(l, [content[i]], i);
    var k := if content[i] == '+' then 3 else if content[i] == '-' then 4 else if content[i] == '*' then 5 else 6;
    assert MathWords[k] == [content[i]];
  }
}
