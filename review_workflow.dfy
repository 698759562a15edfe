/**
 * The LangGraph multi-agent workflow: a classifier routes the user's request
 * to one of four specialist writers, a review agent scores the draft, and the
 * draft is revised until the review agent approves it or two reviews have been
 * made; then the draft becomes the final output. Nodes are functions from
 * state to state; the graph is the edge function `Next` and the run is the
 * Pregel loop `Run`, bounded by LangGraph's recursion limit of 25 steps.
 */
module ReviewWorkflow {
  import opened Text

  /** `MultiAgentState`; `messages` holds the contents of the conversation's messages. */
  datatype State = State(messages: seq<string>, taskType: string, content: string,
                         reviewFeedback: string, finalOutput: string, iterationCount: int)

  /** The fields of the state. */
  datatype Field = Messages | TaskType | Content | ReviewFeedback | FinalOutput | IterationCount

  /** `r` is `s` with at most the fields in `changed` replaced: the `{**state, ...}` of a node. */
  predicate OnlyChanges(s: State, r: State, changed: set<Field>)
  {
    && (Messages !in changed ==> r.messages == s.messages)
    && (TaskType !in changed ==> r.taskType == s.taskType)
    && (Content !in changed ==> r.content == s.content)
    && (ReviewFeedback !in changed ==> r.reviewFeedback == s.reviewFeedback)
    && (FinalOutput !in changed ==> r.finalOutput == s.finalOutput)
    && (IterationCount !in changed ==> r.iterationCount == s.iterationCount)
  }

  datatype Route = CreativeRoute | TechnicalRoute | AnalyticalRoute | GeneralRoute

  /**
   * The language model's answers as functions of what it is asked: the
   * classification of a request, the draft a specialist writes for it, the
   * review of a draft, and the revision of a draft given its review.
   */
  datatype Model = Model(classify: string -> string, write: (Route, string) -> string,
                         review: string -> string, revise: (string, string) -> string)

  /** The content of the last message, or "" when there is none. */
  function UserInput(s: State): string
  {
    if |s.messages| > 0 then s.messages[|s.messages| - 1] else ""
  }

  // ---------------------------------------------------------------------
  // Nodes
  // ---------------------------------------------------------------------

  /** `classify_task`: the model's answer, stripped and lower-cased, and a fresh count. */
  function ClassifyTask(m: Model, s: State): (r: State)
    ensures OnlyChanges(s, r, {TaskType, IterationCount})
    ensures r.iterationCount == 0
    ensures Stripped(r.taskType) && forall i :: 0 <= i < |r.taskType| ==> !('A' <= r.taskType[i] <= 'Z')
  {
    var answer := Strip(m.classify(UserInput(s)));
    LowerStripped(answer);
    s.(taskType := Lower(answer), iterationCount := 0)
  }

  /** The four specialist agents: a draft for the last message. */
  function Specialist(m: Model, route: Route, s: State): (r: State)
    ensures OnlyChanges(s, r, {Content})
    ensures r.content == m.write(route, UserInput(s))
  {
    s.(content := m.write(route, UserInput(s)))
  }

  /** `review_agent`: feedback on the draft, and one more review counted. */
  function ReviewAgent(m: Model, s: State): (r: State)
    ensures OnlyChanges(s, r, {ReviewFeedback, IterationCount})
    ensures r.iterationCount == s.iterationCount + 1
  {
    s.(reviewFeedback := m.review(s.content), iterationCount := s.iterationCount + 1)
  }

  /** `revise_content`: a new draft from the draft and its feedback. */
  function ReviseContent(m: Model, s: State): (r: State)
    ensures OnlyChanges(s, r, {Content})
    ensures r.content == m.revise(s.content, s.reviewFeedback)
  {
    s.(content := m.revise(s.content, s.reviewFeedback))
  }

  /** `finalize_output`: the draft becomes the final output. */
  function FinalizeOutput(s: State): (r: State)
    ensures OnlyChanges(s, r, {FinalOutput})
    ensures r.finalOutput == s.content
  {
    s.(finalOutput := s.content)
  }

  // ---------------------------------------------------------------------
  // Routers
  // ---------------------------------------------------------------------

  /** `route_by_task_type`: exact names pick their agent; everything else goes to the general one. */
  function RouteByTaskType(taskType: string): (r: Route)
    ensures r == CreativeRoute <==> taskType == "creative"
    ensures r == TechnicalRoute <==> taskType == "technical"
    ensures r == AnalyticalRoute <==> taskType == "analytical"
    ensures r == GeneralRoute <==> taskType !in {"creative", "technical", "analytical"}
  {
    if taskType == "creative" then CreativeRoute
    else if taskType == "technical" then TechnicalRoute
    else if taskType == "analytical" then AnalyticalRoute
    else GeneralRoute
  }

  /** The most reviews before the draft is accepted as it is. */
  const MaxIterations := 2

  /** `should_continue_review`: finalize on any feedback mentioning "approved", or after two reviews. */
  function ShouldFinalize(s: State): (r: bool)
    ensures r <==> Contains(Lower(s.reviewFeedback), "approved") || s.iterationCount >= MaxIterations
  {
    Contains(Lower(s.reviewFeedback), "approved") || s.iterationCount >= MaxIterations
  }

  /** Text containing `p + q` contains `q`. */
  lemma ContainsEnd(s: string, p: string, q: string)
    requires Contains(s, p + q)
    ensures Contains(s, q)
  {
    var i := Find(s, p + q).value;
    assert s[i + |p|..i + |p| + |q|] == (p + q)[|p|..] == q;
    OccursContains(s, q, i + |p|);
  }

  /** A rejection worded "NOT APPROVED" finalizes the draft as well. */
  lemma NotApprovedFinalizes(s: State)
    requires Contains(Lower(s.reviewFeedback), "not approved")
    ensures ShouldFinalize(s)
  {
    assert "not approved" == "not " + "approved";
    ContainsEnd(Lower(s.reviewFeedback), "not ", "approved");
  }

  // ---------------------------------------------------------------------
  // The graph
  // ---------------------------------------------------------------------

  datatype Node = Classify | Creative | Technical | Analytical | General | Review | Revise | Finalize

  /** Where an edge leads: a node, or END. */
  datatype Target = To(node: Node) | End

  /** The specialist node of a route. */
  function AgentNode(r: Route): (n: Node)
    ensures n in {Creative, Technical, Analytical, General}
  {
    match r
    case CreativeRoute => Creative
    case TechnicalRoute => Technical
    case AnalyticalRoute => Analytical
    case GeneralRoute => General
  }

  /** The node's function. */
  function Apply(m: Model, node: Node, s: State): State
  {
    match node
    case Classify => ClassifyTask(m, s)
    case Creative => Specialist(m, CreativeRoute, s)
    case Technical => Specialist(m, TechnicalRoute, s)
    case Analytical => Specialist(m, AnalyticalRoute, s)
    case General => Specialist(m, GeneralRoute, s)
    case Review => ReviewAgent(m, s)
    case Revise => ReviseContent(m, s)
    case Finalize => FinalizeOutput(s)
  }

  /** The edges out of a node, given the state the node produced. */
  function Next(node: Node, s: State): (t: Target)
    ensures t == End <==> node == Finalize
    ensures node in {Creative, Technical, Analytical, General, Revise} ==> t == To(Review)
    ensures node == Review ==> (t == To(Finalize) <==> ShouldFinalize(s)) && t in {To(Finalize), To(Revise)}
  {
    match node
    case Classify => To(AgentNode(RouteByTaskType(s.taskType)))
    case Creative => To(Review)
    case Technical => To(Review)
    case Analytical => To(Review)
    case General => To(Review)
    case Review => if ShouldFinalize(s) then To(Finalize) else To(Revise)
    case Revise => To(Review)
    case Finalize => End
  }

  /** A finished run: the nodes it went through and the final state; or the recursion limit hit. */
  datatype Outcome = Done(trace: seq<Node>, state: State) | LimitReached

  /** Run the graph from `node` with `steps` steps left. */
  function Run(m: Model, node: Node, s: State, steps: nat): Outcome
    decreases steps
  {
    if steps == 0 then LimitReached
    else
      var s' := Apply(m, node, s);
      match Next(node, s')
      case End => Done([node], s')
      case To(next) => Prepend(node, Run(m, next, s', steps - 1))
  }

  /** A run that went through `node` first. */
  function Prepend(node: Node, o: Outcome): Outcome
  {
    match o
    case LimitReached => LimitReached
    case Done(trace, r) => Done([node] + trace, r)
  }

  /** LangGraph's default recursion limit. */
  const RecursionLimit := 25

  /** `app.invoke(state)`: the run from the entry point `classify`. */
  function Invoke(m: Model, s: State): Outcome
  {
    Run(m, Classify, s, RecursionLimit)
  }

  /** The second review always finalizes. */
  lemma SecondReview(m: Model, s: State, steps: nat)
    requires s.iterationCount == 1 && steps >= 2
    ensures Run(m, Review, s, steps) == Done([Review, Finalize], FinalizeOutput(ReviewAgent(m, s)))
  {
    var r := ReviewAgent(m, s);
    assert Next(Review, r) == To(Finalize);
    assert Run(m, Finalize, r, steps - 1) == Done([Finalize], FinalizeOutput(r));
  }

  /** The first review finalizes on approval, otherwise one revision and a second review follow. */
  lemma FirstReview(m: Model, s: State, steps: nat)
    requires s.iterationCount == 0 && steps >= 4
    ensures var r := ReviewAgent(m, s);
      ShouldFinalize(r) ==> Run(m, Review, s, steps) == Done([Review, Finalize], FinalizeOutput(r))
    ensures var r := ReviewAgent(m, s);
      !ShouldFinalize(r) ==>
        Run(m, Review, s, steps) == Done([Review, Revise, Review, Finalize],
                                         FinalizeOutput(ReviewAgent(m, ReviseContent(m, r))))
  {
    var r := ReviewAgent(m, s);
    if ShouldFinalize(r) {
      assert Run(m, Finalize, r, steps - 1) == Done([Finalize], FinalizeOutput(r));
    } else {
      var v := ReviseContent(m, r);
      SecondReview(m, v, steps - 2);
      assert Run(m, Revise, r, steps - 1) == Done([Revise, Review, Finalize], FinalizeOutput(ReviewAgent(m, v)));
    }
  }

  /** From the first review on: one or two reviews, then finalize. */
  lemma ReviewLoop(m: Model, w: State, steps: nat)
    requires w.iterationCount == 0 && steps >= 4
    ensures Run(m, Review, w, steps).Done?
    ensures var o := Run(m, Review, w, steps);
      && (o.trace == [Review, Finalize] || o.trace == [Review, Revise, Review, Finalize])
      && o.state.iterationCount in {1, 2}
      && (o.state.iterationCount == 1 <==> |o.trace| == 2)
      && o.state.finalOutput == o.state.content
      && o.state.messages == w.messages
  {
    FirstReview(m, w, steps);
  }

  /** A specialist's draft goes to review. */
  lemma AgentThenReview(m: Model, c: State, agent: Node, steps: nat)
    requires agent in {Creative, Technical, Analytical, General} && steps >= 1
    ensures var w := Apply(m, agent, c);
      && w.iterationCount == c.iterationCount && w.messages == c.messages
      && Run(m, agent, c, steps) == Prepend(agent, Run(m, Review, w, steps - 1))
  {
    var w := Apply(m, agent, c);
    assert Next(agent, w) == To(Review);
  }

  /**
   * Every run ends at END well within the recursion limit: classify, one
   * specialist, then one review, or review, revise and review again, and
   * finalize. The final output is the last draft and the count is 1 or 2.
   */
  lemma InvokeFinishes(m: Model, s: State)
    ensures Invoke(m, s).Done?
    ensures var o := Invoke(m, s);
      var agent := AgentNode(RouteByTaskType(ClassifyTask(m, s).taskType));
      && (o.trace == [Classify, agent, Review, Finalize] || o.trace == [Classify, agent, Review, Revise, Review, Finalize])
      && o.state.iterationCount in {1, 2}
      && (o.state.iterationCount == 1 <==> |o.trace| == 4)
      && o.state.finalOutput == o.state.content
      && o.state.messages == s.messages
  {
    var c := ClassifyTask(m, s);
    var agent := AgentNode(RouteByTaskType(c.taskType));
    ClassifyThenAgent(m, s, RecursionLimit);
    AgentThenReview(m, c, agent, RecursionLimit - 1);
    var w := Apply(m, agent, c);
    ReviewLoop(m, w, RecursionLimit - 2);
    PrependReviews(Classify, agent, Run(m, Review, w, RecursionLimit - 2));
  }

  /** Two nodes taken before one or two reviews and finalize. */
  lemma PrependReviews(first: Node, second: Node, o: Outcome)
    requires o.Done? && (o.trace == [Review, Finalize] || o.trace == [Review, Revise, Review, Finalize])
    ensures var p := Prepend(first, Prepend(second, o));
      && p.Done? && p.state == o.state && |p.trace| == |o.trace| + 2
      && (p.trace == [first, second, Review, Finalize] || p.trace == [first, second, Review, Revise, Review, Finalize])
  {
  }

  /** Classification leads to the specialist its task type picks, with a fresh count. */
  lemma ClassifyThenAgent(m: Model, s: State, steps: nat)
    requires steps >= 1
    ensures var c := ClassifyTask(m, s);
      && c.iterationCount == 0 && c.messages == s.messages
      && Run(m, Classify, s, steps) == Prepend(Classify, Run(m, AgentNode(RouteByTaskType(c.taskType)), c, steps - 1))
  {
    var c := ClassifyTask(m, s);
    assert Next(Classify, c) == To(AgentNode(RouteByTaskType(c.taskType)));
  }
}
