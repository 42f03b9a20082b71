/**
 * Properties of the dialog steps of module Engine: what start and user_response promise,
 * how check_duration routes, and the scripted troubleshooting run of the module's demo.
 */
module Walkthrough {
  import opened Wrappers
  import opened Tree
  import opened History
  import opened Graph
  import opened Duration
  import opened Engine

  /** start: node 'start', empty context, and exactly the start node's generated prompt appended. */
  lemma StartResets(s: Session, generate: Prompt -> string)
    requires Consistent(s.history)
    ensures var t := StartStep(s, generate);
      && t.current == Some(StartNode) && t.context == map[]
      && t.history == Add(s.history, "system", generate(NodePrompt(StartNode)), false)
      && SizeAll(t.history.roots) == SizeAll(s.history.roots) + 1
  {
    AddSize(s.history, "system", generate(NodePrompt(StartNode)), false);
  }

  /** Before start there is no current node, and user_response changes nothing at all. */
  lemma NotStartedChangesNothing(s: Session, response: string, generate: Prompt -> string)
    requires Ready(s) && s.current.None?
    ensures RespondStep(s, response, generate) == (s, NotStarted)
  {
  }

  /**
   * After start, every reply is recorded first as a user message; a move then adds the
   * generated prompt of the node reached, and nothing else is ever added.
   */
  lemma UserMessageFirst(s: Session, response: string, generate: Prompt -> string)
    requires Ready(s) && s.current.Some?
    ensures var (t, reply) := RespondStep(s, response, generate);
      var h := Add(s.history, "user", response, false);
      && reply != NotStarted
      && (reply == Advanced ==>
            t.current.Some? && t.current.value in Nodes && t.current.value != CheckDuration
            && t.history == Add(h, "system", generate(Instruction(t.current.value, t.context)), false))
      && (reply != Advanced ==> t.history == h)
      && SizeAll(t.history.roots) == SizeAll(s.history.roots) + (if reply == Advanced then 2 else 1)
  {
    var (t, reply) := RespondStep(s, response, generate);
    var h := Add(s.history, "user", response, false);
    AddSize(s.history, "user", response, false);
    if reply == Advanced {
      AddSize(h, "system", generate(Instruction(t.current.value, t.context)), false);
    }
  }

  /** At a capturing node the raw reply is stored under the node's variable, whatever it says. */
  lemma CaptureStores(s: Session, response: string, generate: Prompt -> string)
    requires Ready(s) && s.current.Some? && Captures(Nodes[s.current.value])
    ensures RespondStep(s, response, generate).0.context
      == s.context[Nodes[s.current.value].variable.value := response]
  {
  }

  /** The first three questions always advance along the fixed chain, whatever the reply. */
  lemma CaptureAdvances(s: Session, response: string, generate: Prompt -> string)
    requires Ready(s) && s.current.Some?
    requires s.current.value == AskCurrentTemp || s.current.value == AskDesiredTemp || s.current.value == AskTime
    ensures var (t, reply) := RespondStep(s, response, generate);
      && reply == Advanced
      && t.current == NextInChain(s.current.value)
      && t.current == Some(if s.current.value == AskCurrentTemp then AskDesiredTemp
                           else if s.current.value == AskDesiredTemp then AskTime else AskDuration)
  {
    var id := s.current.value;
    var next := if id == AskCurrentTemp then AskDesiredTemp else if id == AskDesiredTemp then AskTime else AskDuration;
    assert Captures(Nodes[id]) && NextInChain(id) == Some(next);
    var moved := Session(Some(next), s.context[Nodes[id].variable.value := response], Add(s.history, "user", response, false));
    assert RespondStep(s, response, generate) == Continue(moved, generate);
    assert Process(moved, generate).Ok?;
  }

  /**
   * The duration question passes through check_duration: above one hour to offer_ticket,
   * otherwise to wait_advice, with no system message for check_duration itself; text that
   * is not a number raises ValueError after the reply is stored and the node moved.
   */
  lemma DurationRoutes(s: Session, response: string, generate: Prompt -> string)
    requires Ready(s) && s.current == Some(AskDuration)
    ensures var (t, reply) := RespondStep(s, response, generate);
      var h := Add(s.history, "user", response, false);
      && t.context == s.context["duration" := response]
      && (ParseFloat(response).Some? ==>
            var next := if GreaterThanOne(ParseFloat(response).value) then OfferTicket else WaitAdvice;
            && reply == Advanced && t.current == Some(next)
            && t.history == Add(h, "system", generate(NodePrompt(next)), false))
      && (ParseFloat(response).None? ==>
            reply == Raised(ValueError(response)) && t.current == Some(CheckDuration) && t.history == h)
  {
    var h := Add(s.history, "user", response, false);
    var moved := Session(Some(CheckDuration), s.context["duration" := response], h);
    assert Captures(Nodes[AskDuration]) && Nodes[AskDuration].variable == Some("duration");
    assert NextInChain(AskDuration) == Some(CheckDuration);
    assert RespondStep(s, response, generate) == Continue(moved, generate);
    if ParseFloat(response).Some? {
      var next := if GreaterThanOne(ParseFloat(response).value) then OfferTicket else WaitAdvice;
      assert Route(moved.context) == Ok(next);
      assert Instruction(next, moved.context) == NodePrompt(next);
    } else {
      assert Route(moved.context) == Err(ValueError(response));
    }
  }

  /** check_duration with no stored duration behaves as float(0): not above one hour. */
  lemma MissingDurationWaits(s: Session, generate: Prompt -> string)
    requires Consistent(s.history) && s.current == Some(CheckDuration) && "duration" !in s.context
    ensures Process(s, generate).Ok? && Process(s, generate).value.current == Some(WaitAdvice)
  {
  }

  /** At a node with options, a reply equal to an option key moves to that option's target. */
  lemma OptionMatches(s: Session, response: string, i: nat, generate: Prompt -> string)
    requires Ready(s) && s.current.Some? && !Captures(Nodes[s.current.value])
    requires i < |Nodes[s.current.value].options| && Nodes[s.current.value].options[i].key == response
    ensures var (t, reply) := RespondStep(s, response, generate);
      reply == Advanced && t.context == s.context && t.current == Some(Nodes[s.current.value].options[i].target)
  {
    OptionKeysDistinct();
    CheckDurationOnlyFromChain();
    var options := Nodes[s.current.value].options;
    SelectFinds(options, response, i);
  }

  lemma {:induction false} SelectFinds(options: seq<Choice>, response: string, i: nat)
    requires i < |options| && options[i].key == response
    requires forall a, b :: 0 <= a < b < |options| ==> options[a].key != options[b].key
    ensures Select(options, response) == Some(options[i].target)
  {
    if i > 0 {
      SelectFinds(options[1..], response, i - 1);
    }
  }

  /** Any other reply is rejected: only the user message is recorded, node and context stay. */
  lemma OptionRejects(s: Session, response: string, generate: Prompt -> string)
    requires Ready(s) && s.current.Some? && !Captures(Nodes[s.current.value])
    requires forall i :: 0 <= i < |Nodes[s.current.value].options| ==> Nodes[s.current.value].options[i].key != response
    ensures RespondStep(s, response, generate) == (s.(history := Add(s.history, "user", response, false)), InvalidChoice)
  {
  }

  /** The end node has neither a variable nor options, so every reply there is an invalid choice. */
  lemma EndRejectsEverything(s: Session, response: string, generate: Prompt -> string)
    requires Ready(s) && s.current == Some(EndNode)
    ensures RespondStep(s, response, generate) == (s.(history := Add(s.history, "user", response, false)), InvalidChoice)
  {
    OptionRejects(s, response, generate);
  }

  /** A move never rests on the transient check_duration node; only a raised ValueError leaves it there. */
  lemma NeverRestsOnCheck(s: Session, response: string, generate: Prompt -> string)
    requires Ready(s)
    ensures var (t, reply) := RespondStep(s, response, generate);
      t.current == Some(CheckDuration) ==> reply.Raised? || (reply == InvalidChoice && s.current == Some(CheckDuration))
  {
  }

  /** A move adds the user's reply and then the prompt of the node reached to the active branch. */
  lemma StepTranscript(s: Session, response: string, generate: Prompt -> string)
    requires Ready(s) && s.current.Some? && s.history.path != []
    ensures var (t, reply) := RespondStep(s, response, generate);
      reply == Advanced ==>
        Transcript(t.history) == Transcript(s.history)
          + [Entry("user", response), Entry("system", generate(Instruction(t.current.value, t.context)))]
  {
    var (t, reply) := RespondStep(s, response, generate);
    UserMessageFirst(s, response, generate);
    var h := Add(s.history, "user", response, false);
    AddTranscript(s.history, "user", response, false);
    if reply == Advanced {
      AddTranscript(h, "system", generate(Instruction(t.current.value, t.context)), false);
    }
  }

  /** A turn at a capturing node of the chain, in the transcript's terms. */
  lemma CaptureTurn(s: Session, response: string, generate: Prompt -> string)
    requires Ready(s) && s.history.path != [] && s.current.Some?
    requires s.current.value == AskCurrentTemp || s.current.value == AskDesiredTemp || s.current.value == AskTime
    ensures var (t, reply) := RespondStep(s, response, generate);
      var next := NextInChain(s.current.value).value;
      && reply == Advanced && Ready(t) && t.current == Some(next) && t.history.path != []
      && t.context == s.context[Nodes[s.current.value].variable.value := response]
      && Transcript(t.history) == Transcript(s.history) + [Entry("user", response), Entry("system", generate(NodePrompt(next)))]
  {
    CaptureAdvances(s, response, generate);
    CaptureStores(s, response, generate);
    StepTranscript(s, response, generate);
  }

  /** A turn at a node with options whose first key is the reply. */
  lemma FirstOptionTurn(s: Session, response: string, generate: Prompt -> string)
    requires Ready(s) && s.history.path != [] && s.current.Some? && !Captures(Nodes[s.current.value])
    requires |Nodes[s.current.value].options| > 0 && Nodes[s.current.value].options[0].key == response
    ensures var (t, reply) := RespondStep(s, response, generate);
      var next := Nodes[s.current.value].options[0].target;
      && reply == Advanced && Ready(t) && t.current == Some(next) && t.history.path != [] && t.context == s.context
      && Transcript(t.history) == Transcript(s.history) + [Entry("user", response), Entry("system", generate(Instruction(next, s.context)))]
  {
    OptionMatches(s, response, 0, generate);
    StepTranscript(s, response, generate);
  }

  /** The "1.5" turn at ask_duration: through check_duration to offer_ticket. */
  lemma LongDurationTurn(s: Session, generate: Prompt -> string)
    requires Ready(s) && s.history.path != [] && s.current == Some(AskDuration)
    ensures var (t, reply) := RespondStep(s, "1.5", generate);
      && reply == Advanced && Ready(t) && t.current == Some(OfferTicket) && t.history.path != []
      && t.context == s.context["duration" := "1.5"]
      && Transcript(t.history) == Transcript(s.history) + [Entry("user", "1.5"), Entry("system", generate(NodePrompt(OfferTicket)))]
  {
    SampleAbove();
    DurationRoutes(s, "1.5", generate);
    StepTranscript(s, "1.5", generate);
  }

  /** The start node: not a question, and its first option is temp, to ask_current_temp. */
  lemma StartOption()
    ensures Nodes[StartNode].options[0].key == "temp" && Nodes[StartNode].options[0].target == AskCurrentTemp
    ensures !Captures(Nodes[StartNode])
  {
  }

  /** The variables the first three questions store their answers under. */
  lemma QuestionVariables()
    ensures Nodes[AskCurrentTemp].variable == Some("current_temp")
    ensures Nodes[AskDesiredTemp].variable == Some("desired_temp")
    ensures Nodes[AskTime].variable == Some("time_of_day")
  {
  }

  /** offer_ticket: not a question, and its first option is yes, to create_ticket. */
  lemma OfferOption()
    ensures Nodes[OfferTicket].options[0].key == "yes" && Nodes[OfferTicket].options[0].target == CreateTicket
    ensures !Captures(Nodes[OfferTicket])
  {
  }

  /** The replies of the module's demo, in the order it hands them to user_response. */
  const Script: seq<string> := ["temp", "22", "24", "день", "1.5", "yes"]

  /** The node the demo waits at after its first i replies. */
  function StageNode(i: nat): NodeId
    requires i <= |Script|
  {
    [StartNode, AskCurrentTemp, AskDesiredTemp, AskTime, AskDuration, OfferTicket, CreateTicket][i]
  }

  /** The context after the first i replies: each answer to a question, under that question's variable. */
  function StageContext(i: nat): map<string, string>
    requires i <= |Script|
  {
    var temperature := map["current_temp" := "22"];
    var desired := temperature["desired_temp" := "24"];
    var time := desired["time_of_day" := "день"];
    if i < 2 then map[]
    else if i == 2 then temperature
    else if i == 3 then desired
    else if i == 4 then time
    else time["duration" := "1.5"]
  }

  /** The active branch after the first i replies: the start prompt, then each reply and the prompt it leads to. */
  function StageTranscript(i: nat, generate: Prompt -> string): seq<Entry>
    requires i <= |Script|
  {
    if i == 0 then [Entry("system", generate(NodePrompt(StartNode)))]
    else
      StageTranscript(i - 1, generate)
        + [Entry("user", Script[i - 1]), Entry("system", generate(Instruction(StageNode(i), StageContext(i))))]
  }

  /** The session is where the demo is after its first i replies. */
  predicate AtStage(s: Session, i: nat)
    requires i <= |Script|
  {
    Ready(s) && s.history.path != [] && s.current == Some(StageNode(i)) && s.context == StageContext(i)
  }

  /** Reply i takes the demo from stage i to stage i + 1, adding the reply and the next prompt. */
  predicate Advances(s: Session, i: nat, generate: Prompt -> string)
    requires i < |Script| && Ready(s) && s.history.path != []
  {
    var (t, reply) := RespondStep(s, Script[i], generate);
    && reply == Advanced && AtStage(t, i + 1)
    && Transcript(t.history) == Transcript(s.history)
         + [Entry("user", Script[i]), Entry("system", generate(Instruction(StageNode(i + 1), StageContext(i + 1))))]
  }

  /** Reply 0 picks the start node's first option, temp. */
  lemma StageProblem(s: Session, generate: Prompt -> string)
    requires AtStage(s, 0)
    ensures Advances(s, 0, generate)
  {
    StartOption();
    FirstOptionTurn(s, "temp", generate);
  }

  /** Reply 5 accepts the ticket at offer_ticket. */
  lemma StageAccept(s: Session, generate: Prompt -> string)
    requires AtStage(s, 5)
    ensures Advances(s, 5, generate)
  {
    OfferOption();
    FirstOptionTurn(s, "yes", generate);
  }

  /** Replies 1 to 3 answer the three questions of the chain. */
  lemma StageQuestion(s: Session, i: nat, generate: Prompt -> string)
    requires 1 <= i <= 3 && AtStage(s, i)
    ensures Advances(s, i, generate)
  {
    QuestionVariables();
    CaptureTurn(s, Script[i], generate);
  }

  /** Reply 4 gives a duration above one hour. */
  lemma StageDuration(s: Session, generate: Prompt -> string)
    requires AtStage(s, 4)
    ensures Advances(s, 4, generate)
  {
    LongDurationTurn(s, generate);
  }

  /** One pass of the demo's loop: reply i advances from stage i to stage i + 1. */
  lemma ScriptTurn(s: Session, i: nat, generate: Prompt -> string)
    requires i < |Script| && AtStage(s, i)
    ensures Advances(s, i, generate)
  {
    if i == 0 {
      StageProblem(s, generate);
    } else if i <= 3 {
      StageQuestion(s, i, generate);
    } else if i == 4 {
      StageDuration(s, generate);
    } else {
      StageAccept(s, generate);
    }
  }

  /** The ticket summary the demo ends with, filled in from the three answers it quotes. */
  lemma TicketSummary()
    ensures Instruction(CreateTicket, StageContext(|Script|)) == TicketPrompt("22", "24", "день")
  {
    var context := StageContext(|Script|);
    assert Get(context, "current_temp", "неизвестно") == "22";
    assert Get(context, "desired_temp", "неизвестно") == "24";
    assert Get(context, "time_of_day", "неизвестно") == "день";
  }

  /** The prompts generated along the way: each question's own instruction, then the ticket summary. */
  lemma StagePrompts()
    ensures Instruction(StageNode(1), StageContext(1)) == NodePrompt(AskCurrentTemp)
    ensures Instruction(StageNode(2), StageContext(2)) == NodePrompt(AskDesiredTemp)
    ensures Instruction(StageNode(3), StageContext(3)) == NodePrompt(AskTime)
    ensures Instruction(StageNode(4), StageContext(4)) == NodePrompt(AskDuration)
    ensures Instruction(StageNode(5), StageContext(5)) == NodePrompt(OfferTicket)
  {
  }

  /** The context the demo ends with. */
  lemma ScriptContext()
    ensures StageContext(|Script|)
      == map["current_temp" := "22", "desired_temp" := "24", "time_of_day" := "день", "duration" := "1.5"]
  {
  }

  /** One pass of the demo's loop on the object: user_response with reply i. */
  method ScriptStep(system: DialogSystem, i: nat) returns (reply: Reply)
    requires i < |Script| && system.Valid() && AtStage(system.Snapshot(), i)
    modifies system, system.history
    ensures system.Valid() && system.history == old(system.history) && AtStage(system.Snapshot(), i + 1)
    ensures reply == Advanced
    ensures Transcript(system.history.State()) == old(Transcript(system.history.State()))
      + [Entry("user", Script[i]), Entry("system", system.generate(Instruction(StageNode(i + 1), StageContext(i + 1))))]
  {
    ghost var before := system.Snapshot();
    reply := system.UserResponse(Script[i]);
    ScriptTurn(before, i, system.generate);
  }

  /**
   * The module's demo: a new system is started and handed the six scripted replies in a loop.
   * Every reply advances, the dialog ends at create_ticket with the four answers in the
   * context, and the active branch holds the thirteen messages of the exchange.
   */
  method Demo(generate: Prompt -> string) returns (system: DialogSystem, replies: seq<Reply>)
    ensures system.Valid() && system.currentNode == Some(CreateTicket)
    ensures |replies| == |Script| && forall k :: 0 <= k < |replies| ==> replies[k] == Advanced
    ensures system.context
      == map["current_temp" := "22", "desired_temp" := "24", "time_of_day" := "день", "duration" := "1.5"]
    ensures Transcript(system.history.State()) == StageTranscript(|Script|, generate)
  {
    system := new DialogSystem(generate);
    system.Start();
    AddNewRoot(HState([], []), "system", generate(NodePrompt(StartNode)), false);
    replies := [];
    for i := 0 to |Script|
      invariant system.Valid() && fresh(system.history) && system.generate == generate
      invariant AtStage(system.Snapshot(), i)
      invariant Transcript(system.history.State()) == StageTranscript(i, generate)
      invariant |replies| == i && forall k :: 0 <= k < i ==> replies[k] == Advanced
    {
      var reply := ScriptStep(system, i);
      replies := replies + [reply];
    }
    ScriptContext();
  }
}
