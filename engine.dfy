/**
 * DialogSystem of multilevel_dialogue.py: start, process_node and user_response over the
 * fixed node graph, the context dict and the history.
 *
 * The text generator (generate_response, a hosted model behind a knowledge lookup) is an
 * opaque function, fixed for the life of a system, from the instruction to reply text. It
 * is applied to the instruction as a Prompt value whose string is Text(prompt): every result
 * below holds for every generator, so in particular for "render with Text, then call the
 * model".
 * The step functions below say what one call does to the session; the class methods
 * perform the same steps in place and are proved to match them.
 */
module Engine {
  import opened Wrappers
  import opened Tree
  import opened History
  import opened Graph
  import opened Duration

  /** What `float(...)` raises on a duration that is not a number. */
  datatype Failure = ValueError(text: string)

  /**
   * How a user_response call ends: the node was left (Advanced), the dialog was not started,
   * the reply matched no option ("Неверный вариант ответа"), or process_node raised.
   */
  datatype Reply = Advanced | NotStarted | InvalidChoice | Raised(failure: Failure)

  /** The fields of a DialogSystem that the dialog changes. */
  datatype Session = Session(current: Option<NodeId>, context: map<string, string>, history: HState)

  /** What every public operation keeps: the current node is in the table, the history well formed. */
  predicate Ready(s: Session)
  {
    (s.current.Some? ==> s.current.value in Nodes) && Wellformed(s.history)
  }

  /** `context.get(key, default)`. */
  function Get(context: map<string, string>, key: string, default: string): string
  {
    if key in context then context[key] else default
  }

  /**
   * The instruction process_node hands to the generator: a node's own prompt_instruction, or
   * at create_ticket the summary of the three answers. Text gives the string it stands for.
   */
  datatype Prompt = NodePrompt(id: NodeId) | TicketPrompt(temp: string, desired: string, time: string)

  /** The fixed pieces of the create_ticket summary, around the three quoted answers. */
  const TicketHead := "Заявка создана. Текущая температура: "
  const TicketDesired := "°C, желаемая: "
  const TicketTime := "°C, время суток: "

  /** The instruction string of a prompt: the node's text, or the create_ticket f-string filled in. */
  function Text(prompt: Prompt): string
    requires prompt.NodePrompt? ==> prompt.id in Instructions
  {
    match prompt
    case NodePrompt(id) => Instructions[id]
    case TicketPrompt(temp, desired, time) =>
      TicketHead + temp + TicketDesired + desired + TicketTime + time + "."
  }

  /** The summary quotes each answer whole, at an offset fixed by the answers before it, and ends in a full stop. */
  lemma TicketQuotes(temp: string, desired: string, time: string)
    ensures var text := Text(TicketPrompt(temp, desired, time));
      var at1 := |TicketHead|;
      var at2 := at1 + |temp| + |TicketDesired|;
      var at3 := at2 + |desired| + |TicketTime|;
      && |text| == at3 + |time| + 1
      && text[..at1] == TicketHead
      && text[at1..at1 + |temp|] == temp
      && text[at2..at2 + |desired|] == desired
      && text[at3..at3 + |time|] == time
      && text[|text| - 1] == '.'
  {
  }

  /** Which instruction process_node builds at a node: computed for create_ticket, else the node's own. */
  function Instruction(id: NodeId, context: map<string, string>): (r: Prompt)
    ensures r.TicketPrompt? <==> id == CreateTicket
    ensures r.NodePrompt? ==> r.id == id
    ensures r.TicketPrompt? ==>
      && r.temp == (if "current_temp" in context then context["current_temp"] else "неизвестно")
      && r.desired == (if "desired_temp" in context then context["desired_temp"] else "неизвестно")
      && r.time == (if "time_of_day" in context then context["time_of_day"] else "неизвестно")
  {
    if id == CreateTicket then
      TicketPrompt(Get(context, "current_temp", "неизвестно"), Get(context, "desired_temp", "неизвестно"),
                   Get(context, "time_of_day", "неизвестно"))
    else
      NodePrompt(id)
  }

  /** Where check_duration leads: a duration above one hour to offer_ticket, else (or none stored: 0) to wait_advice. */
  function Route(context: map<string, string>): (r: Result<NodeId, Failure>)
    ensures r.Err? <==> "duration" in context && ParseFloat(context["duration"]).None?
    ensures r.Err? ==> r.error == ValueError(context["duration"])
    ensures r.Ok? ==> r.value == OfferTicket || r.value == WaitAdvice
    ensures r == Ok(OfferTicket) <==> "duration" in context && ParseFloat(context["duration"]).Some?
                                      && GreaterThanOne(ParseFloat(context["duration"]).value)
  {
    if "duration" !in context then Ok(WaitAdvice)
    else
      match ParseFloat(context["duration"])
      case None => Err(ValueError(context["duration"]))
      case Some(d) => Ok(if GreaterThanOne(d) then OfferTicket else WaitAdvice)
  }

  /** process_node: resolve check_duration, then record the generated reply for the node reached. */
  function Process(s: Session, generate: Prompt -> string): (r: Result<Session, Failure>)
    requires s.current.Some? && s.current.value in Nodes && Consistent(s.history)
    decreases if s.current.value == CheckDuration then 1 else 0
    ensures r.Err? <==> s.current.value == CheckDuration && Route(s.context).Err?
    ensures r.Ok? ==> var t := r.value;
      && t.current.Some? && t.current.value in Nodes && t.current.value != CheckDuration
      && (s.current.value != CheckDuration ==> t.current == s.current)
      && (s.current.value == CheckDuration ==> t.current == Some(Route(s.context).value))
      && t.context == s.context
      && t.history == Add(s.history, "system", generate(Instruction(t.current.value, t.context)), false)
  {
    var id := s.current.value;
    if id == CheckDuration then
      match Route(s.context)
      case Err(e) => Err(e)
      case Ok(next) => Process(s.(current := Some(next)), generate)
    else
      Ok(s.(history := Add(s.history, "system", generate(Instruction(id, s.context)), false)))
  }

  /** start: go to the start node with an empty context, then process it. */
  function StartStep(s: Session, generate: Prompt -> string): (t: Session)
    requires Consistent(s.history)
    ensures Ready(t)
  {
    var r := Process(Session(Some(StartNode), map[], s.history), generate);
    r.value
  }

  /** The tail of user_response: process the node moved to; an exception leaves the moved state. */
  function Continue(moved: Session, generate: Prompt -> string): (Session, Reply)
    requires moved.current.Some? && moved.current.value in Nodes && Consistent(moved.history)
  {
    match Process(moved, generate)
    case Ok(t) => (t, Advanced)
    case Err(e) => (moved, Raised(e))
  }

  /** user_response: record the reply, then capture it and follow the chain, or match it against the options. */
  function RespondStep(s: Session, response: string, generate: Prompt -> string): (r: (Session, Reply))
    requires Ready(s)
    ensures Ready(r.0)
  {
    if s.current.None? then (s, NotStarted)
    else
      var id := s.current.value;
      var h := Add(s.history, "user", response, false);
      var node := Nodes[id];
      if Captures(node) then
        var next := NextInChain(id);
        TableClosed();
        Continue(Session(if next.Some? then next else s.current, s.context[node.variable.value := response], h), generate)
      else
        match Select(node.options, response)
        case None => (s.(history := h), InvalidChoice)
        case Some(target) =>
          TableClosed();
          Continue(Session(Some(target), s.context, h), generate)
  }

  class DialogSystem {
    const generate: Prompt -> string
    var currentNode: Option<NodeId>
    var context: map<string, string>
    var history: DialogHistory

    function Snapshot(): Session
      reads this, history
    {
      Session(currentNode, context, history.State())
    }

    ghost predicate Valid()
      reads this, history
    {
      history.Valid() && Ready(Snapshot())
    }

    /** A system that has not started: no node, empty context, empty history. */
    constructor (generate: Prompt -> string)
      ensures Valid() && fresh(history) && this.generate == generate
      ensures currentNode == None && context == map[] && history.roots == [] && history.currentPath == []
    {
      this.generate := generate;
      currentNode := None;
      context := map[];
      history := new DialogHistory();
    }

    method ProcessNode() returns (r: Outcome<Failure>)
      requires Valid() && currentNode.Some?
      modifies this, history
      decreases if currentNode.value == CheckDuration then 1 else 0
      ensures Valid() && history == old(history)
      ensures Process(old(Snapshot()), generate).Ok? ==> r == Pass && Snapshot() == Process(old(Snapshot()), generate).value
      ensures Process(old(Snapshot()), generate).Err? ==>
                r == Fail(Process(old(Snapshot()), generate).error) && Snapshot() == old(Snapshot())
    {
      var node := currentNode.value;
      if node == CheckDuration {
        match Route(context) {
          case Err(e) => return Fail(e);
          case Ok(next) => currentNode := Some(next);
        }
        r := ProcessNode();
        return;
      }
      var instruction := Instruction(node, context);
      var prompt := generate(instruction);
      history.AddMessage("system", prompt, false);
      AddWellformed(old(history.State()), "system", prompt, false);
      r := Pass;
    }

    method Start()
      requires Valid()
      modifies this, history
      ensures Valid() && history == old(history)
      ensures Snapshot() == StartStep(old(Snapshot()), generate)
    {
      currentNode := Some(StartNode);
      context := map[];
      var r := ProcessNode();
    }

    method UserResponse(response: string) returns (reply: Reply)
      requires Valid()
      modifies this, history
      ensures Valid() && history == old(history)
      ensures (Snapshot(), reply) == RespondStep(old(Snapshot()), response, generate)
    {
      if currentNode.None? {
        return NotStarted;
      }
      history.AddMessage("user", response, false);
      var node := Nodes[currentNode.value];
      if Captures(node) {
        context := context[node.variable.value := response];
        var nextNodeKey := NextInChain(currentNode.value);
        if nextNodeKey.Some? {
          TableClosed();
          currentNode := nextNodeKey;
        }
      } else {
        var target := Select(node.options, response);
        if target.None? {
          return InvalidChoice;
        }
        TableClosed();
        currentNode := target;
      }
      var r := ProcessNode();
      reply := if r.Pass? then Advanced else Raised(r.error);
    }
  }
}
