/**
 * The fixed troubleshooting graph that DialogSystem.__init__ builds (class DialogNode and
 * the `nodes` dict): node ids, instructions, answer options and captured variables.
 */
module Graph {
  import opened Wrappers

  /** The ids of the nodes; the table holds no other, so they are an enumeration here. */
  datatype NodeId = StartNode | AskCurrentTemp | AskDesiredTemp | AskTime | AskDuration
                  | CheckDuration | OfferTicket | CreateTicket | WaitAdvice | EndNode

  /** The string under which the source keys each node in its `nodes` dict. */
  function Key(id: NodeId): string
  {
    match id
    case StartNode => "start"
    case AskCurrentTemp => "ask_current_temp"
    case AskDesiredTemp => "ask_desired_temp"
    case AskTime => "ask_time"
    case AskDuration => "ask_duration"
    case CheckDuration => "check_duration"
    case OfferTicket => "offer_ticket"
    case CreateTicket => "create_ticket"
    case WaitAdvice => "wait_advice"
    case EndNode => "end"
  }

  /** One entry of a node's options dict: an answer key and the id of the node it leads to. */
  datatype Choice = Choice(key: string, target: NodeId)

  /**
   * What a DialogNode decides about the dialog: its options, in the dict's order, and the
   * variable its answer is stored under. Its two texts are in Instructions and OptionTexts.
   */
  datatype DialogNode = DialogNode(options: seq<Choice>, variable: Option<string>)

  /** The `nodes` dict: options and variable of every node. */
  const Nodes: map<NodeId, DialogNode> := map[
    StartNode := DialogNode([Choice("temp", AskCurrentTemp), Choice("other", EndNode)], None),
    AskCurrentTemp := DialogNode([], Some("current_temp")),
    AskDesiredTemp := DialogNode([], Some("desired_temp")),
    AskTime := DialogNode([], Some("time_of_day")),
    AskDuration := DialogNode([], Some("duration")),
    CheckDuration := DialogNode([Choice("long", OfferTicket), Choice("short", WaitAdvice)], None),
    OfferTicket := DialogNode([Choice("yes", CreateTicket), Choice("no", EndNode)], None),
    CreateTicket := DialogNode([Choice("ok", EndNode)], None),
    WaitAdvice := DialogNode([Choice("ok", EndNode)], None),
    EndNode := DialogNode([], None)
  ]

  /** The prompt_instruction of every node. */
  const Instructions: map<NodeId, string> := map[
    StartNode := "Ты ассистент диагностики термостата. Начни диалог с пользователем, спроси, какая проблема. Пиши кратко и по делу.",
    AskCurrentTemp := "Спроси кратко и четко - какая температура сейчас в комнате",
    AskDesiredTemp := "Спроси кратко и четко - какая температура должна быть в комнате",
    AskTime := "Спроси кратко и четко - когда это произошло (утром, днем или вечером)?",
    AskDuration := "Спроси кратко и четко - как долго длится проблема в часах?",
    CheckDuration := "",
    OfferTicket := "Спроси кратко и четко - хочет ли пользователь создать заявку в техподдержку?",
    CreateTicket := "Спроси кратко и четко - что заявка создана, укажи данные , которые ввел пользователь- текущую температуру, желаемую температуру и время суток.",
    WaitAdvice := "Скажи пользователю, что нужно подождать 1 час и обратиться снова, если проблема останется.",
    EndNode := "Скажи, что диагностика завершена. Теперь вы можете задать свои вопросы."
  ]

  /** The option prompt of every answer key, node by node (only ever shown, never matched). */
  const OptionTexts: map<NodeId, map<string, string>> := map[
    StartNode := map["temp" := "Скажи: 'Термостат не поддерживает нужную температуру'", "other" := "Скажи: 'Другая проблема'"],
    AskCurrentTemp := map[],
    AskDesiredTemp := map[],
    AskTime := map[],
    AskDuration := map[],
    CheckDuration := map["long" := "", "short" := ""],
    OfferTicket := map["yes" := "Скажи: 'Да'", "no" := "Скажи: 'Нет'"],
    CreateTicket := map["ok" := "Скажи: 'ОК'"],
    WaitAdvice := map["ok" := "Скажи: 'ОК'"],
    EndNode := map[]
  ]

  /** The three tables describe the same nodes. */
  lemma TablesAgree()
    ensures Instructions.Keys == Nodes.Keys && OptionTexts.Keys == Nodes.Keys
  {
  }

  /** Every option of a node has a prompt text, and every prompt text belongs to an option. */
  lemma OptionTextsAgree(id: NodeId)
    ensures id in Nodes && id in OptionTexts
    ensures forall c :: c in Nodes[id].options ==> c.key in OptionTexts[id]
    ensures forall key :: key in OptionTexts[id] ==> exists c :: c in Nodes[id].options && c.key == key
  {
    var options := Nodes[id].options;
    match id
    case StartNode =>
      assert options[0].key == "temp" && options[1].key == "other";
    case CheckDuration =>
      assert options[0].key == "long" && options[1].key == "short";
    case OfferTicket =>
      assert options[0].key == "yes" && options[1].key == "no";
    case CreateTicket =>
      assert options[0].key == "ok";
    case WaitAdvice =>
      assert options[0].key == "ok";
    case _ =>
  }

  /** `if node.variable:` — a node that stores the reply under a name. */
  predicate Captures(node: DialogNode)
  {
    node.variable.Some? && node.variable.value != ""
  }

  /** `response in node.options`, and the next node id of the matching option. */
  function Select(options: seq<Choice>, response: string): (r: Option<NodeId>)
    ensures r.Some? <==> exists i :: 0 <= i < |options| && options[i].key == response
    ensures r.Some? ==> exists i :: 0 <= i < |options| && options[i].key == response && options[i].target == r.value
  {
    if options == [] then None
    else if options[0].key == response then Some(options[0].target)
    else
      var r := Select(options[1..], response);
      assert forall i :: 1 <= i < |options| ==> options[i] == options[1..][i - 1];
      r
  }

  /** The fixed successor of a capturing node: the if/elif chain of user_response. */
  function NextInChain(id: NodeId): Option<NodeId>
  {
    if id == AskCurrentTemp then Some(AskDesiredTemp)
    else if id == AskDesiredTemp then Some(AskTime)
    else if id == AskTime then Some(AskDuration)
    else if id == AskDuration then Some(CheckDuration)
    else None
  }

  /** Distinct nodes have distinct keys, so the enumeration stands for the dict's string keys one to one. */
  lemma KeysDistinct(a: NodeId, b: NodeId)
    ensures Key(a) == Key(b) <==> a == b
  {
  }

  /**
   * Every node id is a key of the table, so every next-node id the options or the chain can
   * produce is one too, and `self.nodes[...]` never fails.
   */
  lemma TableClosed()
    ensures forall id: NodeId :: id in Nodes
    ensures forall id, i :: id in Nodes && 0 <= i < |Nodes[id].options| ==> Nodes[id].options[i].target in Nodes
    ensures forall id :: id in Nodes && NextInChain(id).Some? ==> NextInChain(id).value in Nodes
  {
    forall id: NodeId ensures id in Nodes {
      match id
      case StartNode => case AskCurrentTemp => case AskDesiredTemp => case AskTime => case AskDuration =>
      case CheckDuration => case OfferTicket => case CreateTicket => case WaitAdvice => case EndNode =>
    }
  }

  /** A node captures a variable exactly when it has a fixed successor, and then it offers no options. */
  lemma NodeShapes()
    ensures forall id :: id in Nodes ==> (Captures(Nodes[id]) <==> NextInChain(id).Some?)
    ensures forall id :: id in Nodes && Captures(Nodes[id]) ==> Nodes[id].options == []
  {
  }

  /** Only the chain leads into check_duration: no option names it as its target. */
  lemma CheckDurationOnlyFromChain()
    ensures forall id, i :: id in Nodes && 0 <= i < |Nodes[id].options| ==> Nodes[id].options[i].target != CheckDuration
  {
  }

  /** The option keys of each node are distinct, as the keys of a dict are. */
  lemma OptionKeysDistinct()
    ensures forall id, i, j :: id in Nodes && 0 <= i < j < |Nodes[id].options| ==>
      Nodes[id].options[i].key != Nodes[id].options[j].key
  {
  }
}
