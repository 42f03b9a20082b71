# Multilevel thermostat dialogue, modelled in Dafny

This project models the core of `NLP/DialogSystem/multilevel_dialogue.py`. That module is a
scripted thermostat-troubleshooting assistant:

- a fixed graph of dialog nodes asks the user about the problem;
- it stores four answers in a context dict;
- it routes on the stated duration: more than one hour leads to a support-ticket offer;
- it keeps every exchanged message in a tree of `DialogMessage`s.

The modules follow the program's structure:

- `Tree` (`tree.dfy`): `DialogMessage` as a value datatype `Message`, with paths of child
  indices that locate a message in the forest of root messages.
- `Codec` (`codec.dfy`): `to_dict` / `from_dict` over a structured JSON value. Decoding
  follows Python's behaviour:
  - a value that is not a dict gives `TypeError`;
  - a missing key gives `KeyError`;
  - of duplicate keys the last one counts, as the dict `json.loads` builds keeps it;
  - a missing `children` means no replies;
  - an empty string or dict as `children` decodes to no replies.
- `History` (`history.dfy`): class `DialogHistory`, with `add_message`, `to_json` and
  `from_json`. `current_branch` is a list of references into the tree that sees later
  appends. It is modelled as the path `currentPath` to its last message, and
  `CurrentBranch()` gives the messages along that path.
- `Graph` (`graph.dfy`): the `nodes` dict built in `DialogSystem.__init__`, the option lookup
  `response in node.options`, and the if/elif successor chain of `user_response`.
- `Duration` (`duration.dfy`): `float(...)` of the stored duration and the comparison `> 1`.
  The text is parsed into an exact decimal. The comparison is then made as Python makes it,
  on the double the decimal rounds to: a value above 1 by at most 2^-53 rounds to 1.0 and is
  not above one hour.
- `Engine` (`engine.dfy`): class `DialogSystem`, with `start`, `process_node` and
  `user_response`.
  - Pure step functions (`Process`, `StartStep`, `RespondStep`) say what one call does to the
    session: current node, context and history.
  - The class methods perform the same steps in place and are proved to match them.
- `Walkthrough` (`walkthrough.dfy`): properties of those steps, and the module's demo (`start`
  and then the replies `temp`, `22`, `24`, `день`, `1.5`, `yes`) proved to end at
  `create_ticket` with all four answers stored.

The text generator `generate_response` is a parameter of the system: a fixed, opaque function.
It receives the instruction as a `Prompt` value, which is either a node's own instruction or
the create_ticket summary of three answers. `Text` gives the instruction string a prompt
stands for. Every result holds for every generator, so it also holds for a generator that
renders the prompt with `Text` and then calls the model.

Two behaviours of the code are modelled as written:

- A duration that is not a number makes `float` raise `ValueError`. The exception comes after
  `user_response` has stored the reply, written the context and moved to `check_duration`, and
  the model keeps that state.
- The `end` node has no variable and no options, so every reply there is an invalid choice.
  There is no separate finished state.

## Model

| member | source | states |
|---|---|---|
| Codec.Find | NLP/DialogSystem/multilevel_dialogue.py:25-27 | the index a dict lookup reads: a field with that key after which no field has the key (json.loads keeps the last of duplicate keys), or none exactly when no field has it |
| Codec.ToDict | NLP/DialogSystem/multilevel_dialogue.py:15-20 | definition of to_dict: a dict of role, content and the list of the children's dicts; DecodeEncode states what it preserves |
| Codec.FromDict | NLP/DialogSystem/multilevel_dialogue.py:22-28 | definition of from_dict: role, then content, then the children (default no replies), each failure as Python's exception; DecodeEncode, DecodeNeedsKeys, ChildrenDefaultEmpty and ExtraFieldIgnored state its behaviour |
| Codec.FromIterable | NLP/DialogSystem/multilevel_dialogue.py:27 | definition of iterating the 'children' value: a list element by element, an empty string or dict as no replies, any other value as TypeError |
| Codec.DecodeHistory | NLP/DialogSystem/multilevel_dialogue.py:52-53 | definition of from_json's decoding of the loaded list into root messages |
| Codec.DecodeEncode | NLP/DialogSystem/multilevel_dialogue.py:15-28 | from_dict(to_dict(m)) gives back m, for every message tree |
| Codec.DecodeEncodeAll | NLP/DialogSystem/multilevel_dialogue.py:19 | decoding the encoded list of children gives back the same list |
| Codec.ChildrenDefaultEmpty | NLP/DialogSystem/multilevel_dialogue.py:27 | a message dict without 'children' decodes to a message without replies |
| Codec.DecodeNeedsKeys | NLP/DialogSystem/multilevel_dialogue.py:23-26 | a non-dict raises TypeError; a missing 'role', or a missing 'content' after a valid role, raises KeyError for that key |
| Codec.ExtraFieldIgnored | NLP/DialogSystem/multilevel_dialogue.py:23-28 | a field other than role, content and children, inserted at any position among the others, does not change the decoded message or the error |
| Codec.DecodeEncodeHistory | NLP/DialogSystem/multilevel_dialogue.py:46-54 | the value to_json serialises decodes under from_json to the same root messages |
| Tree.AppendAt | NLP/DialogSystem/multilevel_dialogue.py:43 | definition of `children.append` on the message a path leads to; AppendAtTarget, AppendAtElsewhere, AppendAtAncestors and AppendAtSize state its effect, through History.AddReply and History.AddSize |
| History.Add | NLP/DialogSystem/multilevel_dialogue.py:35-44 | after add_message the active branch is a non-empty parent-to-child chain ending at a message with no replies |
| History.AddSize | NLP/DialogSystem/multilevel_dialogue.py:35-44 | every add_message adds exactly one message to the tree |
| History.AddNewRoot | NLP/DialogSystem/multilevel_dialogue.py:38-40 | a new branch (requested, or no active branch) appends one root, and current_branch is exactly that message |
| History.AddReply | NLP/DialogSystem/multilevel_dialogue.py:41-44 | a reply keeps the number of roots, appends the message to the old tail's children, extends current_branch by it, keeps the role, content and number of replies of every earlier message on current_branch, and leaves every message off the branch unchanged |
| History.AddWellformed | NLP/DialogSystem/multilevel_dialogue.py:41-44 | add_message keeps the branch well formed, and a reply is the first child of the old tail |
| History.AddTranscript | NLP/DialogSystem/multilevel_dialogue.py:35-44 | the role/content sequence of current_branch after add_message is the old one (or empty, on a new branch) plus the new entry |
| History.DialogHistory.constructor | NLP/DialogSystem/multilevel_dialogue.py:31-33 | a new history has no root messages and an empty current_branch |
| History.DialogHistory.ToJson | NLP/DialogSystem/multilevel_dialogue.py:46-47 | the value to_json serialises decodes under from_json to exactly the history's root messages |
| History.DialogHistory.AddMessage | NLP/DialogSystem/multilevel_dialogue.py:35-44 | in place: the new state is Add of the old, the new message is the last of current_branch, and the tree grows by one |
| History.DialogHistory.FromJson | NLP/DialogSystem/multilevel_dialogue.py:49-54 | succeeds exactly when the value decodes; it then gives a fresh history with the decoded roots and an empty current_branch, and otherwise reports the decoder's exception |
| History.SaveRestore | NLP/DialogSystem/multilevel_dialogue.py:46-54 | saving then loading gives a fresh history with the same root messages and no active branch |
| Graph.KeysDistinct | NLP/DialogSystem/multilevel_dialogue.py:95-118 | two node ids have the same dict key exactly when they are the same id |
| Graph.TablesAgree | NLP/DialogSystem/multilevel_dialogue.py:95-118 | the options table, the instruction texts and the option texts describe the same ten nodes |
| Graph.OptionTextsAgree | NLP/DialogSystem/multilevel_dialogue.py:96-116 | every option of a node has a prompt text, and every option prompt text belongs to an option of that node |
| Graph.Key | NLP/DialogSystem/multilevel_dialogue.py:95-118 | definition: the dict key of each node id; KeysDistinct states it is one to one |
| Graph.Captures | NLP/DialogSystem/multilevel_dialogue.py:221 | definition of `if node.variable:`, a variable that is present and not the empty string |
| Graph.NextInChain | NLP/DialogSystem/multilevel_dialogue.py:225-232 | definition of the if/elif successor chain; NodeShapes and TableClosed state its properties |
| Graph.Select | NLP/DialogSystem/multilevel_dialogue.py:237-238 | a reply is found exactly when it equals some option key, and the result is the target of such an option |
| Graph.TableClosed | NLP/DialogSystem/multilevel_dialogue.py:95-118 | every node id is a key of the table, hence so is every option target and chain successor; that the target strings of the source name dict keys is settled by typing the targets as node ids, whose keys `Key` gives |
| Graph.NodeShapes | NLP/DialogSystem/multilevel_dialogue.py:103-106 | a node stores a variable exactly when the chain gives it a successor, and such a node offers no options |
| Graph.CheckDurationOnlyFromChain | NLP/DialogSystem/multilevel_dialogue.py:107-114 | no option of any node leads to check_duration |
| Graph.OptionKeysDistinct | NLP/DialogSystem/multilevel_dialogue.py:98-116 | the option keys of each node are distinct |
| Duration.ParseFloat | NLP/DialogSystem/multilevel_dialogue.py:189 | definition of `float(text)` on an optional sign, digits and at most one decimal point, giving the exact decimal or no value (ValueError); ParseFormat states it inverts Format |
| Duration.GreaterThanOne | NLP/DialogSystem/multilevel_dialogue.py:190 | definition of `duration > 1` on the double float() yields, as an integer test on the decimal |
| Duration.GreaterThanOneMeansValue | NLP/DialogSystem/multilevel_dialogue.py:190 | the test holds exactly when the decimal's value exceeds 1 + 2^-53, the midpoint between 1.0 and the next double, which rounds to the even 1.0 |
| Duration.SampleRoundsToOne | NLP/DialogSystem/multilevel_dialogue.py:189-190 | "1.0000000000000001" parses to that exact decimal, yet is not above one hour, because float() rounds it to 1.0 |
| Duration.SampleNextDouble | NLP/DialogSystem/multilevel_dialogue.py:189-190 | "1.0000000000000002" is above one hour, because float() rounds it to the double after 1.0 |
| Duration.ParseFormat | NLP/DialogSystem/multilevel_dialogue.py:189 | parsing the written-out form of any decimal gives back that decimal |
| Duration.ParseUnsignedFormat | NLP/DialogSystem/multilevel_dialogue.py:189 | parsing the unsigned written-out digits of any decimal gives back that decimal |
| Duration.SampleAbove | NLP/DialogSystem/multilevel_dialogue.py:189-190 | "1.5" parses to 1.5, which is above one hour |
| Duration.SampleBelow | NLP/DialogSystem/multilevel_dialogue.py:189-190 | "0.5" parses to 0.5, which is not above one hour |
| Duration.SampleBoundary | NLP/DialogSystem/multilevel_dialogue.py:189-190 | "1" parses to 1, which is not above one hour: the comparison is strict |
| Duration.SampleNotANumber | NLP/DialogSystem/multilevel_dialogue.py:189 | "soon" does not parse, so float raises ValueError |
| Engine.Get | NLP/DialogSystem/multilevel_dialogue.py:195-197 | definition of `context.get(key, default)`; Engine.Instruction and Engine.Route state the values it yields |
| Engine.Text | NLP/DialogSystem/multilevel_dialogue.py:194-200 | definition of the instruction string: a node's prompt_instruction, or the create_ticket f-string filled in; TicketQuotes states its shape |
| Engine.Instruction | NLP/DialogSystem/multilevel_dialogue.py:194-200 | the ticket summary exactly at create_ticket, its three slots filled with the stored current_temp, desired_temp and time_of_day, each "неизвестно" when not stored; the node's own instruction everywhere else |
| Engine.Route | NLP/DialogSystem/multilevel_dialogue.py:188-190 | check_duration fails with ValueError exactly when a stored duration is not a number; otherwise it leads to offer_ticket exactly when a stored duration is above one hour, and to wait_advice otherwise |
| Engine.TicketQuotes | NLP/DialogSystem/multilevel_dialogue.py:198 | the ticket summary quotes the three answers whole, each at the offset fixed by what precedes it, and ends with a full stop |
| Engine.Process | NLP/DialogSystem/multilevel_dialogue.py:185-203 | process_node fails only at check_duration on a duration that is not a number; otherwise it ends on a node other than check_duration (the routed one, if it started there), keeps the context, and appends the generated instruction of that node as a system message |
| Engine.Continue | NLP/DialogSystem/multilevel_dialogue.py:244 | definition of the closing process_node of user_response: on success the processed session, on ValueError the moved state with the reply, the context write and the move kept; Walkthrough.DurationRoutes and Walkthrough.UserMessageFirst state both cases |
| Engine.StartStep | NLP/DialogSystem/multilevel_dialogue.py:179-182 | start leaves the system on a table node with a well-formed history |
| Engine.RespondStep | NLP/DialogSystem/multilevel_dialogue.py:212-244 | user_response keeps the current node in the table and the history well formed |
| Engine.DialogSystem.constructor | NLP/DialogSystem/multilevel_dialogue.py:63-67 | a new system has no current node, an empty context and an empty history |
| Engine.DialogSystem.ProcessNode | NLP/DialogSystem/multilevel_dialogue.py:185-203 | in place: the new state is Process of the old; when Process fails, the error is returned and nothing changes |
| Engine.DialogSystem.Start | NLP/DialogSystem/multilevel_dialogue.py:179-182 | in place: the new state is StartStep of the old |
| Engine.DialogSystem.UserResponse | NLP/DialogSystem/multilevel_dialogue.py:212-244 | in place: the new state and the reply are those of RespondStep |
| Walkthrough.StartResets | NLP/DialogSystem/multilevel_dialogue.py:179-182 | start goes to 'start' with an empty context and appends exactly the start node's generated prompt, one message |
| Walkthrough.NotStartedChangesNothing | NLP/DialogSystem/multilevel_dialogue.py:213-215 | before start, user_response changes nothing |
| Walkthrough.UserMessageFirst | NLP/DialogSystem/multilevel_dialogue.py:217-244 | after start, the reply is recorded as a user message first; a move then adds the reached node's generated prompt and nothing else, so the tree grows by two or one |
| Walkthrough.CaptureStores | NLP/DialogSystem/multilevel_dialogue.py:221-222 | at a capturing node the raw reply is stored under the node's variable |
| Walkthrough.CaptureAdvances | NLP/DialogSystem/multilevel_dialogue.py:225-230 | the first three questions advance along the chain whatever the reply |
| Walkthrough.DurationRoutes | NLP/DialogSystem/multilevel_dialogue.py:188-192 | after the duration answer: a number above one hour leads to offer_ticket, any other number to wait_advice, with no message for check_duration; a non-number raises ValueError, leaving the reply stored and the node at check_duration |
| Walkthrough.MissingDurationWaits | NLP/DialogSystem/multilevel_dialogue.py:189-190 | with no stored duration, check_duration leads to wait_advice, as float(0) would |
| Walkthrough.OptionMatches | NLP/DialogSystem/multilevel_dialogue.py:237-239 | a reply equal to an option key moves to that option's target, with the context unchanged |
| Walkthrough.SelectFinds | NLP/DialogSystem/multilevel_dialogue.py:237-238 | with distinct keys, the lookup finds the target of the option whose key was given |
| Walkthrough.OptionRejects | NLP/DialogSystem/multilevel_dialogue.py:240-242 | any other reply only records the user message; node and context stay |
| Walkthrough.EndRejectsEverything | NLP/DialogSystem/multilevel_dialogue.py:117 | at 'end' every reply is an invalid choice |
| Walkthrough.NeverRestsOnCheck | NLP/DialogSystem/multilevel_dialogue.py:188-192 | the system is left at check_duration only by a raised ValueError, or by an invalid choice made there |
| Walkthrough.StepTranscript | NLP/DialogSystem/multilevel_dialogue.py:202-203 | a move adds the user's reply and then the reached node's prompt to the active branch |
| Walkthrough.CaptureTurn | NLP/DialogSystem/multilevel_dialogue.py:221-235 | a turn at a chain question: advance, store the answer, and extend the transcript by the reply and the next question's prompt |
| Walkthrough.FirstOptionTurn | NLP/DialogSystem/multilevel_dialogue.py:237-239 | a turn choosing a node's first option: advance to its target and extend the transcript |
| Walkthrough.LongDurationTurn | NLP/DialogSystem/multilevel_dialogue.py:188-192 | the answer "1.5" passes check_duration to offer_ticket and extends the transcript with offer_ticket's prompt |
| Walkthrough.StartOption | NLP/DialogSystem/multilevel_dialogue.py:96-102 | the start node stores nothing, and its first option 'temp' leads to ask_current_temp |
| Walkthrough.QuestionVariables | NLP/DialogSystem/multilevel_dialogue.py:103-105 | the three questions store current_temp, desired_temp and time_of_day |
| Walkthrough.OfferOption | NLP/DialogSystem/multilevel_dialogue.py:111-114 | offer_ticket stores nothing, and its first option 'yes' leads to create_ticket |
| Walkthrough.StageProblem | NLP/DialogSystem/multilevel_dialogue.py:273-276 | the demo's reply 'temp' advances from start to ask_current_temp |
| Walkthrough.StageQuestion | NLP/DialogSystem/multilevel_dialogue.py:273-276 | the demo's replies '22', '24' and 'день' each advance one question and are stored |
| Walkthrough.StageDuration | NLP/DialogSystem/multilevel_dialogue.py:273-276 | the demo's reply '1.5' advances to offer_ticket |
| Walkthrough.StageAccept | NLP/DialogSystem/multilevel_dialogue.py:273-276 | the demo's reply 'yes' advances to create_ticket |
| Walkthrough.ScriptTurn | NLP/DialogSystem/multilevel_dialogue.py:274-276 | each reply of the demo takes it from its stage to the next one |
| Walkthrough.TicketSummary | NLP/DialogSystem/multilevel_dialogue.py:194-198 | at the demo's end the ticket instruction quotes 22, 24 and день |
| Walkthrough.StagePrompts | NLP/DialogSystem/multilevel_dialogue.py:199-200 | before create_ticket the demo generates each node's own instruction |
| Walkthrough.ScriptContext | NLP/DialogSystem/multilevel_dialogue.py:222 | the demo's final context holds exactly the four answers |
| Walkthrough.ScriptStep | NLP/DialogSystem/multilevel_dialogue.py:276 | on the object, one user_response of the demo advances a stage and extends the transcript by two entries |
| Walkthrough.Demo | NLP/DialogSystem/multilevel_dialogue.py:268-276 | the demo: every reply advances; it ends at create_ticket with the four answers in the context and a thirteen-message active branch |

## Left out

- The ChromaDB knowledge base (`setup_knowledge_base`, `get_relevant_knowledge`), the embedding model and the collection setup in `__init__` are not modelled. They only shape the text sent to the model.
- `generate_response` is an opaque function of the instruction, fixed for the life of a system, and not the hosted model call. The generator is applied to a `Prompt` value; `Text` gives the string it stands for.
- The loop at lines 206-209 generates and prints each option's prompt. It changes no state, so it is left out; the option prompt texts are kept in `Graph.OptionTexts`.
- Console output (`print`) is not modelled; the "dialog not started" and "invalid choice" messages are the `NotStarted` and `InvalidChoice` replies.
- `chat_mode`, `input`, and the file I/O of `save_history` / `load_history` are not modelled. `History.SaveRestore` covers the round trip through `to_json` / `from_json` they rely on.
- JSON text (json.dumps with indent, ensure_ascii, and the json.loads parser) is not modelled; the codec works on the structured value. JSON numbers are integers, which the decoder never needs.
- Codec.FromDict: role and content must be JSON strings; Python would store any value there.
- Duration.ParseFloat: accepts only a sign, ASCII digits and at most one decimal point. Python's float also accepts surrounding whitespace, underscores between digits, exponents, "inf", "infinity" and "nan" in any case, and decimal digits of other scripts (`float("２")` is 2.0); these raise ValueError in the model. A decimal too large for a double becomes inf in Python, which is still above one hour, as in the model.
- Node identity: the code compares nodes by object identity (`node == self.nodes['check_duration']`). The model uses the enumeration `NodeId`, and `Key` gives each id's dict key.
- The `nodes` dict is split into three tables: options and variable (`Nodes`), instruction texts (`Instructions`) and option prompt texts (`OptionTexts`). `Graph.TablesAgree` and `Graph.OptionTextsAgree` tie them together.
- Engine.StartStep and Engine.RespondStep: their own contracts state only the invariant; the Walkthrough lemmas state what each call does.
