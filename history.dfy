/**
 * DialogHistory of multilevel_dialogue.py: the root messages, the active branch, and
 * add_message / to_json / from_json.
 */
module History {
  import opened Wrappers
  import opened Tree
  import opened Codec

  /** The two fields of a DialogHistory; `path` locates the messages of current_branch. */
  datatype HState = HState(roots: seq<Message>, path: seq<nat>)

  /** current_branch refers to messages of the tree (or is empty). */
  predicate Consistent(h: HState)
  {
    h.path == [] || ValidPath(h.roots, h.path)
  }

  /**
   * What add_message keeps true: current_branch is empty or a parent-to-child chain from a
   * root, and its last message is the newest one, which has no replies yet.
   */
  predicate Wellformed(h: HState)
  {
    h.path == [] || (ValidPath(h.roots, h.path) && At(h.roots, h.path).children == [])
  }

  /** The messages of current_branch, root first. */
  function Branch(h: HState): (r: seq<Message>)
    requires Consistent(h)
    ensures |r| == |h.path|
  {
    if h.path == [] then [] else Along(h.roots, h.path)
  }

  /** Role and content of the messages of current_branch, root first. */
  function Transcript(h: HState): (r: seq<Entry>)
    requires Consistent(h)
  {
    if h.path == [] then [] else Trail(h.roots, h.path)
  }

  /** add_message: a new root when asked for or when no branch is active, else a reply to the tail. */
  function Add(h: HState, role: string, content: string, newBranch: bool): (r: HState)
    requires Consistent(h)
    ensures Consistent(r) && r.path != []
    ensures Wellformed(r)
  {
    var m := Leaf(role, content);
    if newBranch || h.path == [] then
      HState(h.roots + [m], [|h.roots|])
    else
      AppendAtTarget(h.roots, h.path, m);
      HState(AppendAt(h.roots, h.path, m), h.path + [|At(h.roots, h.path).children|])
  }

  /** Every add_message adds exactly one message to the tree. */
  lemma AddSize(h: HState, role: string, content: string, newBranch: bool)
    requires Consistent(h)
    ensures SizeAll(Add(h, role, content, newBranch).roots) == SizeAll(h.roots) + 1
  {
    var m := Leaf(role, content);
    assert SizeAll(m.children) == 0;
    if newBranch || h.path == [] {
      SizeAllAppend(h.roots, m);
    } else {
      AppendAtSize(h.roots, h.path, m);
    }
  }

  /** A new branch: one more root, and current_branch is exactly the new message. */
  lemma AddNewRoot(h: HState, role: string, content: string, newBranch: bool)
    requires Consistent(h) && (newBranch || h.path == [])
    ensures var r := Add(h, role, content, newBranch);
      && r.roots == h.roots + [Leaf(role, content)]
      && Branch(r) == [Leaf(role, content)]
      && Transcript(r) == [Entry(role, content)]
  {
  }

  /**
   * A reply: the root list keeps its length, the old tail gets the new message as its last
   * reply, current_branch grows by that message, the tail's ancestors keep their role, content
   * and number of replies, and every message off the branch is unchanged.
   */
  lemma AddReply(h: HState, role: string, content: string)
    requires Consistent(h) && h.path != []
    ensures var r := Add(h, role, content, false);
      && |r.roots| == |h.roots|
      && |r.path| == |h.path| + 1 && r.path[..|h.path|] == h.path
      && Branch(r)[|h.path|] == Leaf(role, content)
      && Transcript(r) == Transcript(h) + [Entry(role, content)]
      && ValidPath(r.roots, h.path)
      && At(r.roots, h.path).children == At(h.roots, h.path).children + [Leaf(role, content)]
      && At(r.roots, h.path).role == At(h.roots, h.path).role
      && At(r.roots, h.path).content == At(h.roots, h.path).content
    ensures forall q :: 0 < |q| < |h.path| && IsPrefix(q, h.path) ==>
      var r := Add(h, role, content, false);
      && ValidPath(h.roots, q) && ValidPath(r.roots, q)
      && At(r.roots, q).role == At(h.roots, q).role && At(r.roots, q).content == At(h.roots, q).content
      && |At(r.roots, q).children| == |At(h.roots, q).children|
    ensures forall q :: ValidPath(h.roots, q) && !IsPrefix(q, h.path) ==>
      ValidPath(Add(h, role, content, false).roots, q) && At(Add(h, role, content, false).roots, q) == At(h.roots, q)
  {
    var m := Leaf(role, content);
    AppendAtSize(h.roots, h.path, m);
    AppendAtTarget(h.roots, h.path, m);
    AppendAtTrail(h.roots, h.path, m);
    forall q | 0 < |q| < |h.path| && IsPrefix(q, h.path)
      ensures ValidPath(h.roots, q) && ValidPath(AppendAt(h.roots, h.path, m), q)
      ensures At(AppendAt(h.roots, h.path, m), q).role == At(h.roots, q).role
      ensures At(AppendAt(h.roots, h.path, m), q).content == At(h.roots, q).content
      ensures |At(AppendAt(h.roots, h.path, m), q).children| == |At(h.roots, q).children|
    {
      AppendAtAncestors(h.roots, h.path, m, q);
    }
    forall q | ValidPath(h.roots, q) && !IsPrefix(q, h.path)
      ensures ValidPath(AppendAt(h.roots, h.path, m), q) && At(AppendAt(h.roots, h.path, m), q) == At(h.roots, q)
    {
      AppendAtElsewhere(h.roots, h.path, m, q);
    }
  }

  /** add_message keeps the active branch a chain ending at the newest message; a reply is always a first child. */
  lemma AddWellformed(h: HState, role: string, content: string, newBranch: bool)
    requires Wellformed(h)
    ensures Wellformed(Add(h, role, content, newBranch))
    ensures !newBranch && h.path != [] ==> Add(h, role, content, newBranch).path == h.path + [0]
  {
    if !newBranch && h.path != [] {
      AppendAtTarget(h.roots, h.path, Leaf(role, content));
    }
  }

  /** The transcript of the active branch after any add_message. */
  lemma AddTranscript(h: HState, role: string, content: string, newBranch: bool)
    requires Consistent(h)
    ensures Transcript(Add(h, role, content, newBranch))
      == (if newBranch || h.path == [] then [] else Transcript(h)) + [Entry(role, content)]
  {
    if !newBranch && h.path != [] {
      AppendAtTrail(h.roots, h.path, Leaf(role, content));
    }
  }

  class DialogHistory {
    var roots: seq<Message>
    var currentPath: seq<nat>

    function State(): HState
      reads this
    {
      HState(roots, currentPath)
    }

    ghost predicate Valid()
      reads this
    {
      Wellformed(State())
    }

    constructor ()
      ensures Valid() && roots == [] && currentPath == []
    {
      roots := [];
      currentPath := [];
    }

    /** The source's current_branch field. */
    function CurrentBranch(): seq<Message>
      reads this
      requires Consistent(State())
    {
      Branch(State())
    }

    method AddMessage(role: string, content: string, isNewBranch: bool)
      requires Valid()
      modifies this
      ensures Valid()
      ensures State() == Add(old(State()), role, content, isNewBranch)
      ensures CurrentBranch()[|CurrentBranch()| - 1] == Leaf(role, content)
      ensures SizeAll(roots) == SizeAll(old(roots)) + 1
    {
      AddWellformed(State(), role, content, isNewBranch);
      AddSize(State(), role, content, isNewBranch);
      var newMsg := Leaf(role, content);
      if isNewBranch || currentPath == [] {
        roots := roots + [newMsg];
        currentPath := [|roots| - 1];
      } else {
        var last := At(roots, currentPath);
        AppendAtTarget(roots, currentPath, newMsg);
        roots := AppendAt(roots, currentPath, newMsg);
        currentPath := currentPath + [|last.children|];
      }
    }

    /** to_json: the list of the roots' dicts, from which from_json rebuilds the same roots. */
    function ToJson(): (r: Json)
      reads this
      ensures DecodeHistory(r) == Ok(roots)
    {
      DecodeEncodeHistory(roots);
      EncodeHistory(roots)
    }

    /** from_json: a fresh history holding the decoded roots, with no active branch. */
    static method FromJson(data: Json) returns (r: Result<DialogHistory, DecodeError>)
      ensures r.Ok? <==> DecodeHistory(data).Ok?
      ensures r.Ok? ==> fresh(r.value) && r.value.Valid()
                        && r.value.roots == DecodeHistory(data).value && r.value.currentPath == []
      ensures r.Err? ==> r.error == DecodeHistory(data).error
    {
      var history := new DialogHistory();
      var decoded := DecodeHistory(data);
      if decoded.Err? {
        return Err(decoded.error);
      }
      history.roots := decoded.value;
      return Ok(history);
    }
  }

  /** Saving and restoring a history gives back the same root messages and no active branch. */
  method SaveRestore(h: DialogHistory) returns (restored: DialogHistory)
    ensures fresh(restored) && restored.Valid()
    ensures restored.roots == h.roots && restored.currentPath == []
  {
    DecodeEncodeHistory(h.roots);
    var r := DialogHistory.FromJson(h.ToJson());
    restored := r.value;
  }
}
