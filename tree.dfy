/**
 * The branching conversation tree of multilevel_dialogue.py (class DialogMessage).
 *
 * A message is a value: its role, its text and its ordered replies. The source keeps
 * references to messages in a list (DialogHistory.current_branch); here such a reference
 * is a PATH, the index of a root followed by a child index per level, so that a later
 * append below a referenced message is seen through the path exactly as through the
 * Python reference.
 */
module Tree {

  datatype Message = Message(role: string, content: string, children: seq<Message>)

  /** A message as DialogMessage(role, content) creates it: no replies yet. */
  function Leaf(role: string, content: string): Message
  {
    Message(role, content, [])
  }

  /** What a reader of a transcript sees of a message. */
  datatype Entry = Entry(role: string, content: string)

  /** `p` leads from the forest `ms` to some message. */
  predicate ValidPath(ms: seq<Message>, p: seq<nat>)
    decreases p
  {
    |p| > 0 && p[0] < |ms| && (|p| == 1 || ValidPath(ms[p[0]].children, p[1..]))
  }

  /** The message that path `p` leads to. */
  function At(ms: seq<Message>, p: seq<nat>): Message
    requires ValidPath(ms, p)
    decreases p
  {
    if |p| == 1 then ms[p[0]] else At(ms[p[0]].children, p[1..])
  }

  /** Every message met on the way along `p`: the source's current_branch. */
  function Along(ms: seq<Message>, p: seq<nat>): (r: seq<Message>)
    requires ValidPath(ms, p)
    ensures |r| == |p| && r[0] == ms[p[0]] && r[|p| - 1] == At(ms, p)
    decreases p
  {
    [ms[p[0]]] + (if |p| == 1 then [] else Along(ms[p[0]].children, p[1..]))
  }

  /** Role and content of every message along `p`, root first. */
  function Trail(ms: seq<Message>, p: seq<nat>): (r: seq<Entry>)
    requires ValidPath(ms, p)
    decreases p
  {
    [Entry(ms[p[0]].role, ms[p[0]].content)] + (if |p| == 1 then [] else Trail(ms[p[0]].children, p[1..]))
  }

  /** `ms` with `m` appended as the last reply of the message at `p` (the `children.append`). */
  function AppendAt(ms: seq<Message>, p: seq<nat>, m: Message): (r: seq<Message>)
    requires ValidPath(ms, p)
    decreases p
  {
    var top := ms[p[0]];
    var top' := if |p| == 1 then Message(top.role, top.content, top.children + [m])
                else Message(top.role, top.content, AppendAt(top.children, p[1..], m));
    ms[p[0] := top']
  }

  /** The number of messages in a tree and in a forest. */
  function Size(m: Message): nat
    decreases m
  {
    1 + SizeAll(m.children)
  }

  function SizeAll(ms: seq<Message>): nat
    decreases ms
  {
    if ms == [] then 0 else Size(ms[0]) + SizeAll(ms[1..])
  }

  predicate IsPrefix(q: seq<nat>, p: seq<nat>)
  {
    |q| <= |p| && forall i :: 0 <= i < |q| ==> q[i] == p[i]
  }

  lemma {:induction false} SizeAllAppend(ms: seq<Message>, m: Message)
    ensures SizeAll(ms + [m]) == SizeAll(ms) + Size(m)
    decreases ms
  {
    if ms == [] {
      assert [m][1..] == [];
    } else {
      assert (ms + [m])[1..] == ms[1..] + [m];
      SizeAllAppend(ms[1..], m);
    }
  }

  lemma {:induction false} SizeAllUpdate(ms: seq<Message>, i: nat, m: Message)
    requires i < |ms|
    ensures SizeAll(ms[i := m]) + Size(ms[i]) == SizeAll(ms) + Size(m)
    decreases ms
  {
    if i > 0 {
      assert ms[i := m][1..] == ms[1..][i - 1 := m];
      SizeAllUpdate(ms[1..], i - 1, m);
    }
  }

  /** Appending below any message adds exactly that one subtree, and no root. */
  lemma {:induction false} AppendAtSize(ms: seq<Message>, p: seq<nat>, m: Message)
    requires ValidPath(ms, p)
    ensures |AppendAt(ms, p, m)| == |ms|
    ensures SizeAll(AppendAt(ms, p, m)) == SizeAll(ms) + Size(m)
    decreases p
  {
    var top := ms[p[0]];
    if |p| == 1 {
      SizeAllAppend(top.children, m);
      SizeAllUpdate(ms, p[0], Message(top.role, top.content, top.children + [m]));
    } else {
      AppendAtSize(top.children, p[1..], m);
      SizeAllUpdate(ms, p[0], Message(top.role, top.content, AppendAt(top.children, p[1..], m)));
    }
  }

  /**
   * After the append, the message at `p` keeps its role and content and has `m` as its new
   * last reply, reachable one step further down.
   */
  lemma {:induction false} AppendAtTarget(ms: seq<Message>, p: seq<nat>, m: Message)
    requires ValidPath(ms, p)
    ensures var r := AppendAt(ms, p, m);
      && ValidPath(r, p)
      && At(r, p) == Message(At(ms, p).role, At(ms, p).content, At(ms, p).children + [m])
      && ValidPath(r, p + [|At(ms, p).children|])
      && At(r, p + [|At(ms, p).children|]) == m
    decreases p
  {
    var r := AppendAt(ms, p, m);
    var k := |At(ms, p).children|;
    assert (p + [k])[0] == p[0] && (p + [k])[1..] == p[1..] + [k];
    if |p| > 1 {
      AppendAtTarget(ms[p[0]].children, p[1..], m);
    }
  }

  /** Every message that is not on the path to the append point is untouched, with all its replies. */
  lemma {:induction false} AppendAtElsewhere(ms: seq<Message>, p: seq<nat>, m: Message, q: seq<nat>)
    requires ValidPath(ms, p) && ValidPath(ms, q) && !IsPrefix(q, p)
    ensures ValidPath(AppendAt(ms, p, m), q) && At(AppendAt(ms, p, m), q) == At(ms, q)
    decreases q
  {
    if q[0] != p[0] {
    } else if |p| == 1 {
      ExtendedForest(ms[p[0]].children, m, q[1..]);
    } else {
      AppendAtElsewhere(ms[p[0]].children, p[1..], m, q[1..]);
    }
  }

  lemma {:induction false} ExtendedForest(ms: seq<Message>, m: Message, q: seq<nat>)
    requires ValidPath(ms, q)
    ensures ValidPath(ms + [m], q) && At(ms + [m], q) == At(ms, q)
  {
    assert (ms + [m])[q[0]] == ms[q[0]];
  }

  /** The ancestors of the append point keep their role, content and number of replies. */
  lemma {:induction false} AppendAtAncestors(ms: seq<Message>, p: seq<nat>, m: Message, q: seq<nat>)
    requires ValidPath(ms, p) && 0 < |q| < |p| && IsPrefix(q, p)
    ensures ValidPath(ms, q) && ValidPath(AppendAt(ms, p, m), q)
    ensures var before, after := At(ms, q), At(AppendAt(ms, p, m), q);
      after.role == before.role && after.content == before.content && |after.children| == |before.children|
    decreases q
  {
    assert q[0] == p[0];
    if |q| > 1 {
      assert IsPrefix(q[1..], p[1..]);
      AppendAtAncestors(ms[p[0]].children, p[1..], m, q[1..]);
    }
  }

  /** The transcript along the extended path is the old one followed by the new message. */
  lemma {:induction false} AppendAtTrail(ms: seq<Message>, p: seq<nat>, m: Message)
    requires ValidPath(ms, p)
    ensures ValidPath(AppendAt(ms, p, m), p + [|At(ms, p).children|])
    ensures Trail(AppendAt(ms, p, m), p + [|At(ms, p).children|]) == Trail(ms, p) + [Entry(m.role, m.content)]
    decreases p
  {
    AppendAtTarget(ms, p, m);
    var k := |At(ms, p).children|;
    assert (p + [k])[0] == p[0] && (p + [k])[1..] == p[1..] + [k];
    if |p| > 1 {
      AppendAtTrail(ms[p[0]].children, p[1..], m);
    }
  }
}
