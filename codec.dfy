/**
 * DialogMessage.to_dict / from_dict and the list that DialogHistory.to_json / from_json
 * hand to the json library, over a structured JSON value (the text form json.dumps
 * produces is not modelled, only the value it encodes).
 */
module Codec {
  import opened Wrappers
  import opened Tree

  /** A value as json.loads returns it. Integers stand for all JSON numbers. */
  datatype Json =
    | JNull
    | JBool(b: bool)
    | JNum(n: int)
    | JStr(s: string)
    | JArr(items: seq<Json>)
    | JObj(fields: seq<Field>)

  /** One key/value pair of an object, in document order. */
  datatype Field = Field(key: string, value: Json)

  /** The Python exceptions decoding can raise. */
  datatype DecodeError = KeyError(key: string) | TypeError(reason: string)

  /** Index of the binding a dict lookup sees: json.loads keeps the last of duplicate keys. */
  function Find(fields: seq<Field>, key: string): (r: Option<nat>)
    ensures r.Some? ==> r.value < |fields| && fields[r.value].key == key
    ensures r.Some? ==> forall i :: r.value < i < |fields| ==> fields[i].key != key
    ensures r.None? ==> forall i :: 0 <= i < |fields| ==> fields[i].key != key
  {
    if fields == [] then None
    else if fields[|fields| - 1].key == key then Some(|fields| - 1)
    else Find(fields[..|fields| - 1], key)
  }

  function ToDict(m: Message): Json
    decreases m
  {
    JObj([Field("role", JStr(m.role)), Field("content", JStr(m.content)), Field("children", JArr(ToDictAll(m.children)))])
  }

  function ToDictAll(ms: seq<Message>): (r: seq<Json>)
    ensures |r| == |ms|
    decreases ms
  {
    if ms == [] then [] else [ToDict(ms[0])] + ToDictAll(ms[1..])
  }

  /** A string field of a dict: missing is Python's KeyError. */
  function TextField(fields: seq<Field>, key: string): Result<string, DecodeError>
  {
    match Find(fields, key)
    case None => Err(KeyError(key))
    case Some(i) => if fields[i].value.JStr? then Ok(fields[i].value.s) else Err(TypeError(key + " is not a string"))
  }

  /** DialogMessage.from_dict: role, then content, then the children (default []). */
  function FromDict(data: Json): Result<Message, DecodeError>
    decreases data, 1
  {
    if !data.JObj? then Err(TypeError("indexing a value that is not a dict"))
    else
      var role := TextField(data.fields, "role");
      if role.Err? then Err(role.error)
      else
        var content := TextField(data.fields, "content");
        if content.Err? then Err(content.error)
        else
          match Find(data.fields, "children")
          case None => Ok(Message(role.value, content.value, []))
          case Some(i) =>
            var children := FromIterable(data.fields[i].value);
            if children.Err? then Err(children.error)
            else Ok(Message(role.value, content.value, children.value))
  }

  /**
   * `[from_dict(x) for x in data]`: a list is decoded element by element; iterating an
   * empty string or dict gives nothing; a non-empty one yields strings, which from_dict
   * cannot index; anything else is not iterable.
   */
  function FromIterable(data: Json): Result<seq<Message>, DecodeError>
    decreases data, 0
  {
    match data
    case JArr(items) => FromDictAll(items)
    case JStr(s) => if s == [] then Ok([]) else Err(TypeError("indexing a string"))
    case JObj(fields) => if fields == [] then Ok([]) else Err(TypeError("indexing a string"))
    case _ => Err(TypeError("not iterable"))
  }

  /** Decodes the items in order and stops at the first exception. */
  function FromDictAll(items: seq<Json>): (r: Result<seq<Message>, DecodeError>)
    ensures r.Ok? ==> |r.value| == |items|
    decreases items
  {
    if items == [] then Ok([])
    else
      match FromDict(items[0])
      case Err(e) => Err(e)
      case Ok(m) =>
        match FromDictAll(items[1..])
        case Err(e) => Err(e)
        case Ok(ms) => Ok([m] + ms)
  }

  /** The list DialogHistory.to_json serialises. */
  function EncodeHistory(roots: seq<Message>): Json
  {
    JArr(ToDictAll(roots))
  }

  /** The root messages DialogHistory.from_json rebuilds from the loaded value. */
  function DecodeHistory(data: Json): Result<seq<Message>, DecodeError>
  {
    FromIterable(data)
  }

  /** Decoding what to_dict produced gives back the same message, recursively. */
  lemma {:induction false} DecodeEncode(m: Message)
    ensures FromDict(ToDict(m)) == Ok(m)
    decreases m
  {
    var fields := [Field("role", JStr(m.role)), Field("content", JStr(m.content)), Field("children", JArr(ToDictAll(m.children)))];
    assert Find(fields, "children") == Some(2);
    assert Find(fields, "content") == Some(1) by { assert fields[..2][..1] == fields[..1]; }
    assert Find(fields, "role") == Some(0) by { assert Find(fields[..2][..1], "role") == Some(0); }
    DecodeEncodeAll(m.children);
  }

  lemma {:induction false} DecodeEncodeAll(ms: seq<Message>)
    ensures FromDictAll(ToDictAll(ms)) == Ok(ms)
    decreases ms
  {
    if ms != [] {
      DecodeEncode(ms[0]);
      DecodeEncodeAll(ms[1..]);
      assert ToDictAll(ms)[1..] == ToDictAll(ms[1..]);
      assert [ms[0]] + ms[1..] == ms;
    }
  }

  /** from_json(to_json(h)) has the same root messages as h. */
  lemma DecodeEncodeHistory(roots: seq<Message>)
    ensures DecodeHistory(EncodeHistory(roots)) == Ok(roots)
  {
    DecodeEncodeAll(roots);
  }

  /** A message dict without 'children' decodes to a message without replies. */
  lemma ChildrenDefaultEmpty(role: string, content: string)
    ensures FromDict(JObj([Field("role", JStr(role)), Field("content", JStr(content))])) == Ok(Leaf(role, content))
  {
    var fields := [Field("role", JStr(role)), Field("content", JStr(content))];
    assert Find(fields, "children") == None;
    assert Find(fields, "content") == Some(1);
    assert Find(fields, "role") == Some(0);
  }

  /** Only a dict with a 'role' and a 'content' decodes; the first missing key is reported. */
  lemma DecodeNeedsKeys(data: Json)
    ensures !data.JObj? ==> FromDict(data).Err? && FromDict(data).error.TypeError?
    ensures data.JObj? && Find(data.fields, "role").None? ==> FromDict(data) == Err(KeyError("role"))
    ensures (data.JObj? && TextField(data.fields, "role").Ok? && Find(data.fields, "content").None?) ==>
              FromDict(data) == Err(KeyError("content"))
  {
  }

  /**
   * Looking up another key in a dict with one more field: the same binding is found, its
   * index shifted past the inserted field when it lies after it.
   */
  lemma {:induction false} FindSkip(a: seq<Field>, extra: Field, b: seq<Field>, key: string)
    requires extra.key != key
    ensures Find(a + [extra] + b, key).Some? <==> Find(a + b, key).Some?
    ensures Find(a + b, key).Some? ==>
      var i := Find(a + b, key).value;
      Find(a + [extra] + b, key) == Some(if i < |a| then i else i + 1)
    decreases |b|
  {
    if b == [] {
      assert Find(a + [extra] + b, key) == Find(a, key) by {
        assert a + [extra] + b == a + [extra] && (a + [extra])[..|a|] == a;
      }
      assert a + b == a;
    } else {
      var b', last := b[..|b| - 1], b[|b| - 1];
      var all', rest' := a + [extra] + b', a + b';
      if last.key == key {
        assert Find(a + [extra] + b, key) == Some(|all'|) by {
          assert a + [extra] + b == all' + [last];
        }
        assert Find(a + b, key) == Some(|rest'|) by {
          assert a + b == rest' + [last];
        }
      } else {
        assert Find(a + [extra] + b, key) == Find(all', key) by {
          assert a + [extra] + b == all' + [last] && (all' + [last])[..|all'|] == all';
        }
        assert Find(a + b, key) == Find(rest', key) by {
          assert a + b == rest' + [last] && (rest' + [last])[..|rest'|] == rest';
        }
        FindSkip(a, extra, b', key);
      }
    }
  }

  /** So a lookup of another key sees the same field with or without the extra one. */
  lemma FieldSkip(a: seq<Field>, extra: Field, b: seq<Field>, key: string)
    requires extra.key != key
    ensures Find(a + [extra] + b, key).Some? <==> Find(a + b, key).Some?
    ensures Find(a + b, key).Some? ==>
      (a + [extra] + b)[Find(a + [extra] + b, key).value] == (a + b)[Find(a + b, key).value]
  {
    FindSkip(a, extra, b, key);
    if Find(a + b, key).Some? {
      var i := Find(a + b, key).value;
      if i < |a| {
        assert (a + [extra] + b)[i] == a[i] == (a + b)[i];
      } else {
        assert (a + [extra] + b)[i + 1] == b[i - |a|] == (a + b)[i];
      }
    }
  }

  /**
   * Fields other than role, content and children are ignored wherever they stand in the dict
   * (the decoder is lenient).
   */
  lemma ExtraFieldIgnored(a: seq<Field>, extra: Field, b: seq<Field>)
    requires extra.key != "role" && extra.key != "content" && extra.key != "children"
    ensures FromDict(JObj(a + [extra] + b)) == FromDict(JObj(a + b))
  {
    FieldSkip(a, extra, b, "role");
    FieldSkip(a, extra, b, "content");
    FieldSkip(a, extra, b, "children");
  }
}
