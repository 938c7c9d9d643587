/**
 * The whole-list transforms both consoles apply to the message list:
 * find-then-append (`prev.find` / spread), `prev.map` for delta and done
 * events, and `prev.filter` for deletions.
 */
module Transcript {
  import opened Common
  import opened RealtimeEvents

  /** The ids of a message list, in list order. */
  function Ids(msgs: seq<Message>): (ids: seq<string>)
    ensures |ids| == |msgs|
    ensures forall i :: 0 <= i < |msgs| ==> ids[i] == msgs[i].id
  {
    if msgs == [] then [] else [msgs[0].id] + Ids(msgs[1..])
  }

  /** No id occurs twice. */
  ghost predicate UniqueIds(msgs: seq<Message>)
  {
    forall i, j :: 0 <= i < j < |msgs| ==> msgs[i].id != msgs[j].id
  }

  /** `prev.find(m => m.id === id)` is defined. */
  function HasId(msgs: seq<Message>, id: string): (b: bool)
    ensures b <==> exists i :: 0 <= i < |msgs| && msgs[i].id == id
  {
    if msgs == [] then false else msgs[0].id == id || HasId(msgs[1..], id)
  }

  /** Append `m` unless a message with its id is already present. */
  function InsertIfUnseen(msgs: seq<Message>, m: Message): (r: seq<Message>)
    ensures !HasId(msgs, m.id) ==> r == msgs + [m]
    ensures HasId(msgs, m.id) ==> r == msgs
  {
    if HasId(msgs, m.id) then msgs else msgs + [m]
  }

  /** `prev.map(m => m.id === id ? {...m, text: m.text + delta} : m)`. */
  function AppendDelta(msgs: seq<Message>, id: string, delta: string): (r: seq<Message>)
    ensures |r| == |msgs|
    ensures forall i :: 0 <= i < |msgs| ==> r[i].id == msgs[i].id && r[i].role == msgs[i].role
    ensures forall i :: 0 <= i < |msgs| && msgs[i].id == id ==> r[i].text == msgs[i].text + delta
    ensures forall i :: 0 <= i < |msgs| && msgs[i].id != id ==> r[i] == msgs[i]
  {
    if msgs == [] then []
    else
      var head := if msgs[0].id == id then msgs[0].(text := msgs[0].text + delta) else msgs[0];
      [head] + AppendDelta(msgs[1..], id, delta)
  }

  /** `prev.map(m => m.id === id ? {...m, text} : m)`. */
  function ReplaceText(msgs: seq<Message>, id: string, text: string): (r: seq<Message>)
    ensures |r| == |msgs|
    ensures forall i :: 0 <= i < |msgs| ==> r[i].id == msgs[i].id && r[i].role == msgs[i].role
    ensures forall i :: 0 <= i < |msgs| && msgs[i].id == id ==> r[i].text == text
    ensures forall i :: 0 <= i < |msgs| && msgs[i].id != id ==> r[i] == msgs[i]
  {
    if msgs == [] then []
    else
      var head := if msgs[0].id == id then msgs[0].(text := text) else msgs[0];
      [head] + ReplaceText(msgs[1..], id, text)
  }

  /** `prev.filter(m => m.id !== id)`. */
  function Remove(msgs: seq<Message>, id: string): (r: seq<Message>)
    ensures |r| <= |msgs|
    ensures forall i :: 0 <= i < |r| ==> r[i].id != id
    ensures forall m :: m in r <==> m in msgs && m.id != id
  {
    if msgs == [] then []
    else if msgs[0].id == id then Remove(msgs[1..], id)
    else [msgs[0]] + Remove(msgs[1..], id)
  }

  /** Deleting keeps the remaining messages in their original order. */
  lemma {:induction false} RemoveKeepsOrder(msgs: seq<Message>, id: string)
    ensures IsSubsequence(Remove(msgs, id), msgs)
  {
    if msgs != [] {
      RemoveKeepsOrder(msgs[1..], id);
      if msgs[0].id != id {
        assert Remove(msgs, id)[1..] == Remove(msgs[1..], id);
      }
    }
  }

  /** Removing an absent id changes nothing. */
  lemma {:induction false} RemoveAbsent(msgs: seq<Message>, id: string)
    requires !HasId(msgs, id)
    ensures Remove(msgs, id) == msgs
  {
    if msgs != [] {
      RemoveAbsent(msgs[1..], id);
      assert msgs == [msgs[0]] + msgs[1..];
    }
  }

  /** With unique ids, deleting a present id removes exactly one message. */
  lemma {:induction false} RemovePresentUnique(msgs: seq<Message>, id: string)
    requires UniqueIds(msgs)
    requires HasId(msgs, id)
    ensures |Remove(msgs, id)| == |msgs| - 1
  {
    if msgs[0].id == id {
      RemoveAbsent(msgs[1..], id);
    } else {
      assert HasId(msgs[1..], id) by {
        var i :| 0 <= i < |msgs| && msgs[i].id == id;
        assert msgs[1..][i - 1].id == id;
      }
      RemovePresentUnique(msgs[1..], id);
    }
  }

  /** Every transform keeps ids unique. */
  lemma InsertKeepsUnique(msgs: seq<Message>, m: Message)
    requires UniqueIds(msgs)
    ensures UniqueIds(InsertIfUnseen(msgs, m))
  {
  }

  lemma MapsKeepUnique(msgs: seq<Message>, id: string, s: string)
    requires UniqueIds(msgs)
    ensures UniqueIds(AppendDelta(msgs, id, s))
    ensures UniqueIds(ReplaceText(msgs, id, s))
  {
  }

  lemma {:induction false} RemoveKeepsUnique(msgs: seq<Message>, id: string)
    requires UniqueIds(msgs)
    ensures UniqueIds(Remove(msgs, id))
  {
    if msgs != [] {
      RemoveKeepsUnique(msgs[1..], id);
      if msgs[0].id != id {
        var r := Remove(msgs, id);
        forall i, j | 0 <= i < j < |r| ensures r[i].id != r[j].id {
          if i == 0 {
            assert r[j] in Remove(msgs[1..], id);
            var k :| 0 <= k < |msgs[1..]| && msgs[1..][k] == r[j];
            assert msgs[k + 1] == r[j];
          }
        }
      }
    }
  }

  /** A delta or done event for an id no message has leaves the list unchanged. */
  lemma {:induction false} MapsUnknownIdUnchanged(msgs: seq<Message>, id: string, s: string)
    requires !HasId(msgs, id)
    ensures AppendDelta(msgs, id, s) == msgs
    ensures ReplaceText(msgs, id, s) == msgs
  {
    if msgs != [] {
      MapsUnknownIdUnchanged(msgs[1..], id, s);
      assert msgs == [msgs[0]] + msgs[1..];
    }
  }

  /** Delta and done transforms never change the order of ids. */
  lemma MapsKeepIds(msgs: seq<Message>, id: string, s: string)
    ensures Ids(AppendDelta(msgs, id, s)) == Ids(msgs)
    ensures Ids(ReplaceText(msgs, id, s)) == Ids(msgs)
  {
  }

  /** The concatenation of a list of text fragments, in order. */
  function Concat(parts: seq<string>): (r: string)
    ensures parts == [] ==> r == ""
  {
    if parts == [] then "" else parts[0] + Concat(parts[1..])
  }

  /** Applying deltas for `id` one after the other, in receipt order. */
  function AppendAll(msgs: seq<Message>, id: string, deltas: seq<string>): seq<Message>
    decreases |deltas|
  {
    if deltas == [] then msgs else AppendAll(AppendDelta(msgs, id, deltas[0]), id, deltas[1..])
  }

  /** N deltas for one id leave the matching message with its text followed by
      the concatenation of the deltas, and every other message untouched. */
  lemma {:induction false} AppendAllAt(msgs: seq<Message>, id: string, deltas: seq<string>, i: int)
    requires 0 <= i < |msgs|
    ensures |AppendAll(msgs, id, deltas)| == |msgs|
    ensures AppendAll(msgs, id, deltas)[i] ==
      if msgs[i].id == id then msgs[i].(text := msgs[i].text + Concat(deltas)) else msgs[i]
    decreases |deltas|
  {
    if deltas != [] {
      var next := AppendDelta(msgs, id, deltas[0]);
      AppendAllAt(next, id, deltas[1..], i);
      if msgs[i].id == id {
        assert next[i].text + Concat(deltas[1..]) == msgs[i].text + Concat(deltas);
      }
    }
  }

  /** The same, for the whole list: length and id order are kept. */
  lemma AppendAllConcatenates(msgs: seq<Message>, id: string, deltas: seq<string>)
    ensures |AppendAll(msgs, id, deltas)| == |msgs|
    ensures Ids(AppendAll(msgs, id, deltas)) == Ids(msgs)
    ensures forall i :: 0 <= i < |msgs| && msgs[i].id == id ==>
      AppendAll(msgs, id, deltas)[i] == msgs[i].(text := msgs[i].text + Concat(deltas))
    ensures forall i :: 0 <= i < |msgs| && msgs[i].id != id ==>
      AppendAll(msgs, id, deltas)[i] == msgs[i]
  {
    if msgs == [] {
      AppendAllAtEmpty(id, deltas);
    }
    forall i | 0 <= i < |msgs|
      ensures |AppendAll(msgs, id, deltas)| == |msgs|
      ensures AppendAll(msgs, id, deltas)[i] ==
        if msgs[i].id == id then msgs[i].(text := msgs[i].text + Concat(deltas)) else msgs[i]
    {
      AppendAllAt(msgs, id, deltas, i);
    }
    assert Ids(AppendAll(msgs, id, deltas)) == Ids(msgs);
  }

  lemma {:induction false} AppendAllAtEmpty(id: string, deltas: seq<string>)
    ensures AppendAll([], id, deltas) == []
    decreases |deltas|
  {
    if deltas != [] {
      AppendAllAtEmpty(id, deltas[1..]);
    }
  }

  /** A done event wins over any earlier deltas: whatever was appended, the final text is the done payload. */
  lemma DoneWins(msgs: seq<Message>, id: string, deltas: seq<string>, final: string)
    ensures |ReplaceText(AppendAll(msgs, id, deltas), id, final)| == |msgs|
    ensures forall i :: 0 <= i < |msgs| && msgs[i].id == id ==>
      ReplaceText(AppendAll(msgs, id, deltas), id, final)[i] == msgs[i].(text := final)
  {
    AppendAllConcatenates(msgs, id, deltas);
  }
}
