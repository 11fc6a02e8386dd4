/**
 * Conversation messages and the `add_messages` merge the state uses for its
 * transcript: a message whose id is already in the transcript replaces that entry
 * in place, any other message is appended. Every message carries its id (an id the
 * merge would otherwise draw at random is given by the caller).
 */
module Messages {

  datatype Role = Human | AI | System | Tool

  /** `msg.type`. */
  function TypeName(r: Role): string
  {
    match r
    case Human => "human"
    case AI => "ai"
    case System => "system"
    case Tool => "tool"
  }

  datatype Message = Message(id: string, role: Role, content: string)

  function Ids(l: seq<Message>): set<string>
  {
    set i | 0 <= i < |l| :: l[i].id
  }

  predicate UniqueIds(l: seq<Message>)
  {
    forall i, j :: 0 <= i < j < |l| ==> l[i].id != l[j].id
  }

  /**
   * The position of the first entry with id `id`, or `|l|` when there is none. The
   * library's own index maps a repeated id to its last entry; the two agree whenever
   * ids are unique, which every merge keeps (`AddMessagesKeepsUnique`).
   */
  function IndexOfId(l: seq<Message>, id: string): (k: nat)
    ensures k <= |l|
    ensures k < |l| ==> l[k].id == id
    ensures k == |l| ==> id !in Ids(l)
  {
    if l == [] then 0
    else if l[0].id == id then 0
    else
      var k := 1 + IndexOfId(l[1..], id);
      assert k == |l| ==> forall i :: 0 <= i < |l| ==> l[i].id != id by {
        if k == |l| {
          forall i | 0 <= i < |l| ensures l[i].id != id {
            if i > 0 { assert l[1..][i - 1] == l[i]; }
          }
        }
      }
      k
  }

  /** Merging one message into the transcript. */
  function AddOne(l: seq<Message>, m: Message): seq<Message>
  {
    var k := IndexOfId(l, m.id);
    if k < |l| then l[k := m] else l + [m]
  }

  /**
   * `add_messages(left, right)`: the transcript after merging `right` into `left`.
   * It never shrinks, holds exactly the ids of both sides, and keeps every entry of
   * `left` whose id `right` does not mention where it was.
   */
  function AddMessages(left: seq<Message>, right: seq<Message>): (r: seq<Message>)
    ensures |r| >= |left|
    ensures Ids(r) == Ids(left) + Ids(right)
    ensures forall i :: 0 <= i < |left| && left[i].id !in Ids(right) ==> r[i] == left[i]
    decreases |right|
  {
    if right == [] then left
    else
      var next := AddOne(left, right[0]);
      assert Ids(next) == Ids(left) + {right[0].id} by {
        var k := IndexOfId(left, right[0].id);
        if k < |left| {
          forall x | x in Ids(left) ensures x in Ids(next) {
            var i :| 0 <= i < |left| && left[i].id == x;
            assert next[i].id == x;
          }
        } else {
          forall x | x in Ids(left) ensures x in Ids(next) {
            var i :| 0 <= i < |left| && left[i].id == x;
            assert next[i].id == x;
          }
          assert next[|left|].id == right[0].id;
        }
      }
      assert Ids(right) == {right[0].id} + Ids(right[1..]) by {
        forall x | x in Ids(right) ensures x in {right[0].id} + Ids(right[1..]) {
          var i :| 0 <= i < |right| && right[i].id == x;
          if i > 0 { assert right[1..][i - 1] == right[i]; }
        }
        forall x | x in Ids(right[1..]) ensures x in Ids(right) {
          var i :| 0 <= i < |right[1..]| && right[1..][i].id == x;
          assert right[i + 1].id == x;
        }
      }
      AddMessages(next, right[1..])
  }

  /** A message with a new id lands after the existing transcript. */
  lemma AppendsFresh(l: seq<Message>, m: Message)
    requires m.id !in Ids(l)
    ensures AddMessages(l, [m]) == l + [m]
  {
    assert [m][1..] == [];
  }

  lemma {:induction false} AddOneKeepsUnique(l: seq<Message>, m: Message)
    requires UniqueIds(l)
    ensures UniqueIds(AddOne(l, m))
  {
    var k := IndexOfId(l, m.id);
    if k == |l| {
      var r := l + [m];
      forall i, j | 0 <= i < j < |r| ensures r[i].id != r[j].id {
        if j == |l| { assert r[i].id in Ids(l); }
      }
    }
  }

  /** Merging keeps the ids of the transcript unique. */
  lemma {:induction false} AddMessagesKeepsUnique(l: seq<Message>, r: seq<Message>)
    requires UniqueIds(l)
    ensures UniqueIds(AddMessages(l, r))
    decreases |r|
  {
    if r != [] {
      AddOneKeepsUnique(l, r[0]);
      AddMessagesKeepsUnique(AddOne(l, r[0]), r[1..]);
    }
  }

  lemma {:induction false} AddMessagesSuffix(l: seq<Message>, k: nat)
    requires UniqueIds(l)
    requires k <= |l|
    ensures AddMessages(l, l[k..]) == l
    decreases |l| - k
  {
    if k < |l| {
      var rest := l[k..];
      assert rest[0] == l[k] && rest[1..] == l[k + 1..];
      AddMessagesCons(l, rest);
      AddOneExisting(l, k);
      AddMessagesSuffix(l, k + 1);
    }
  }

  /** One step of the merge: the first message of `right` goes in first. */
  lemma AddMessagesCons(l: seq<Message>, right: seq<Message>)
    requires right != []
    ensures AddMessages(l, right) == AddMessages(AddOne(l, right[0]), right[1..])
  {
  }

  /** Merging a message that is already in a transcript with unique ids changes nothing. */
  lemma AddOneExisting(l: seq<Message>, k: nat)
    requires UniqueIds(l) && k < |l|
    ensures AddOne(l, l[k]) == l
  {
    var m := l[k];
    assert m.id in Ids(l);
    var j := IndexOfId(l, m.id);
    assert j == k;
    assert l[k := m] == l;
  }

  /**
   * Merging a transcript into itself changes nothing: a step that returns the whole
   * state it was given does not duplicate the conversation.
   */
  lemma AddMessagesSelf(l: seq<Message>)
    requires UniqueIds(l)
    ensures AddMessages(l, l) == l
  {
    AddMessagesSuffix(l, 0);
    assert l[0..] == l;
  }
}
