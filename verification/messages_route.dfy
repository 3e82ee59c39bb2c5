/**
 * The `/api/messages` routes: the history of one chat key in ascending
 * timestamp order, and append-only creation.
 */
module MessagesRoute {
  import Seqs

  datatype MessageRow = MessageRow(id: nat, chatKey: string, text: string, sender: string,
                                   senderName: string, timestamp: int)

  function TimestampOf(m: MessageRow): int { m.timestamp }

  function InChat(chatKey: string): MessageRow -> bool {
    (m: MessageRow) => m.chatKey == chatKey
  }

  /** The history query: the rows of one chat key, oldest first. */
  function History(rows: seq<MessageRow>, chatKey: string): (r: seq<MessageRow>)
    ensures forall m :: multiset(r)[m] == if m.chatKey == chatKey then multiset(rows)[m] else 0
    ensures forall i, j :: 0 <= i < j < |r| ==> r[i].timestamp <= r[j].timestamp
  {
    Seqs.FilterCount(rows, InChat(chatKey));
    var sorted := Seqs.SortBy(Seqs.Filter(rows, InChat(chatKey)), TimestampOf);
    assert forall i, j :: 0 <= i < j < |sorted| ==> TimestampOf(sorted[i]) <= TimestampOf(sorted[j]);
    sorted
  }

  /** Appending a message to one chat leaves the history of every other chat as it was. */
  lemma OtherHistoriesUnchanged(rows: seq<MessageRow>, m: MessageRow, chatKey: string)
    requires m.chatKey != chatKey
    ensures History(rows + [m], chatKey) == History(rows, chatKey)
  {
    var f := InChat(chatKey);
    Seqs.FilterAppend(rows, [m], f);
    assert Seqs.Filter([m], f) == [] by {
      assert !f(m);
      assert [m][1..] == [];
    }
    assert Seqs.Filter(rows + [m], f) == Seqs.Filter(rows, f);
  }

  /** Appending a message to a chat adds it to that chat's history and nothing else. */
  lemma OwnHistoryGrows(rows: seq<MessageRow>, m: MessageRow)
    ensures multiset(History(rows + [m], m.chatKey)) == multiset(History(rows, m.chatKey)) + multiset{m}
  {
    var f := InChat(m.chatKey);
    Seqs.FilterAppend(rows, [m], f);
    assert Seqs.Filter([m], f) == [m];
  }

  /** The messages table with its SERIAL id counter. */
  class MessagesTable {
    var rows: seq<MessageRow>
    var nextId: nat

    ghost predicate Valid()
      reads this
    {
      forall i :: 0 <= i < |rows| ==> rows[i].id < nextId
    }

    constructor()
      ensures Valid() && rows == [] && nextId == 1
    {
      rows := [];
      nextId := 1;
    }

    /** `GET /:chatKey`: the rows of that chat with their multiplicity, oldest first. */
    function ForChat(chatKey: string): (r: seq<MessageRow>)
      reads this
      ensures forall m :: multiset(r)[m] == if m.chatKey == chatKey then multiset(rows)[m] else 0
      ensures forall i, j :: 0 <= i < j < |r| ==> r[i].timestamp <= r[j].timestamp
      ensures r == History(rows, chatKey)
    {
      History(rows, chatKey)
    }

    /** `POST /`: insert a row stamped with the current time and answer it. */
    method Create(chatKey: string, text: string, sender: string, senderName: string, now: int)
      returns (message: MessageRow)
      requires Valid()
      modifies this
      ensures Valid()
      ensures message == MessageRow(old(nextId), chatKey, text, sender, senderName, now)
      ensures rows == old(rows) + [message] && nextId == old(nextId) + 1
    {
      message := MessageRow(nextId, chatKey, text, sender, senderName, now);
      rows := rows + [message];
      nextId := nextId + 1;
    }
  }
}
