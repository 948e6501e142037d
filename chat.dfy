/** The chat page: sending a message (the user's text and a fixed reply), persisting messages
    to the chat-history table, loading a project's history, and accepting dropped images. */
module Chat {
  import opened JsValues

  datatype Sender = User | Ai

  /** A message of the conversation; `id` is the stored row's id once the insert returned it. */
  datatype Message = Message(id: Option<string>, sender: Sender, text: string, image: Option<string>)

  /** A row of the chat-history table as the page writes it. */
  datatype ChatRow = ChatRow(userId: string, projectId: string, message: string, role: Sender, image: Option<string>)

  /** A stored row as the history query reads it: the store adds an id and a creation time. */
  datatype StoredRow = StoredRow(id: string, row: ChatRow, createdAt: int)

  /** How one insert into the chat-history table ends: stored (with the new row's id), refused
      with an error result, or thrown. */
  datatype InsertOutcome = Inserted(rowId: string) | InsertFailed | InsertThrew

  /** A file dropped onto the conversation, by its MIME type. */
  datatype DroppedFile = DroppedFile(mimeType: string)

  /** The fixed reply appended after every user message. */
  const AiReply := "I've received your message. How can I assist you further?"

  /** The row written for message `m`: its text, its sender as role, and its image or null. */
  function RowOf(userId: string, projectId: string, m: Message): ChatRow {
    ChatRow(userId, projectId, m.text, m.sender, OrAbsent(m.image))
  }

  /** The row an `addMessage` insert stores: one row when it succeeds, none otherwise. */
  function InsertedRows(userId: string, projectId: string, outcome: InsertOutcome, m: Message): (r: seq<ChatRow>)
    ensures |r| <= 1
    ensures r != [] <==> outcome.Inserted?
  {
    if outcome.Inserted? then [RowOf(userId, projectId, m)] else []
  }

  /** The id `addMessage` gives its message: the stored row's id when the message is stored and
      the insert returns a row, none otherwise. */
  function AssignedId(persists: bool, outcome: InsertOutcome): (r: Option<string>)
    ensures r.Some? <==> persists && outcome.Inserted?
    ensures r.Some? ==> r.value == outcome.rowId
  {
    if persists && outcome.Inserted? then Some(outcome.rowId) else None
  }

  /** The rows `saveThread`'s loop stores: one per message in list order whose insert succeeds,
      skipping refused inserts and stopping at the first insert that throws. */
  function SavedRows(userId: string, projectId: string, thread: seq<Message>, outcomes: seq<InsertOutcome>): (r: seq<ChatRow>)
    requires |outcomes| == |thread|
    ensures |r| <= |thread|
  {
    if thread == [] then []
    else
      match outcomes[0]
      case InsertThrew => []
      case InsertFailed => SavedRows(userId, projectId, thread[1..], outcomes[1..])
      case Inserted(_) => [RowOf(userId, projectId, thread[0])] + SavedRows(userId, projectId, thread[1..], outcomes[1..])
  }

  /** One step of `saveThread`'s loop, at position `i`. */
  lemma SavedRowsStep(userId: string, projectId: string, thread: seq<Message>, outcomes: seq<InsertOutcome>, i: nat)
    requires |outcomes| == |thread| && i < |thread|
    ensures SavedRows(userId, projectId, thread[i..], outcomes[i..]) ==
      match outcomes[i]
      case InsertThrew => []
      case InsertFailed => SavedRows(userId, projectId, thread[i + 1..], outcomes[i + 1..])
      case Inserted(_) => [RowOf(userId, projectId, thread[i])] + SavedRows(userId, projectId, thread[i + 1..], outcomes[i + 1..])
  {
    assert thread[i..][1..] == thread[i + 1..] && outcomes[i..][1..] == outcomes[i + 1..];
  }

  /** Every row `saveThread` stores is the row of one of the thread's messages. */
  lemma {:induction false} SavedRowsComeFromThread(userId: string, projectId: string, thread: seq<Message>, outcomes: seq<InsertOutcome>)
    requires |outcomes| == |thread|
    ensures forall row :: row in SavedRows(userId, projectId, thread, outcomes) ==>
              exists m :: m in thread && row == RowOf(userId, projectId, m)
  {
    if thread != [] {
      SavedRowsComeFromThread(userId, projectId, thread[1..], outcomes[1..]);
      assert forall m :: m in thread[1..] ==> m in thread;
    }
  }

  /** When every insert succeeds, `saveThread` stores exactly one row per message, in order. */
  lemma {:induction false} SavedRowsAllInserted(userId: string, projectId: string, thread: seq<Message>, outcomes: seq<InsertOutcome>)
    requires |outcomes| == |thread|
    requires forall i :: 0 <= i < |outcomes| ==> outcomes[i].Inserted?
    ensures var r := SavedRows(userId, projectId, thread, outcomes);
            |r| == |thread| && forall i :: 0 <= i < |thread| ==> r[i] == RowOf(userId, projectId, thread[i])
  {
    if thread != [] {
      SavedRowsAllInserted(userId, projectId, thread[1..], outcomes[1..]);
    }
  }

  /** A refused insert does not stop the loop: with no throw in the first part, the rows of a
      concatenated thread are the rows of each part. */
  lemma {:induction false} SavedRowsAppend(userId: string, projectId: string,
                                           a: seq<Message>, oa: seq<InsertOutcome>,
                                           b: seq<Message>, ob: seq<InsertOutcome>)
    requires |oa| == |a| && |ob| == |b|
    requires forall i :: 0 <= i < |oa| ==> !oa[i].InsertThrew?
    ensures SavedRows(userId, projectId, a + b, oa + ob)
         == SavedRows(userId, projectId, a, oa) + SavedRows(userId, projectId, b, ob)
  {
    if a == [] {
      assert a + b == b && oa + ob == ob;
    } else {
      assert (a + b)[1..] == a[1..] + b && (oa + ob)[1..] == oa[1..] + ob;
      assert (oa + ob)[0] == oa[0];
      SavedRowsAppend(userId, projectId, a[1..], oa[1..], b, ob);
    }
  }

  /** The two messages `handleSend` hands to `saveThread`: the user's text and the reply, both
      without an image. */
  function Thread(userMessage: string): seq<Message> {
    [Message(None, User, userMessage, None), Message(None, Ai, AiReply, None)]
  }

  /** A send whose inserts all succeed writes four rows: the user message (with its image) and
      the reply through `addMessage`, then both again, without an image, through `saveThread`. */
  lemma FourRowsPerSend(userId: string, projectId: string, text: string, image: Option<string>,
                        o1: InsertOutcome, o2: InsertOutcome, thread: seq<InsertOutcome>)
    requires o1.Inserted? && o2.Inserted? && |thread| == 2 && thread[0].Inserted? && thread[1].Inserted?
    ensures InsertedRows(userId, projectId, o1, Message(None, User, text, image))
          + InsertedRows(userId, projectId, o2, Message(None, Ai, AiReply, None))
          + SavedRows(userId, projectId, Thread(text), thread)
         == [ChatRow(userId, projectId, text, User, OrAbsent(image)),
             ChatRow(userId, projectId, AiReply, Ai, None),
             ChatRow(userId, projectId, text, User, None),
             ChatRow(userId, projectId, AiReply, Ai, None)]
  {
    SavedRowsAllInserted(userId, projectId, Thread(text), thread);
  }

  /** The send guard: the trimmed input is non-empty or an image is pending. */
  predicate CanSend(input: string, pendingImage: Option<string>) {
    Truthy(Trim(input)) || TruthyOpt(pendingImage)
  }

  /** Only whitespace and no image: nothing is sent. */
  lemma BlankInputCannotSend(input: string, pendingImage: Option<string>)
    requires AllWhitespace(input) && !TruthyOpt(pendingImage)
    ensures !CanSend(input, pendingImage)
  {
    TrimEmptyIff(input);
  }

  /** Rows of `table` that belong to the user and the project. */
  function Matching(table: seq<StoredRow>, userId: string, projectId: string): (r: seq<StoredRow>)
    ensures forall s :: s in r <==> s in table && s.row.userId == userId && s.row.projectId == projectId
  {
    if table == [] then []
    else
      (if table[0].row.userId == userId && table[0].row.projectId == projectId then [table[0]] else [])
      + Matching(table[1..], userId, projectId)
  }

  predicate SortedByCreation(s: seq<StoredRow>) {
    forall i, j :: 0 <= i < j < |s| ==> s[i].createdAt <= s[j].createdAt
  }

  /** `r` placed into `s` before the first row created later than it. */
  function InsertByCreation(r: StoredRow, s: seq<StoredRow>): (t: seq<StoredRow>)
    ensures multiset(t) == multiset(s) + multiset{r}
  {
    if s == [] || r.createdAt <= s[0].createdAt then
      [r] + s
    else
      var t := [s[0]] + InsertByCreation(r, s[1..]);
      assert s == [s[0]] + s[1..];
      t
  }

  /** Inserting into an ordered list keeps it ordered, and every row of the result is created
      no earlier than the smaller of `r` and the list's first row. */
  lemma {:induction false} InsertKeepsOrder(r: StoredRow, s: seq<StoredRow>)
    requires SortedByCreation(s)
    ensures SortedByCreation(InsertByCreation(r, s))
    ensures forall x :: x in InsertByCreation(r, s) ==> x == r || x in s
  {
    var t := InsertByCreation(r, s);
    if s == [] || r.createdAt <= s[0].createdAt {
      assert forall j :: 1 <= j < |t| ==> t[j] == s[j - 1];
    } else {
      var tail := InsertByCreation(r, s[1..]);
      assert SortedByCreation(s[1..]) by {
        forall i, j | 0 <= i < j < |s[1..]| ensures s[1..][i].createdAt <= s[1..][j].createdAt {
          assert s[1..][i] == s[i + 1] && s[1..][j] == s[j + 1];
        }
      }
      InsertKeepsOrder(r, s[1..]);
      forall x | x in tail ensures s[0].createdAt <= x.createdAt {
        if x != r {
          var j :| 0 <= j < |s[1..]| && s[1..][j] == x;
          assert s[j + 1] == x;
        }
      }
      assert t == [s[0]] + tail;
      forall i, j | 0 <= i < j < |t| ensures t[i].createdAt <= t[j].createdAt {
        if i == 0 {
          assert t[j] == tail[j - 1] && t[j] in tail;
        } else {
          assert t[i] == tail[i - 1] && t[j] == tail[j - 1];
        }
      }
      forall x | x in t ensures x == r || x in s {
        if x != s[0] {
          assert x in tail;
          assert forall y :: y in s[1..] ==> y in s;
        }
      }
    }
  }

  /** Ordering by creation time, ascending. */
  function SortByCreation(s: seq<StoredRow>): (t: seq<StoredRow>)
    ensures multiset(t) == multiset(s)
    ensures SortedByCreation(t)
  {
    if s == [] then []
    else
      assert s == [s[0]] + s[1..];
      var t := SortByCreation(s[1..]);
      InsertKeepsOrder(s[0], t);
      InsertByCreation(s[0], t)
  }

  /** The history query: the user's rows of the project, oldest first. (The order among rows
      created at the same instant is the store's; this definition keeps table order.) */
  function HistoryQuery(table: seq<StoredRow>, userId: string, projectId: string): (r: seq<StoredRow>)
    ensures SortedByCreation(r)
    ensures multiset(r) == multiset(Matching(table, userId, projectId))
  {
    SortByCreation(Matching(table, userId, projectId))
  }

  /** The loaded history as messages: role becomes sender, and a null or empty image none. */
  function HistoryMessages(history: seq<StoredRow>): (r: seq<Message>)
    ensures |r| == |history|
    ensures forall i :: 0 <= i < |history| ==>
      r[i] == Message(Some(history[i].id), history[i].row.role, history[i].row.message, OrAbsent(history[i].row.image))
  {
    seq(|history|, i requires 0 <= i < |history| =>
      Message(Some(history[i].id), history[i].row.role, history[i].row.message, OrAbsent(history[i].row.image)))
  }

  /** Every loaded message is a row of this user and project, and the messages come oldest first. */
  lemma LoadedHistoryIsTheUsersProjectRows(table: seq<StoredRow>, userId: string, projectId: string)
    ensures var h := HistoryQuery(table, userId, projectId);
            && SortedByCreation(h)
            && forall i :: 0 <= i < |h| ==>
                 h[i] in table && h[i].row.userId == userId && h[i].row.projectId == projectId
                 && HistoryMessages(h)[i].id == Some(h[i].id)
    ensures |HistoryQuery(table, userId, projectId)| == |Matching(table, userId, projectId)|
  {
    var h := HistoryQuery(table, userId, projectId);
    var m := Matching(table, userId, projectId);
    forall i | 0 <= i < |h|
      ensures h[i] in table && h[i].row.userId == userId && h[i].row.projectId == projectId
    {
      assert h[i] in multiset(h);
      assert h[i] in m;
    }
    assert |multiset(h)| == |multiset(m)|;
  }

  /** The drop handler's filter: the first dropped file, when it is an image. */
  predicate AcceptsDrop(files: seq<DroppedFile>) {
    files != [] && StartsWith(files[0].mimeType, "image/")
  }

  /** The chat page's state; `rows` is the chat-history table's rows written from this page. */
  class ChatPage {
    var messages: seq<Message>
    var input: string
    var pendingImage: Option<string>
    var projectName: string
    var projectId: Option<string>
    ghost var rows: seq<ChatRow>

    constructor ()
      ensures messages == [] && input == "" && pendingImage == None
      ensures projectName == "AI Chat" && projectId == None && rows == []
    {
      messages, input, pendingImage := [], "", None;
      projectName, projectId := "AI Chat", None;
      rows := [];
    }

    /** Messages are stored when a project is open and a user is signed in. */
    predicate Persists(user: Option<string>)
      reads this
    {
      TruthyOpt(projectId) && user.Some?
    }

    /** `addMessage`: the message is appended at once; when it is stored, the stored row's id is
        written into it; an insert that throws makes the call throw (`threw`). */
    method AddMessage(sender: Sender, text: string, image: Option<string>, user: Option<string>, outcome: InsertOutcome)
      returns (threw: bool)
      modifies this
      ensures projectName == old(projectName) && projectId == old(projectId)
      ensures threw == (old(Persists(user)) && outcome.InsertThrew?)
      ensures |messages| == |old(messages)| + 1 && messages[..|old(messages)|] == old(messages)
      ensures messages[|old(messages)|] == Message(AssignedId(old(Persists(user)), outcome), sender, text, image)
      ensures rows == old(rows) +
        (if old(Persists(user)) then InsertedRows(user.value, projectId.value, outcome, Message(None, sender, text, image)) else [])
      ensures input == old(input) && pendingImage == old(pendingImage)
    {
      var newMessage := Message(None, sender, text, image);
      messages := messages + [newMessage];
      threw := false;
      if TruthyOpt(projectId) && user.Some? {
        match outcome
        case Inserted(rowId) =>
          rows := rows + [RowOf(user.value, projectId.value, newMessage)];
          messages := messages[|messages| - 1 := newMessage.(id := Some(rowId))];
        case InsertFailed =>
        case InsertThrew =>
          threw := true;
      }
    }

    /** `saveThread`: nothing without a project or a user; otherwise one insert per message in
        order, a refused insert skipped, and the loop left at the first insert that throws. */
    method SaveThread(project: Option<string>, thread: seq<Message>, user: Option<string>, outcomes: seq<InsertOutcome>)
      requires |outcomes| == |thread|
      modifies this
      ensures rows == old(rows) +
        (if TruthyOpt(project) && user.Some? then SavedRows(user.value, project.value, thread, outcomes) else [])
      ensures messages == old(messages) && input == old(input) && pendingImage == old(pendingImage)
      ensures projectName == old(projectName) && projectId == old(projectId)
    {
      if !TruthyOpt(project) || user.None? {
        return;
      }
      var u, p := user.value, project.value;
      var i := 0;
      while i < |thread|
        invariant 0 <= i <= |thread|
        invariant rows + SavedRows(u, p, thread[i..], outcomes[i..]) == old(rows) + SavedRows(u, p, thread, outcomes)
        invariant messages == old(messages) && input == old(input) && pendingImage == old(pendingImage)
        invariant projectName == old(projectName) && projectId == old(projectId)
      {
        SavedRowsStep(u, p, thread, outcomes, i);
        ghost var rest := SavedRows(u, p, thread[i + 1..], outcomes[i + 1..]);
        match outcomes[i] {
          case Inserted(_) =>
            assert rows + ([RowOf(u, p, thread[i])] + rest) == (rows + [RowOf(u, p, thread[i])]) + rest;
            rows := rows + [RowOf(u, p, thread[i])];
          case InsertFailed =>
          case InsertThrew =>
            assert rows + [] == rows;
            break;
        }
        i := i + 1;
      }
      assert i == |thread| ==> thread[i..] == [] && rows + [] == rows;
    }

    /** `handleSend`. Unless the guard holds nothing changes. Otherwise the user message (trimmed
        text, pending image) is appended, the input and image are reset, the reply is appended,
        and with a project both are saved once more; an `addMessage` insert that throws ends the
        send where it stands. */
    method HandleSend(user: Option<string>, userInsert: InsertOutcome, replyInsert: InsertOutcome,
                      threadOutcomes: seq<InsertOutcome>)
      requires |threadOutcomes| == 2
      modifies this
      ensures projectName == old(projectName) && projectId == old(projectId)
      ensures !CanSend(old(input), old(pendingImage)) ==> unchanged(this)
      ensures CanSend(old(input), old(pendingImage)) ==>
        && |messages| >= |old(messages)| + 1 && messages[..|old(messages)|] == old(messages)
        && messages[|old(messages)|] ==
             Message(AssignedId(old(Persists(user)), userInsert), User, Trim(old(input)), OrAbsent(old(pendingImage)))
      ensures CanSend(old(input), old(pendingImage)) && old(Persists(user)) && userInsert.InsertThrew? ==>
        && |messages| == |old(messages)| + 1
        && input == old(input) && pendingImage == old(pendingImage) && rows == old(rows)
      ensures CanSend(old(input), old(pendingImage)) && !(old(Persists(user)) && userInsert.InsertThrew?) ==>
        && |messages| == |old(messages)| + 2
        && messages[|old(messages)| + 1] == Message(AssignedId(old(Persists(user)), replyInsert), Ai, AiReply, None)
        && input == "" && pendingImage == None
      ensures CanSend(old(input), old(pendingImage)) && old(Persists(user))
              && !userInsert.InsertThrew? && replyInsert.InsertThrew? ==>
        rows == old(rows)
          + InsertedRows(user.value, projectId.value, userInsert, Message(None, User, Trim(old(input)), OrAbsent(old(pendingImage))))
      ensures CanSend(old(input), old(pendingImage)) && old(Persists(user))
              && !userInsert.InsertThrew? && !replyInsert.InsertThrew? ==>
        rows == old(rows)
          + InsertedRows(user.value, projectId.value, userInsert, Message(None, User, Trim(old(input)), OrAbsent(old(pendingImage))))
          + InsertedRows(user.value, projectId.value, replyInsert, Message(None, Ai, AiReply, None))
          + SavedRows(user.value, projectId.value, Thread(Trim(old(input))), threadOutcomes)
      ensures !old(Persists(user)) ==> rows == old(rows)
    {
      if !(Truthy(Trim(input)) || TruthyOpt(pendingImage)) {
        return;
      }
      var userMessage := Trim(input);
      var threw := AddMessage(User, userMessage, OrAbsent(pendingImage), user, userInsert);
      if threw {
        return;
      }
      input := "";
      pendingImage := None;
      threw := AddMessage(Ai, AiReply, None, user, replyInsert);
      if threw {
        return;
      }
      if TruthyOpt(projectId) {
        SaveThread(projectId, Thread(userMessage), user, threadOutcomes);
      }
    }

    /** The mount effect `loadProjectAndChat`: with a signed-in user and a project id in the
        address, remember the id, take the project's name when found, and replace the messages
        with the user's history of the project when the query answers. */
    method LoadProjectAndChat(user: Option<string>, projectParam: Option<string>, foundName: Option<string>,
                              table: seq<StoredRow>, historyAnswered: bool)
      modifies this
      ensures !(user.Some? && TruthyOpt(projectParam)) ==>
        messages == old(messages) && projectName == old(projectName) && projectId == old(projectId)
      ensures user.Some? && TruthyOpt(projectParam) ==>
        && projectId == projectParam
        && projectName == (if foundName.Some? then foundName.value else old(projectName))
        && messages == (if historyAnswered then HistoryMessages(HistoryQuery(table, user.value, projectParam.value)) else old(messages))
      ensures input == old(input) && pendingImage == old(pendingImage) && rows == old(rows)
    {
      if user.None? {
        return;
      }
      if TruthyOpt(projectParam) {
        projectId := projectParam;
        if foundName.Some? {
          projectName := foundName.value;
        }
        if historyAnswered {
          messages := HistoryMessages(HistoryQuery(table, user.value, projectParam.value));
        }
      }
    }

    /** `handleDrop`: only a first dropped file of an image type is read; a read that yields a
        string becomes the pending image. */
    method HandleDrop(files: seq<DroppedFile>, readResult: Option<string>)
      modifies this
      ensures pendingImage == if AcceptsDrop(files) && readResult.Some? then readResult else old(pendingImage)
      ensures messages == old(messages) && input == old(input) && rows == old(rows)
      ensures projectName == old(projectName) && projectId == old(projectId)
    {
      if files != [] && StartsWith(files[0].mimeType, "image/") {
        HandleImageUpload(readResult);
      }
    }

    /** `handleImageUpload`: the reader's result, when it is a string, becomes the pending image.
        The file picker calls it directly, without checking the file's type. */
    method HandleImageUpload(readResult: Option<string>)
      modifies this
      ensures pendingImage == if readResult.Some? then readResult else old(pendingImage)
      ensures messages == old(messages) && input == old(input) && rows == old(rows)
      ensures projectName == old(projectName) && projectId == old(projectId)
    {
      if readResult.Some? {
        pendingImage := readResult;
      }
    }
  }
}
