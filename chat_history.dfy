/** The four history views: the stored messages of one conversation are
    filtered, decoded and rendered in order into chat entries, and the pane
    falls back to a placeholder or an error text. */
module ChatHistory {
  import opened Wrappers
  import opened JsStrings
  import opened ChatCodec

  const Loading: string := "Загрузка..."
  const NoMessages: string := "Нет сообщений."
  const LoadFailed: string := "Произошла ошибка при загрузке сообщений."
  const ConversationFailed: string :=
    "Произошла ошибка при загрузке переписки, попробуйте перезайти в приложение."

  /** The display names a view puts on attachment entries and sent entries. */
  datatype Names = Names(customer: string, courier: string)

  /** One `chat-message` block of a pane, or a bare text shown in it. */
  datatype Entry =
    | Plain(html: string)                                // a text message of the history
    | Image(heading: string, src: string, caption: string) // an attachment, received or sent
    | Said(heading: string, text: string, date: string)    // a text the user has just sent
    | Notice(text: string)                               // loading, placeholder or error text

  /** `Заказчик <name>:` or `Курьер <name>:`: the heading opens with the
      customer's marker word exactly for the customer, and closes with the
      name and a colon. */
  function Label(role: Role, name: string): (r: string)
    ensures CustomerMarker <= r <==> role == Customer
    ensures |r| > |name| && r[|r| - 1] == ':' && r[|r| - 1 - |name|..|r| - 1] == name
  {
    var r := (if role == Customer then "Заказчик " else "Курьер ") + name + ":";
    assert r[0] == (if role == Customer then 'З' else 'К');
    r
  }

  /** An `undefined` timestamp is printed by the template as `undefined`,
      so on screen it cannot be told from a stored timestamp of that text. */
  function Caption(timestamp: Option<string>): (r: string)
    ensures timestamp.Some? ==> r == timestamp.value
    ensures r == "undefined" <==> timestamp == None || timestamp == Some("undefined")
  {
    match timestamp
    case Some(t) => t
    case None => "undefined"
  }

  /** One decoded message as a `chat-message` block: a text keeps its body,
      an attachment becomes an image at its URL headed by its sender. */
  function RenderMessage(m: ChatMessage, names: Names): (e: Entry)
    ensures e.Plain? <==> m.Text?
    ensures e.Image? <==> m.Attachment?
    ensures m.Text? ==> e.html == m.body
    ensures m.Attachment? ==>
      && e.src == m.url
      && (CustomerMarker <= e.heading <==> m.sender == Customer)
      && (m.timestamp.Some? ==> e.caption == m.timestamp.value)
    ensures m.Attachment? ==>
      var n := if m.sender == Customer then names.customer else names.courier;
      && |e.heading| > |n|
      && e.heading[|e.heading| - 1 - |n|..|e.heading| - 1] == n
      && (m.timestamp.None? ==> e.caption == "undefined")
  {
    match m
    case Text(body) => Plain(body)
    case Attachment(sender, url, timestamp) =>
      Image(Label(sender, if sender == Customer then names.customer else names.courier),
            url, Caption(timestamp))
  }

  /** `.map(decode)` over the already filtered messages. */
  function DecodeAll(msgs: seq<string>): seq<Option<ChatMessage>> {
    seq(|msgs|, i requires 0 <= i < |msgs| => Decode(msgs[i]))
  }

  /** The rendered messages, in order, or `None` when one decode threw (the
      whole `map`, and with it the view, throws). */
  function Collect(decoded: seq<Option<ChatMessage>>, names: Names): (r: Option<seq<Entry>>)
    ensures r.Some? <==> forall i :: 0 <= i < |decoded| ==> decoded[i].Some?
    ensures r.Some? ==>
      && |r.value| == |decoded|
      && forall i :: 0 <= i < |decoded| ==> r.value[i] == RenderMessage(decoded[i].value, names)
  {
    if decoded == [] then Some([])
    else
      match decoded[0]
      case None => None
      case Some(m) =>
        match Collect(decoded[1..], names)
        case None => None
        case Some(rest) => Some([RenderMessage(m, names)] + rest)
  }

  lemma CollectKeptSome(msgs: seq<string>, names: Names)
    ensures Collect(DecodeAll(DropBlank(msgs)), names).Some?
        <==> forall m :: m in msgs && !IsBlank(m) ==> Decode(m).Some?
  {
    var kept := DropBlank(msgs);
    var r := Collect(DecodeAll(kept), names);
    forall m | m in msgs && !IsBlank(m) && r.Some?
      ensures Decode(m).Some?
    {
      DropBlankMembers(msgs, m);
      var i :| 0 <= i < |kept| && kept[i] == m;
      assert DecodeAll(kept)[i].Some?;
    }
    if r.None? {
      var i :| 0 <= i < |kept| && DecodeAll(kept)[i].None?;
      DropBlankMembers(msgs, kept[i]);
    }
  }

  /** Filter, decode and render: the shared body of the four views. It
      throws exactly when some non-blank message fails to decode, and
      otherwise its i-th entry renders the i-th non-blank message. */
  function RenderHistory(msgs: seq<string>, names: Names): (r: Option<seq<Entry>>)
    ensures r.Some? <==> forall m :: m in msgs && !IsBlank(m) ==> Decode(m).Some?
    ensures r.Some? ==> |r.value| == |DropBlank(msgs)|
    ensures r.Some? ==> forall i :: 0 <= i < |r.value| ==>
      && Decode(DropBlank(msgs)[i]).Some?
      && r.value[i] == RenderMessage(Decode(DropBlank(msgs)[i]).value, names)
  {
    CollectKeptSome(msgs, names);
    var d := DecodeAll(DropBlank(msgs));
    assert forall i :: 0 <= i < |d| ==> d[i] == Decode(DropBlank(msgs)[i]);
    Collect(d, names)
  }

  /** What `/delivery/get-chats` answered: `success`, and `chatMessages`
      when it is an array. */
  datatype ChatsReply = ChatsReply(success: bool, chatMessages: Option<seq<string>>)

  /** The request and its JSON parsing either deliver a reply or throw. */
  datatype Fetched = Received(reply: ChatsReply) | FetchFailed

  /** `data.success && Array.isArray(data.chatMessages) && data.chatMessages.length > 0`. */
  predicate HasMessages(reply: ChatsReply) {
    reply.success && reply.chatMessages.Some? && |reply.chatMessages.value| > 0
  }

  /** The pane of `loadCourierChatHistory` and `loadCustomerChatHistory`
      once the history request has settled: the rendered history, the
      placeholder when there is no message list, or the error text when the
      request or a decode throws. */
  function HistoryPane(fetched: Fetched, names: Names): (pane: seq<Entry>)
    ensures pane == [Notice(NoMessages)] <==> fetched.Received? && !HasMessages(fetched.reply)
    ensures pane == [Notice(LoadFailed)] <==>
      || fetched.FetchFailed?
      || (HasMessages(fetched.reply) && RenderHistory(fetched.reply.chatMessages.value, names).None?)
    ensures fetched.Received? && HasMessages(fetched.reply)
            && RenderHistory(fetched.reply.chatMessages.value, names).Some? ==>
      pane == RenderHistory(fetched.reply.chatMessages.value, names).value
  {
    match fetched
    case FetchFailed => [Notice(LoadFailed)]
    case Received(reply) =>
      if HasMessages(reply) then
        match RenderHistory(reply.chatMessages.value, names)
        case None => [Notice(LoadFailed)]
        case Some(entries) => entries
      else [Notice(NoMessages)]
  }

  /** Rendering keeps order: the history of two runs of messages is the
      history of the first followed by that of the second, and it throws
      when either part does. */
  lemma DecodeAllAppend(a: seq<string>, b: seq<string>)
    ensures DecodeAll(a + b) == DecodeAll(a) + DecodeAll(b)
  {
    var ab := a + b;
    forall i | 0 <= i < |ab| ensures DecodeAll(ab)[i] == (DecodeAll(a) + DecodeAll(b))[i] {
      if i < |a| { assert ab[i] == a[i]; } else { assert ab[i] == b[i - |a|]; }
    }
  }

  /** Rendering keeps order: two runs of decoded messages render to the
      entries of the first followed by those of the second, and the whole
      throws when either part does. */
  lemma {:induction false} CollectAppend(a: seq<Option<ChatMessage>>, b: seq<Option<ChatMessage>>, names: Names)
    ensures Collect(a + b, names) ==
      if Collect(a, names).Some? && Collect(b, names).Some?
      then Some(Collect(a, names).value + Collect(b, names).value)
      else None
  {
    if a == [] {
      assert a + b == b;
      if Collect(b, names).Some? {
        assert [] + Collect(b, names).value == Collect(b, names).value;
      }
    } else {
      assert (a + b)[0] == a[0];
      assert (a + b)[1..] == a[1..] + b;
      CollectAppend(a[1..], b, names);
      if a[0].Some? && Collect(a[1..], names).Some? && Collect(b, names).Some? {
        var head := RenderMessage(a[0].value, names);
        assert [head] + (Collect(a[1..], names).value + Collect(b, names).value)
            == ([head] + Collect(a[1..], names).value) + Collect(b, names).value;
      }
    }
  }

  /** The history of a conversation is the history of its earlier messages
      followed by that of its later ones. */
  lemma RenderHistoryAppend(a: seq<string>, b: seq<string>, names: Names)
    ensures RenderHistory(a + b, names) ==
      if RenderHistory(a, names).Some? && RenderHistory(b, names).Some?
      then Some(RenderHistory(a, names).value + RenderHistory(b, names).value)
      else None
  {
    DropBlankAppend(a, b);
    DecodeAllAppend(DropBlank(a), DropBlank(b));
    CollectAppend(DecodeAll(DropBlank(a)), DecodeAll(DropBlank(b)), names);
  }

  /** A list of blank strings filters to nothing. */
  lemma {:induction false} DropBlankAllBlank(msgs: seq<string>)
    requires forall i :: 0 <= i < |msgs| ==> IsBlank(msgs[i])
    ensures DropBlank(msgs) == []
  {
    if msgs != [] {
      DropBlankAllBlank(msgs[1..]);
    }
  }

  /** A blank message leaves no trace in the history, wherever it stands. */
  lemma BlankMessageSkipped(a: seq<string>, blank: string, b: seq<string>, names: Names)
    requires IsBlank(blank)
    ensures RenderHistory(a + [blank] + b, names) == RenderHistory(a + b, names)
  {
    DropBlankAllBlank([blank]);
    DropBlankAppend(a + [blank], b);
    DropBlankAppend(a, [blank]);
    DropBlankAppend(a, b);
    assert DropBlank(a) + [] == DropBlank(a);
  }

  /** A non-empty list of blank messages shows an empty pane, not the
      placeholder, which only an empty or missing list gets. */
  lemma AllBlankHistoryIsEmptyPane(msgs: seq<string>, names: Names)
    requires |msgs| > 0
    requires forall i :: 0 <= i < |msgs| ==> IsBlank(msgs[i])
    ensures HistoryPane(Received(ChatsReply(true, Some(msgs))), names) == []
    ensures HistoryPane(Received(ChatsReply(true, Some([]))), names) == [Notice(NoMessages)]
  {
    DropBlankAllBlank(msgs);
  }

  /** What `showSelectedCustomerChat` and `showSelectedCourierChat` leave
      on screen: the display's content and the modal message, if any. */
  datatype SelectedView = SelectedView(display: seq<Entry>, modal: Option<string>)

  /** `showSelectedCustomerChat`: the rendered history; a modal and an empty
      chat block when there is no message list; and when the request or a
      decode throws, only a log line, so the loading text stays. */
  function ShowSelectedCustomerChat(fetched: Fetched, names: Names): (v: SelectedView)
    ensures v.modal.Some? <==> fetched.Received? && !HasMessages(fetched.reply)
    ensures v.modal.Some? ==> v.modal.value == ConversationFailed && v.display == []
    ensures v.display == [Notice(Loading)] <==>
      || fetched.FetchFailed?
      || (HasMessages(fetched.reply) && RenderHistory(fetched.reply.chatMessages.value, names).None?)
    ensures fetched.Received? && HasMessages(fetched.reply)
            && RenderHistory(fetched.reply.chatMessages.value, names).Some? ==>
      v.display == RenderHistory(fetched.reply.chatMessages.value, names).value
  {
    match fetched
    case FetchFailed => SelectedView([Notice(Loading)], None)
    case Received(reply) =>
      if HasMessages(reply) then
        match RenderHistory(reply.chatMessages.value, names)
        case None => SelectedView([Notice(Loading)], None)
        case Some(entries) => SelectedView(entries, None)
      else SelectedView([], Some(ConversationFailed))
  }

  /** `showSelectedCourierChat`: as above, except that a throwing request or
      decode also raises the modal. */
  function ShowSelectedCourierChat(fetched: Fetched, names: Names): (v: SelectedView)
    ensures v.modal.None? <==>
      fetched.Received? && HasMessages(fetched.reply)
      && RenderHistory(fetched.reply.chatMessages.value, names).Some?
    ensures v.modal.Some? ==> v.modal.value == ConversationFailed
    ensures v.display == [Notice(Loading)] <==>
      || fetched.FetchFailed?
      || (HasMessages(fetched.reply) && RenderHistory(fetched.reply.chatMessages.value, names).None?)
    ensures v.modal.None? ==> v.display == RenderHistory(fetched.reply.chatMessages.value, names).value
    ensures fetched.Received? && !HasMessages(fetched.reply) ==> v.display == []
  {
    match fetched
    case FetchFailed => SelectedView([Notice(Loading)], Some(ConversationFailed))
    case Received(reply) =>
      if HasMessages(reply) then
        match RenderHistory(reply.chatMessages.value, names)
        case None => SelectedView([Notice(Loading)], Some(ConversationFailed))
        case Some(entries) => SelectedView(entries, None)
      else SelectedView([], Some(ConversationFailed))
  }
}
