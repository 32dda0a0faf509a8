/** The chat window of `loadCourierChatHistory` and `loadCustomerChatHistory`:
    the history pane, the message input, and the two send handlers wired to
    them, which post to `/delivery/send-message`, push a live notice to the
    counterparty over the socket and append to the pane. */
module ChatPane {
  import opened Wrappers
  import opened JsStrings
  import opened ChatCodec
  import opened ChatHistory

  /** The `message` of the live notice for a file. */
  const FileSentNotice: string := "[File sent]"
  /** The modal shown when sending a file throws. */
  const FileSendFailed: string := "Произошла ошибка при отправке файла"

  /** One open conversation, seen from the side of the user at the pane. */
  datatype Conversation = Conversation(
    side: Role,          // whose window this is
    bidId: string,
    ownId: string,       // the user's own Telegram id
    ownName: string,     // the user's display name
    peerId: string)      // the counterparty's Telegram id

  function CustomerId(c: Conversation): string {
    if c.side == Customer then c.ownId else c.peerId
  }

  function CourierId(c: Conversation): string {
    if c.side == Courier then c.ownId else c.peerId
  }

  /** A picked file, with the two renderings the handler derives from it
      (`URL.createObjectURL(file)` and `fileToBase64(file)`). */
  datatype Upload = Upload(objectUrl: string, base64: string)

  datatype Payload = TextBody(message: string) | FileBody(file: Upload)

  /** The body of a `/delivery/send-message` request: the courier's id goes
      out under the field name `courierField`. */
  datatype SendRequest = SendRequest(
    bidId: string, customerId: string, courierField: string, courierId: string,
    senderType: string, payload: Payload)

  /** The JSON sent on the socket: `{recipient_telegram_id, sender_name,
      message, attachment}`. */
  datatype LivePush = LivePush(
    recipient: string, senderName: string, message: string, attachment: Option<string>)

  /** How the `fetch` of a send settled: it threw, or a response came back. */
  datatype HttpOutcome = NetworkError | Response(ok: bool)

  /** The JSON body of a text send. The courier's handler names its own id
      `performer_telegram_id` and its type `courier`. */
  function TextRequest(c: Conversation, message: string): (r: SendRequest)
    ensures r.bidId == c.bidId && r.payload == TextBody(message)
    ensures c.side == Customer ==> r.customerId == c.ownId && r.courierId == c.peerId
    ensures c.side == Courier ==> r.courierId == c.ownId && r.customerId == c.peerId
    ensures r.courierField == "performer_telegram_id" <==> c.side == Courier
    ensures r.senderType == "courier" <==> c.side == Courier
    ensures c.side == Customer ==> r.courierField == "courier_telegram_id" && r.senderType == "customer"
  {
    SendRequest(c.bidId, CustomerId(c),
      if c.side == Courier then "performer_telegram_id" else "courier_telegram_id",
      CourierId(c),
      if c.side == Courier then "courier" else "customer",
      TextBody(message))
  }

  /** The form data of a file send. The courier's handler gives its type as
      `performer`. */
  function FileRequest(c: Conversation, file: Upload): (r: SendRequest)
    ensures r.bidId == c.bidId && r.payload == FileBody(file)
    ensures c.side == Customer ==> r.customerId == c.ownId && r.courierId == c.peerId
    ensures c.side == Courier ==> r.courierId == c.ownId && r.customerId == c.peerId
    ensures r.courierField == "courier_telegram_id"
    ensures r.senderType == "performer" <==> c.side == Courier
    ensures c.side == Customer ==> r.senderType == "customer"
  {
    SendRequest(c.bidId, CustomerId(c), "courier_telegram_id", CourierId(c),
      if c.side == Courier then "performer" else "customer",
      FileBody(file))
  }

  class ChatWindow {
    /** The pane's blocks, in display order (`chat-history`). */
    var pane: seq<Entry>
    /** The text area's value (`message-input`). */
    var input: string

    constructor ()
      ensures pane == [] && input == []
    {
      pane, input := [], [];
    }

    /** Opening a conversation: the pane shows the history, its placeholder
        or the error text; the input keeps what it held. */
    method LoadHistory(fetched: Fetched, names: Names)
      modifies this`pane
      ensures pane == HistoryPane(fetched, names)
    {
      pane := [Notice(Loading)];  // the loading text, shown while the request is pending
      pane := HistoryPane(fetched, names);
    }

    /** The send button. The input is trimmed; a blank input does nothing.
        Otherwise the request goes out; once it has answered, a live notice
        without attachment goes to the counterparty if the socket is open,
        and only an ok answer appends exactly one entry and clears the
        input. A `fetch` that throws ends the handler. */
    method SendText(c: Conversation, outcome: HttpOutcome, socketOpen: bool, now: string)
      returns (request: Option<SendRequest>, push: Option<LivePush>)
      modifies this
      ensures request.Some? <==> !IsBlank(old(input))
      ensures request.Some? ==> request.value == TextRequest(c, Trim(old(input)))
      ensures push.Some? <==> !IsBlank(old(input)) && outcome.Response? && socketOpen
      ensures push.Some? ==> push.value == LivePush(c.peerId, c.ownName, Trim(old(input)), None)
      ensures if !IsBlank(old(input)) && outcome == Response(true) then
          && pane == old(pane) + [Said(Label(c.side, c.ownName), Trim(old(input)), now)]
          && input == []
        else pane == old(pane) && input == old(input)
    {
      var message := Trim(input);
      TrimEmptyIffBlank(input);
      request, push := None, None;
      if message != [] {
        request := Some(TextRequest(c, message));
        if outcome.Response? {
          if socketOpen {
            push := Some(LivePush(c.peerId, c.ownName, message, None));
          }
          if outcome.ok {
            pane := pane + [Said(Label(c.side, c.ownName), message, now)];
            input := [];
          }
        }
      }
    }

    /** The file input's change handler. Nothing happens without a file.
        With one, the form goes out; once it has answered, a `[File sent]`
        notice carrying the file in base64 goes to the counterparty if the
        socket is open, and an ok answer appends the image entry. A `fetch`
        that throws raises the error modal. The input is left alone. */
    method SendFile(c: Conversation, file: Option<Upload>, outcome: HttpOutcome,
                    socketOpen: bool, now: string)
      returns (request: Option<SendRequest>, push: Option<LivePush>, modal: Option<string>)
      modifies this`pane
      ensures request == if file.Some? then Some(FileRequest(c, file.value)) else None
      ensures push.Some? <==> file.Some? && outcome.Response? && socketOpen
      ensures push.Some? ==>
        push.value == LivePush(c.peerId, c.ownName, FileSentNotice, Some(file.value.base64))
      ensures modal == if file.Some? && outcome.NetworkError? then Some(FileSendFailed) else None
      ensures pane == if file.Some? && outcome == Response(true)
        then old(pane) + [Image(Label(c.side, c.ownName), file.value.objectUrl, now)]
        else old(pane)
    {
      request, push, modal := None, None, None;
      if file.Some? {
        request := Some(FileRequest(c, file.value));
        match outcome
        case NetworkError =>
          modal := Some(FileSendFailed);
        case Response(ok) =>
          if socketOpen {
            push := Some(LivePush(c.peerId, c.ownName, FileSentNotice, Some(file.value.base64)));
          }
          if ok {
            pane := pane + [Image(Label(c.side, c.ownName), file.value.objectUrl, now)];
          }
      }
    }
  }
}
