# Chat history decoder and send handlers of the delivery mini-app

This project models, in Dafny, the chat logic of the delivery client
(`app/public/scripts/delivery_main.mjs`): the decoder that the four history
views apply to a conversation's stored message strings, the pane each view
fills with the result (history, `Нет сообщений.` placeholder, or error
text), and the two send handlers of the chat window (text and file), which
post the message, push a live notice to the counterparty and append to the
pane.

A stored message is either plain text or an attachment record of three
lines: a sender line, the stored path under `app/chats/attachments/`, and a
timestamp. The decoder drops blank messages, classifies each remaining one
by whether it contains the storage directory, turns line breaks of text into
`<br>`, binds the first three non-blank lines of an attachment, rewrites the
first occurrence of the storage directory in the path to `/attachments/`,
and reads the sender as the customer when the sender line contains
`Заказчик`.

Files:

- `wrappers.dfy`: `Option`.
- `js_strings.dfy` (module `JsStrings`): the JavaScript built-ins the views
  are made of (`trim`, `includes`, `replace` with a string pattern, `split`
  on one character, `join`, the blank filter), with their properties.
- `chat_codec.dfy` (module `ChatCodec`): the decoded message
  `Text(body) | Attachment(sender, url, timestamp)` and `Decode`.
- `chat_history.dfy` (module `ChatHistory`): rendering a history in order,
  the pane of the two chat windows and the display of the two read-only
  conversation views.
- `chat_pane.dfy` (module `ChatPane`): the class `ChatWindow` holding the
  pane's entries and the input's text, with `LoadHistory`, `SendText` and
  `SendFile`.

The decoder has no encoder on the client; `ChatCodec.AttachmentRecord` is
the three-line form the decoder reads, used to state the round trip.

The decoder accepts a record with two or more non-blank lines: it ignores
lines after the third, leaves the timestamp `undefined` (printed as
`undefined`) when there are only two, and throws only when the path line is
missing (lines 726-727).

## Model

| member | source | states |
|---|---|---|
| `JsStrings.WhitespaceIsTrimmedChars` | app/public/scripts/delivery_main.mjs:721 | the characters `trim` strips (the `IsWhitespace` test) are exactly the listed ECMAScript whitespace and line terminators |
| `JsStrings.Trim` | app/public/scripts/delivery_main.mjs:756 | the trimmed text is the input less a blank head and a blank tail, and neither starts nor ends with whitespace |
| `JsStrings.TrimEmptyIffBlank` | app/public/scripts/delivery_main.mjs:721 | `trim() === ''` holds exactly when every character is whitespace |
| `JsStrings.IndexOf` | app/public/scripts/delivery_main.mjs:724 | the search finds the leftmost occurrence, and finds none only when the pattern never occurs |
| `JsStrings.Contains` | app/public/scripts/delivery_main.mjs:724 | `includes` holds exactly when the pattern occurs at some index |
| `JsStrings.ContainsInContext` | app/public/scripts/delivery_main.mjs:724 | text added before or after keeps a contained pattern contained |
| `JsStrings.ReplaceFirst` | app/public/scripts/delivery_main.mjs:727 | `replace` with a string pattern rewrites only the leftmost occurrence, keeps the text around it, and leaves a string without the pattern unchanged |
| `JsStrings.ReplaceFirstOfPrefixed` | app/public/scripts/delivery_main.mjs:727 | a string starting with the pattern has exactly that prefix rewritten |
| `JsStrings.Split` | app/public/scripts/delivery_main.mjs:726 | splitting yields at least one piece and no piece contains the separator |
| `JsStrings.JoinSplit` | app/public/scripts/delivery_main.mjs:726 | joining the pieces with the separator gives back the original text |
| `JsStrings.SplitWithoutSeparator` | app/public/scripts/delivery_main.mjs:726 | text without the separator is a single piece |
| `JsStrings.SplitAtSeparator` | app/public/scripts/delivery_main.mjs:726 | the pieces of `a + sep + b` are the pieces of `a` followed by those of `b` |
| `JsStrings.ReplaceNewlines` | app/public/scripts/delivery_main.mjs:740 | the rendered text has no line break, and text without line breaks is unchanged |
| `JsStrings.ReplaceNewlinesIsSplitJoin` | app/public/scripts/delivery_main.mjs:740 | replacing every line break by `<br>` equals splitting on line breaks and joining with `<br>`, so nothing but the breaks changes |
| `JsStrings.DropBlank` | app/public/scripts/delivery_main.mjs:721 | the filter never lengthens the list and every message it keeps is non-blank |
| `JsStrings.DropBlankAppend` | app/public/scripts/delivery_main.mjs:719-721 | filtering a concatenation is the concatenation of the filtered parts, so surviving messages keep their relative order |
| `JsStrings.DropBlankMembers` | app/public/scripts/delivery_main.mjs:721 | a message survives the filter exactly when it is in the list and not blank |
| `ChatCodec.SenderOf` | app/public/scripts/delivery_main.mjs:728-730 | the sender is the customer exactly when the sender line contains `Заказчик`, the courier otherwise |
| `ChatCodec.NonBlankLines` | app/public/scripts/delivery_main.mjs:726 | the kept lines are exactly the non-blank lines of the message, none holding a line break |
| `ChatCodec.DecodeLines` | app/public/scripts/delivery_main.mjs:726-730 | the attachment branch throws exactly when fewer than two non-blank lines exist; otherwise it is an attachment whose role follows the first line, whose URL is the second line with the storage directory rewritten, and whose timestamp is the third line, absent when there is none |
| `ChatCodec.Decode` | app/public/scripts/delivery_main.mjs:723-741 | a message decodes as text exactly when it lacks `app/chats/attachments/`, and text carries no line break; it throws exactly when it holds that directory with fewer than two non-blank lines; an attachment's role follows its first non-blank line, its URL is its second non-blank line with the storage directory rewritten, and its timestamp is its third non-blank line, absent when there are only two |
| `ChatCodec.NotBlankWhenHoldsPrefix` | app/public/scripts/delivery_main.mjs:721-724 | a message holding the storage directory is never dropped as blank |
| `ChatCodec.NonBlankLinesAtBreak` | app/public/scripts/delivery_main.mjs:726 | the non-blank lines of `a + '\n' + b` are those of `a` followed by those of `b` |
| `ChatCodec.DecodeAttachmentRecord` | app/public/scripts/delivery_main.mjs:724-737 | a three-line record decodes to its sender role, its path with the storage directory rewritten, and its timestamp |
| `ChatCodec.DecodeTwoLineRecord` | app/public/scripts/delivery_main.mjs:724-737 | a record of a sender line and a path line only decodes, with its timestamp absent (printed `undefined`) |
| `ChatCodec.DecodeSkipsBlankLine` | app/public/scripts/delivery_main.mjs:726 | a blank line inserted anywhere in an attachment record does not change what it decodes to |
| `ChatCodec.StoredPathUrl` | app/public/scripts/delivery_main.mjs:727 | `app/chats/attachments/<name>` is shown from `/attachments/<name>` |
| `ChatCodec.DecodeIgnoresLaterLines` | app/public/scripts/delivery_main.mjs:726 | lines after the third non-blank one do not change the decoded attachment |
| `ChatCodec.DecodeSingleLineAttachmentThrows` | app/public/scripts/delivery_main.mjs:726-727 | an attachment-tagged message on one line has no path line, so decoding it throws |
| `ChatCodec.DecodeText` | app/public/scripts/delivery_main.mjs:739-740 | a text message comes back with each line break as `<br>` and nothing else changed; without line breaks it comes back as stored |
| `ChatHistory.Label` | app/public/scripts/delivery_main.mjs:728-730 | a heading starts with `Заказчик` exactly for the customer and ends with the name and a colon (also the headings of sent entries, lines 792 and 1170) |
| `ChatHistory.Caption` | app/public/scripts/delivery_main.mjs:737 | a present timestamp is shown as stored; `undefined` is shown exactly for an absent timestamp or one stored as that text |
| `ChatHistory.RenderMessage` | app/public/scripts/delivery_main.mjs:733-740 | a text renders as a text block with its body, an attachment as an image block at its URL, headed as the customer's exactly when the customer sent it and with the sender's name (the customer's on a `Заказчик` line, the courier's otherwise), captioned with its timestamp or `undefined` when it has none (also lines 1107-1109) |
| `ChatHistory.RenderHistory` | app/public/scripts/delivery_main.mjs:719-743 | the history renders exactly when every non-blank message decodes, and then its i-th entry renders the i-th non-blank message |
| `ChatHistory.Collect` | app/public/scripts/delivery_main.mjs:723-743 | the history renders only if every message decodes, and then the i-th entry renders the i-th message |
| `ChatHistory.DecodeAllAppend` | app/public/scripts/delivery_main.mjs:723 | decoding a concatenation decodes each part in place |
| `ChatHistory.CollectAppend` | app/public/scripts/delivery_main.mjs:723-743 | rendering two runs gives the entries of the first then of the second, and throws when either does |
| `ChatHistory.RenderHistoryAppend` | app/public/scripts/delivery_main.mjs:719-743 | the history of earlier then later messages is the history of the earlier followed by that of the later |
| `ChatHistory.DropBlankAllBlank` | app/public/scripts/delivery_main.mjs:721 | a list of blank messages filters to nothing |
| `ChatHistory.BlankMessageSkipped` | app/public/scripts/delivery_main.mjs:721 | a blank message anywhere in the list leaves the history unchanged |
| `ChatHistory.AllBlankHistoryIsEmptyPane` | app/public/scripts/delivery_main.mjs:718-746 | a non-empty list of blank messages shows an empty pane, while an empty list shows `Нет сообщений.` |
| `ChatHistory.HistoryPane` | app/public/scripts/delivery_main.mjs:718-750 | the pane is the placeholder exactly when the reply has no non-empty message list, the error text exactly when the request or a decode throws, and otherwise the rendered history |
| `ChatHistory.ShowSelectedCustomerChat` | app/public/scripts/delivery_main.mjs:606-664 | a modal and an empty chat block exactly when there is no message list; the loading text stays exactly when the request or a decode throws; otherwise the rendered history |
| `ChatHistory.ShowSelectedCourierChat` | app/public/scripts/delivery_main.mjs:1017-1077 | no modal exactly when the history renders, and then the display is the rendered history; the loading text stays exactly when the request or a decode throws; the chat block is emptied when there is no message list |
| `ChatPane.TextRequest` | app/public/scripts/delivery_main.mjs:765-771 | a text request carries the bid and the text, puts the user's own id and the counterparty's in the customer and courier slots by side, and names the courier's id `performer_telegram_id` with type `courier` on the courier side, `courier_telegram_id` with type `customer` on the customer side (also lines 1144-1150) |
| `ChatPane.FileRequest` | app/public/scripts/delivery_main.mjs:814-819 | a file request carries the bid and the file, puts the two ids in the customer and courier slots by side, always under `courier_telegram_id`, with sender type `performer` on the courier side and `customer` on the customer side (also lines 1192-1197) |
| `ChatPane.ChatWindow.LoadHistory` | app/public/scripts/delivery_main.mjs:704-750 | the pane becomes the history pane of the reply |
| `ChatPane.ChatWindow.SendText` | app/public/scripts/delivery_main.mjs:754-801 | a request goes out exactly when the input is not blank, carrying the trimmed text; a live notice without attachment goes to the counterparty exactly when the request answered and the socket is open; only an ok answer appends one entry and clears the input, otherwise nothing changes |
| `ChatPane.ChatWindow.SendFile` | app/public/scripts/delivery_main.mjs:810-859 | with a file the form goes out; a `[File sent]` notice with the base64 file goes to the counterparty exactly when the request answered and the socket is open; a thrown request raises the error modal; only an ok answer appends the image entry; the input is untouched |

The customer-side copies of the same code (`loadCustomerChatHistory` at
lines 1097-1129, its handlers at 1133-1180 and 1188-1237, and the decoder of
`showSelectedCourierChat` at 1020-1028) are the same members, with the
conversation's side and display names as parameters.

## Left out

- HTML: entries are structured values (`Plain`, `Image`, `Said`, `Notice`), not the template strings with their markup and indentation; no escaping is done by the code either.
- The display names shown on attachment entries come from `/get-user-data` lookups in the two read-only views (lines 619-636, 1031-1048); they are parameters, and a lookup that fails is not modelled.
- `fetch`, the socket's `readyState`, `new Date().toLocaleString()`, `URL.createObjectURL` and `fileToBase64` are parameters; `fileToBase64` throwing is not modelled.
- `Promise.all` and the async scheduling of the views are not modelled; the result order is the order of the list.
- Console logging, `scrollToBottom`, `scrollInputsIntoView` and the DOM lookups are not modelled.
- Characters are Unicode scalar values rather than UTF-16 code units; the markers searched for are in the Basic Multilingual Plane, so `includes`, `split` and `replace` agree.
- ChatPane.ChatWindow.SendText: on the customer side the code reads `performer.bidID` (line 1145), a name not bound there, so the handler would throw before posting; the model sends the conversation's bid id, as evidently intended.
- ChatPane.ChatWindow.SendFile: on the courier side the code reads `courier.bidID` (line 816), a name not bound there, so the handler would throw before posting; the model sends the conversation's bid id, as evidently intended.
- ChatPane.ChatWindow.SendFile: the model runs one file handler per window, while the code adds a new `change` listener (lines 810 and 1188) every time a conversation is opened (the customer's chat buttons, line 890, reopen it in a window whose template is injected once, line 874), so after k openings one picked file is posted k times, pushed k times and appended k times; the text handler is assigned with `onclick =` (lines 754 and 1133) and so is replaced, as modelled.
- `showCourierChats` calls `loadPerformerChatHistory` (line 690), which is not defined; the courier window is modelled from `loadCourierChatHistory` as written.
- The sender type differs between the courier's text send (`courier`, line 770) and file send (`performer`, line 819), and the courier's text send names its id `performer_telegram_id`; both are kept as written.
- The bid lifecycle, the stored chat log, the live relay and the server's static mount of attachments live in server files that are not part of this model; the client only issues requests to them.
- The attachment record is written by the server, which is not part of this model; `ChatCodec.AttachmentRecord` is the form the decoder reads.
