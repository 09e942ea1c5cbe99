# Payment-gated Telegram bot, modelled in Dafny

The bot in `app.py` sells a per-chat download link behind a trusted
"payment screenshot" step. Its only state is the module-level dictionary
`user_data`, which maps a chat id to `{"paid": True}`. A table of command
handlers routes each incoming update to one handler. The handler sends one
reply and changes `user_data` in at most one way:

- a photo marks the chat paid;
- `/clearchat` deletes the chat's entry;
- `/getlink` reads the entry and sends either the chat's link or a rejection.

The project models this core and proves what it does.

- `Wrappers.dfy`: the `Option` type.
- `Decimal.dfy`: Python's `str(int)` for chat ids, including negative ones.
  It also has the reverse reading `ToInt`, which is used to prove that the
  text of an id gives back the id.
- `PaymentBot.dfy`: the session store and the routing table (`Route`, with
  `Tokens` as the same table indexed by handler). It has every reply text and
  every keyboard, the effect of each handler (`Handle`) and of one update
  (`Step`). The class `Bot` holds `user_data` as a mutable `map<int, Session>`.
  Its methods are the eight handlers plus `Dispatch`, and each one is proved
  against `Handle`/`Step`.
- `Conversation.dfy`: sequences of updates. `Replay` folds `Step` over an
  update sequence to give the final store; `Transcript` collects the replies. It proves
  the session invariant: a chat has an entry exactly when it sent a photo
  since its last `/clearchat`. It also proves the resulting `/getlink`
  behaviour and a five-step scenario for chat 42.

Facts about the code that the model keeps:

- The `/getlink` reply is `Here is your link: ` followed by
  `https://insstagram-4pwg.onrender.com/<chat id>` (app.py:55-56).
- The registration table binds nine command tokens and the photo filter to
  eight handler functions (app.py:72-81).
- app.py registers no error handler, so a handler that fails sends no apology.

## Model

| member | source | states |
|---|---|---|
| Decimal.FromNat | app.py:55 | the text of a natural number is a non-empty run of digits with no leading zero |
| Decimal.FromInt | app.py:55 | the text of an id is non-empty and starts with '-' exactly when the id is negative |
| Decimal.RoundTrip | app.py:55 | reading the decimal text of any id back gives that id |
| Decimal.FromIntInjective | app.py:55 | two ids have the same text if and only if they are equal |
| PaymentBot.Route | app.py:72-81 | a photo goes to upload_screenshot and nothing else does; a routed command token is registered for its handler; an unrouted token is registered for no handler; any other message reaches no handler |
| PaymentBot.RouteMatchesTokens | app.py:72-81 | a command token reaches handler h if and only if h is registered for that token |
| PaymentBot.UnknownCommandUnrouted | app.py:72-81 | a command reaches no handler exactly when no handler registered it |
| PaymentBot.PaymentAliasesAgree | app.py:73-75 | startbot, paynow and buypremium give the same outcome: the payment-method menu, store unchanged |
| PaymentBot.WelcomeText | app.py:22-27 | the welcome text contains the chat id, and exactly that id can be read back from it |
| PaymentBot.LinkFor | app.py:55 | the link is the fixed base URL followed by text that reads back as the chat id |
| PaymentBot.LinkText | app.py:55-56 | the link reply names exactly the chat it is sent to |
| PaymentBot.RejectionIsNoLink | app.py:57-58 | the rejection text carries no link |
| PaymentBot.LinksAreUnique | app.py:52-55 | two chats get the same link if and only if they are the same chat |
| PaymentBot.Handle | app.py:22-69 | only upload_screenshot and clearchat change the store; no handler touches another chat's entry; every stored session stays paid |
| PaymentBot.Step | app.py:72-81 | an update gets a reply exactly when a handler is registered for it; only a photo or clearchat changes the store; other chats are untouched; all-paid is preserved |
| PaymentBot.PhotoMarksPaid | app.py:43-46 | after a photo from c, c is stored with paid true and every other chat's entry is unchanged |
| PaymentBot.IsPaid | app.py:54 | the getlink check holds only for stored chats; when every session is paid it holds exactly for the stored chats |
| PaymentBot.GetLinkReply | app.py:51-58 | getlink leaves the store unchanged and replies with c's link if c is stored and paid, else the rejection |
| PaymentBot.ClearChatForgets | app.py:60-65 | clearchat removes c (a no-op if c is absent), keeps every other entry and always sends the confirmation |
| PaymentBot.ClearChatIdempotent | app.py:62-65 | clearing twice gives the same store and reply as clearing once |
| PaymentBot.ClearThenGetLinkRejected | app.py:51-65 | getlink right after clearchat gets the rejection |
| PaymentBot.PhotoThenGetLink | app.py:43-58 | getlink right after a photo gets the chat's link |
| PaymentBot.MenusAreRouted | app.py:25-49 | every keyboard button is '/' followed by a token the router registered |
| PaymentBot.Bot.constructor | app.py:17 | the store starts empty |
| PaymentBot.Bot.Start | app.py:22-27 | replies with the welcome text for the chat and the start menu; the id can be read back from the text |
| PaymentBot.Bot.StartBot | app.py:29-33 | replies "Choose a payment method:" with the getqr/payusingupi menu |
| PaymentBot.Bot.PayUsingUpi | app.py:35-37 | replies with the UPI instruction |
| PaymentBot.Bot.GetQr | app.py:39-41 | replies with the QR instruction |
| PaymentBot.Bot.UploadScreenshot | app.py:43-49 | stores Session(paid: true) for the chat, changes nothing else, keeps all-paid and replies with the paid menu |
| PaymentBot.Bot.GetLink | app.py:51-58 | changes nothing; replies with the chat's link if it is stored and paid, else the rejection; the link names exactly this chat; under the class invariant the link is sent exactly when the chat is stored |
| PaymentBot.Bot.ClearChat | app.py:60-65 | removes the chat's entry if present, keeps all-paid and always replies with the confirmation |
| PaymentBot.Bot.CloseBot | app.py:67-69 | replies with the farewell text |
| PaymentBot.Bot.Dispatch | app.py:72-81 | the new store and the reply are exactly what Step specifies for the update |
| Conversation.Transcript | app.py:72-81 | processing updates in order yields exactly one reply slot per update |
| Conversation.TranscriptAt | app.py:72-81 | slot i is Step's reply to update i on the store the earlier updates left, and it is present exactly when a handler is registered for update i |
| Conversation.OtherIsSilent | app.py:72-81 | a message that is neither a command nor a photo gets no reply and leaves the store unchanged |
| Conversation.ReplayMembership | app.py:43-65 | after any update sequence, c is stored if and only if it sent a photo after its last clearchat, or was stored before and never cleared |
| Conversation.ReplayKeepsAllPaid | app.py:46 | {paid: true} is the only value ever stored, after any number of updates |
| Conversation.GetLinkAfter | app.py:43-65 | from a fresh start, getlink returns the link exactly when the chat sent a photo after its last clear, and the rejection otherwise |
| Conversation.NoPhotoNoLink | app.py:51-58 | a chat that never sent a photo always gets the rejection |
| Conversation.UnroutedIsSilent | app.py:72-81 | an update no handler takes produces no reply and no change to the store |
| Conversation.Chat42Session | app.py:22-65 | for chat 42, start, photo, getlink, clearchat, getlink give the welcome with "42", the paid menu, the link ending in /42, the confirmation and the rejection |

## Left out

- The Flask application and its routes `/` and `/webhook` (app.py:14, 83-92). They are HTTP transport. Decoding the JSON update and calling `process_update` happen inside the bot framework.
- `set_webhook` and the `__main__` start-up (app.py:94-100). These are network calls and server start.
- Reading `TOKEN` and `WEBHOOK_URL` from the environment, and the `ValueError` when the token is missing (app.py:8-12). This is configuration I/O.
- How the framework turns message text into a command token: the leading `/`, `@botname` suffixes, arguments and case. A message is given to the model already split into `Command(name)`, `Photo` or `Other` (any other kind of message).
- The order in which the framework tries its handlers. The registered tokens are distinct and a photo carries no command text, so at most one handler matches.
- Sending a reply. Each reply is returned as a value. Failures of the send call, which would leave the store mutation in place, are not modelled.
- `async`/`await` and concurrent webhook deliveries (including the same-chat race). Each update is one atomic step.
- `ReplyKeyboardMarkup` is modelled only as its button rows plus the fact that it is one-time.
- Chat ids are Python ints (unbounded). `update.effective_chat.id` (app.py:24) and `update.message.chat_id` (app.py:45) are taken to be the same id.
