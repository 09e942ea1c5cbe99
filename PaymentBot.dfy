/**
 * The payment-gated Telegram bot of app.py: the per-chat session store
 * `user_data`, the eight command handlers and the table that routes command
 * tokens and photo messages to them.
 *
 * The pure part (Route, Handle, Step) is the specification; the class Bot
 * holds `user_data` as a mutable map and its methods are proved against it.
 */
module PaymentBot {
  import opened Wrappers
  import Decimal

  /** The record `{"paid": True}` stored per chat. */
  datatype Session = Session(paid: bool)

  /** `user_data`: chat id to session. */
  type Store = map<int, Session>

  /** Every stored session is marked paid. */
  ghost predicate AllPaid(store: Store) {
    forall c :: c in store ==> store[c].paid
  }

  /** `a` and `b` hold the same entry (or none) for chat `k`. */
  ghost predicate SameEntry(a: Store, b: Store, k: int) {
    (k in a <==> k in b) && (k in a ==> a[k] == b[k])
  }

  /** What an incoming message carries, as far as the router looks at it. */
  datatype Trigger =
    | Command(name: string)   // "/name", already split off by the framework
    | Photo
    | Other                   // any other message: plain text, sticker, document, ...

  datatype Message = Message(chatId: int, trigger: Trigger)

  /** The handler functions of app.py. */
  datatype Handler =
    | Start | StartBot | PayUsingUpi | GetQr | UploadScreenshot | GetLink | ClearChat | CloseBot

  /** A one-time reply keyboard, or none. */
  datatype Keyboard = NoKeyboard | OneTime(rows: seq<seq<string>>)

  datatype Reply = Reply(text: string, keyboard: Keyboard)

  /** The new store and the reply (none when no handler matched). */
  datatype Outcome = Outcome(store: Store, reply: Option<Reply>)

  // ---------------------------------------------------------------- routing

  /** The registration table: command tokens and the photo filter. */
  function Route(t: Trigger): (r: Option<Handler>)
    ensures t.Photo? <==> r == Some(UploadScreenshot)
    ensures t.Other? ==> r.None?
    ensures t.Command? && r.Some? ==> t.name in Tokens(r.value)
    ensures t.Command? && r.None? ==> forall h: Handler :: t.name !in Tokens(h)
  {
    match t
    case Photo => Some(UploadScreenshot)
    case Other => None
    case Command(name) =>
      if name == "start" then Some(Start)
      else if name == "startbot" || name == "paynow" || name == "buypremium" then Some(StartBot)
      else if name == "payusingupi" then Some(PayUsingUpi)
      else if name == "getqr" then Some(GetQr)
      else if name == "getlink" then Some(GetLink)
      else if name == "clearchat" then Some(ClearChat)
      else if name == "closebot" then Some(CloseBot)
      else None
  }

  /** The command tokens registered for each handler. */
  function Tokens(h: Handler): set<string> {
    match h
    case Start => {"start"}
    case StartBot => {"startbot", "paynow", "buypremium"}
    case PayUsingUpi => {"payusingupi"}
    case GetQr => {"getqr"}
    case UploadScreenshot => {}
    case GetLink => {"getlink"}
    case ClearChat => {"clearchat"}
    case CloseBot => {"closebot"}
  }

  /** A command token reaches handler `h` exactly when `h` registered it. */
  lemma RouteMatchesTokens(name: string, h: Handler)
    ensures Route(Command(name)) == Some(h) <==> name in Tokens(h)
  {
  }

  /** A command reaches no handler exactly when no handler registered it. */
  lemma UnknownCommandUnrouted(name: string)
    ensures Route(Command(name)) == None <==> forall h: Handler :: name !in Tokens(h)
  {
    if Route(Command(name)) != None {
      RouteMatchesTokens(name, Route(Command(name)).value);
    }
  }

  // ---------------------------------------------------------------- replies

  const StartMenu: seq<seq<string>> := [["/startbot", "/paynow", "/buypremium"]]
  const PaymentMenu: seq<seq<string>> := [["/getqr", "/payusingupi"]]
  const PaidMenu: seq<seq<string>> := [["/getlink", "/clearchat", "/closebot"]]

  const WelcomePrefix := "Welcome! Your Chat ID is: "
  const WelcomeSuffix := "\nChoose an option:"
  const PaymentText := "Choose a payment method:"
  const UpiText := "Please pay using UPI and upload a screenshot."
  const QrText := "Scan this QR to pay and upload a screenshot."
  const PaidText := "Payment verified! Choose an option:"
  const LinkBase := "https://insstagram-4pwg.onrender.com/"
  const LinkPrefix := "Here is your link: "
  const RejectText := "Please complete the payment first."
  const ClearedText := "Chat history cleared. You can restart by typing /start."
  const ClosedText := "Bot closed. Type /start to restart anytime."

  /** The welcome text names the chat it is sent to, and only that chat. */
  function WelcomeText(chatId: int): (t: string)
    ensures ChatIdOfWelcome(t) == Some(chatId)
  {
    var digits := Decimal.FromInt(chatId);
    var t := WelcomePrefix + digits + WelcomeSuffix;
    var lo, hi := |WelcomePrefix|, |t| - |WelcomeSuffix|;
    assert t[..lo] == WelcomePrefix;
    assert t[hi..] == WelcomeSuffix;
    assert t[lo..hi] == digits;
    Decimal.RoundTrip(chatId);
    t
  }

  /** The per-chat download link: the base URL, then the chat id's text. */
  function LinkFor(chatId: int): (link: string)
    ensures |LinkBase| <= |link| && link[..|LinkBase|] == LinkBase
    ensures Decimal.ToInt(link[|LinkBase|..]) == Some(chatId)
  {
    var link := LinkBase + Decimal.FromInt(chatId);
    assert link[|LinkBase|..] == Decimal.FromInt(chatId);
    Decimal.RoundTrip(chatId);
    link
  }

  /** The link reply names the chat it is sent to. */
  function LinkText(chatId: int): (t: string)
    ensures ChatIdOfLink(t) == Some(chatId)
  {
    var link := LinkFor(chatId);
    var t := LinkPrefix + link;
    var lo := |LinkPrefix + LinkBase|;
    assert t == (LinkPrefix + LinkBase) + link[|LinkBase|..] by {
      assert link == LinkBase + link[|LinkBase|..];
    }
    assert t[..lo] == LinkPrefix + LinkBase;
    assert t[lo..] == link[|LinkBase|..];
    t
  }

  /** The chat id a welcome text announces, if it is one. */
  function ChatIdOfWelcome(text: string): Option<int> {
    var lo, hi := |WelcomePrefix|, |text| - |WelcomeSuffix|;
    if lo <= hi && text[..lo] == WelcomePrefix && text[hi..] == WelcomeSuffix
    then Decimal.ToInt(text[lo..hi])
    else None
  }

  /** The chat id a link reply is for, if it is one. */
  function ChatIdOfLink(text: string): Option<int> {
    var lo := |LinkPrefix + LinkBase|;
    if lo <= |text| && text[..lo] == LinkPrefix + LinkBase
    then Decimal.ToInt(text[lo..])
    else None
  }

  /** The rejection carries no link. */
  lemma RejectionIsNoLink()
    ensures ChatIdOfLink(RejectText) == None
  {
    assert |RejectText| < |LinkPrefix + LinkBase|;
  }

  /** A link reply is never the rejection. */
  lemma LinkTextIsNotRejection(chatId: int)
    ensures LinkText(chatId) != RejectText
  {
    RejectionIsNoLink();
  }

  /** Two chats never receive the same link. */
  lemma LinksAreUnique(a: int, b: int)
    ensures LinkFor(a) == LinkFor(b) <==> a == b
  {
    if LinkFor(a) == LinkFor(b) {
      assert Decimal.ToInt(LinkFor(a)[|LinkBase|..]) == Some(b);
    }
  }

  // ---------------------------------------------------------------- handlers

  /**
   * The paid check of `getlink`: an entry exists and says paid.  Once every
   * session is paid, it depends only on key membership.
   */
  predicate IsPaid(store: Store, chatId: int): (paid: bool)
    ensures paid ==> chatId in store
    ensures AllPaid(store) ==> (paid <==> chatId in store)
  {
    chatId in store && store[chatId].paid
  }

  /** Runs handler `h` for chat `chatId` on `store`: new store and reply. */
  function Handle(h: Handler, store: Store, chatId: int): (r: (Store, Reply))
    ensures h != UploadScreenshot && h != ClearChat ==> r.0 == store
    ensures forall k :: k != chatId ==> SameEntry(store, r.0, k)
    ensures AllPaid(store) ==> AllPaid(r.0)
  {
    match h
    case Start => (store, Reply(WelcomeText(chatId), OneTime(StartMenu)))
    case StartBot => (store, Reply(PaymentText, OneTime(PaymentMenu)))
    case PayUsingUpi => (store, Reply(UpiText, NoKeyboard))
    case GetQr => (store, Reply(QrText, NoKeyboard))
    case UploadScreenshot => (store[chatId := Session(true)], Reply(PaidText, OneTime(PaidMenu)))
    case GetLink =>
      (store, Reply(if IsPaid(store, chatId) then LinkText(chatId) else RejectText, NoKeyboard))
    case ClearChat =>
      (if chatId in store then store - {chatId} else store, Reply(ClearedText, NoKeyboard))
    case CloseBot => (store, Reply(ClosedText, NoKeyboard))
  }

  /** One update: route it, run the handler if any, send its one reply. */
  function Step(store: Store, msg: Message): (r: Outcome)
    ensures r.reply == None <==> Route(msg.trigger) == None
    ensures Route(msg.trigger) != Some(UploadScreenshot) && Route(msg.trigger) != Some(ClearChat)
            ==> r.store == store
    ensures forall k :: k != msg.chatId ==> SameEntry(store, r.store, k)
    ensures AllPaid(store) ==> AllPaid(r.store)
  {
    match Route(msg.trigger)
    case None => Outcome(store, None)
    case Some(h) =>
      var (s, reply) := Handle(h, store, msg.chatId);
      Outcome(s, Some(reply))
  }

  /** A photo marks its chat paid and touches no other chat. */
  lemma PhotoMarksPaid(store: Store, chatId: int)
    ensures var r := Step(store, Message(chatId, Photo)).store;
      && chatId in r && r[chatId] == Session(true)
      && forall k :: k != chatId ==> SameEntry(store, r, k)
  {
  }

  /** `getlink` answers with the chat's link when paid, else with the rejection. */
  lemma GetLinkReply(store: Store, chatId: int)
    ensures var r := Step(store, Message(chatId, Command("getlink")));
      && r.store == store
      && r.reply == Some(Reply(if IsPaid(store, chatId) then LinkText(chatId) else RejectText, NoKeyboard))
      && ChatIdOfLink(r.reply.value.text) == (if IsPaid(store, chatId) then Some(chatId) else None)
  {
    RejectionIsNoLink();
  }

  /** `clearchat` removes the chat's entry (if any) and always confirms. */
  lemma ClearChatForgets(store: Store, chatId: int)
    ensures var r := Step(store, Message(chatId, Command("clearchat")));
      && r.store.Keys == store.Keys - {chatId}
      && (forall k :: k != chatId ==> SameEntry(store, r.store, k))
      && r.reply == Some(Reply(ClearedText, NoKeyboard))
      && (chatId !in store ==> r.store == store)
  {
  }

  /** Clearing twice leaves the same store as clearing once. */
  lemma ClearChatIdempotent(store: Store, chatId: int)
    ensures var clear := Message(chatId, Command("clearchat"));
      Step(Step(store, clear).store, clear) == Step(store, clear)
  {
  }

  /** `getlink` straight after `clearchat` is rejected. */
  lemma ClearThenGetLinkRejected(store: Store, chatId: int)
    ensures var s := Step(store, Message(chatId, Command("clearchat"))).store;
      Step(s, Message(chatId, Command("getlink"))).reply == Some(Reply(RejectText, NoKeyboard))
  {
  }

  /** `getlink` straight after a photo returns the chat's link. */
  lemma PhotoThenGetLink(store: Store, chatId: int)
    ensures var s := Step(store, Message(chatId, Photo)).store;
      Step(s, Message(chatId, Command("getlink"))).reply == Some(Reply(LinkText(chatId), NoKeyboard))
  {
  }

  /** The three payment aliases behave identically. */
  lemma PaymentAliasesAgree(store: Store, chatId: int, a: string, b: string)
    requires a in Tokens(StartBot) && b in Tokens(StartBot)
    ensures Step(store, Message(chatId, Command(a))) == Step(store, Message(chatId, Command(b)))
    ensures Step(store, Message(chatId, Command(a))) == Outcome(store, Some(Reply(PaymentText, OneTime(PaymentMenu))))
  {
  }

  /** Every keyboard button is "/" followed by a routed command token. */
  ghost predicate ButtonsRouted(kb: Keyboard) {
    kb.OneTime? ==>
      forall i, j :: 0 <= i < |kb.rows| && 0 <= j < |kb.rows[i]| ==>
        var b := kb.rows[i][j]; |b| >= 2 && b[0] == '/' && Route(Command(b[1..])).Some?
  }

  /** The menus offer only commands the router knows. */
  lemma MenusAreRouted(h: Handler, store: Store, chatId: int)
    ensures ButtonsRouted(Handle(h, store, chatId).1.keyboard)
  {
    assert "/startbot"[1..] == "startbot" && "/paynow"[1..] == "paynow" && "/buypremium"[1..] == "buypremium";
    assert "/getqr"[1..] == "getqr" && "/payusingupi"[1..] == "payusingupi";
    assert "/getlink"[1..] == "getlink" && "/clearchat"[1..] == "clearchat" && "/closebot"[1..] == "closebot";
  }

  // ---------------------------------------------------------------- the bot

  /** The running bot: its only state is `user_data`. */
  class Bot {
    var userData: Store

    ghost predicate Valid()
      reads this
    {
      AllPaid(userData)
    }

    constructor ()
      ensures Valid() && userData == map[]
    {
      userData := map[];
    }

    method Start(chatId: int) returns (reply: Reply)
      ensures reply.text == WelcomeText(chatId) && reply.keyboard == OneTime(StartMenu)
      ensures ChatIdOfWelcome(reply.text) == Some(chatId)
    {
      reply := Reply(WelcomeText(chatId), OneTime(StartMenu));
    }

    method StartBot() returns (reply: Reply)
      ensures reply == Reply(PaymentText, OneTime(PaymentMenu))
    {
      reply := Reply(PaymentText, OneTime(PaymentMenu));
    }

    method PayUsingUpi() returns (reply: Reply)
      ensures reply == Reply(UpiText, NoKeyboard)
    {
      reply := Reply(UpiText, NoKeyboard);
    }

    method GetQr() returns (reply: Reply)
      ensures reply == Reply(QrText, NoKeyboard)
    {
      reply := Reply(QrText, NoKeyboard);
    }

    method UploadScreenshot(chatId: int) returns (reply: Reply)
      modifies this
      ensures userData == old(userData)[chatId := Session(true)]
      ensures old(Valid()) ==> Valid()
      ensures reply == Reply(PaidText, OneTime(PaidMenu))
    {
      userData := userData[chatId := Session(true)];
      reply := Reply(PaidText, OneTime(PaidMenu));
    }

    method GetLink(chatId: int) returns (reply: Reply)
      ensures IsPaid(userData, chatId) ==> reply.text == LinkText(chatId)
      ensures !IsPaid(userData, chatId) ==> reply.text == RejectText
      ensures ChatIdOfLink(reply.text) == (if IsPaid(userData, chatId) then Some(chatId) else None)
      ensures Valid() ==> (reply.text == LinkText(chatId) <==> chatId in userData)
      ensures reply.keyboard == NoKeyboard
    {
      RejectionIsNoLink();
      LinkTextIsNotRejection(chatId);
      if chatId in userData && userData[chatId].paid {
        reply := Reply(LinkText(chatId), NoKeyboard);
      } else {
        reply := Reply(RejectText, NoKeyboard);
      }
    }

    method ClearChat(chatId: int) returns (reply: Reply)
      modifies this
      ensures userData == old(userData) - {chatId}
      ensures old(Valid()) ==> Valid()
      ensures reply == Reply(ClearedText, NoKeyboard)
    {
      if chatId in userData {
        userData := userData - {chatId};
      }
      reply := Reply(ClearedText, NoKeyboard);
    }

    method CloseBot() returns (reply: Reply)
      ensures reply == Reply(ClosedText, NoKeyboard)
    {
      reply := Reply(ClosedText, NoKeyboard);
    }

    /** Processes one update as the framework does: route, then one handler. */
    method Dispatch(msg: Message) returns (reply: Option<Reply>)
      modifies this
      ensures Outcome(userData, reply) == Step(old(userData), msg)
      ensures old(Valid()) ==> Valid()
    {
      var c := msg.chatId;
      match Route(msg.trigger)
      case None =>
        reply := None;
      case Some(h) =>
        var r: Reply;
        match h {
          case Start => r := Start(c);
          case StartBot => r := StartBot();
          case PayUsingUpi => r := PayUsingUpi();
          case GetQr => r := GetQr();
          case UploadScreenshot => r := UploadScreenshot(c);
          case GetLink => r := GetLink(c);
          case ClearChat => r := ClearChat(c);
          case CloseBot => r := CloseBot();
        }
        reply := Some(r);
    }
  }
}
