/**
 * Sequences of updates processed one after the other against `user_data`:
 * what the store holds after them, and the replies sent.
 */
module Conversation {
  import opened Wrappers
  import Decimal
  import opened PaymentBot

  /** The store after processing `msgs` in order, starting from `store`. */
  function Replay(store: Store, msgs: seq<Message>): Store
    decreases |msgs|
  {
    if msgs == [] then store
    else Step(Replay(store, msgs[..|msgs| - 1]), msgs[|msgs| - 1]).store
  }

  /** The replies sent while processing `msgs`, one slot per update. */
  function Transcript(store: Store, msgs: seq<Message>): (r: seq<Option<Reply>>)
    ensures |r| == |msgs|
    decreases |msgs|
  {
    if msgs == [] then []
    else
      var before := msgs[..|msgs| - 1];
      Transcript(store, before) + [Step(Replay(store, before), msgs[|msgs| - 1]).reply]
  }

  /**
   * Slot i of the transcript is the reply to `msgs[i]` on the store left by
   * the updates before it, and it is present exactly when a handler took
   * `msgs[i]`.
   */
  lemma {:induction false} TranscriptAt(store: Store, msgs: seq<Message>, i: nat)
    requires i < |msgs|
    ensures Transcript(store, msgs)[i] == Step(Replay(store, msgs[..i]), msgs[i]).reply
    ensures Transcript(store, msgs)[i].Some? <==> Route(msgs[i].trigger).Some?
    decreases |msgs|
  {
    var n := |msgs| - 1;
    var before := msgs[..n];
    var t := Transcript(store, msgs);
    assert t == Transcript(store, before) + [Step(Replay(store, before), msgs[n]).reply];
    if i < n {
      TranscriptAt(store, before, i);
      assert before[..i] == msgs[..i];
      assert t[i] == Transcript(store, before)[i];
    }
  }

  /** `m` is a photo from chat `c`. */
  predicate Marks(m: Message, c: int) {
    m.chatId == c && Route(m.trigger) == Some(UploadScreenshot)
  }

  /** `m` is a `clearchat` from chat `c`. */
  predicate Clears(m: Message, c: int) {
    m.chatId == c && Route(m.trigger) == Some(ClearChat)
  }

  /** No `clearchat` from `c` among `msgs[from..]`. */
  ghost predicate NoClearFrom(msgs: seq<Message>, from: int, c: int) {
    forall j :: from <= j < |msgs| && 0 <= j ==> !Clears(msgs[j], c)
  }

  /**
   * Chat `c` has a session after `msgs`: it sent a photo not followed by a
   * clear, or it had one before and never cleared.
   */
  ghost predicate HasSession(store: Store, msgs: seq<Message>, c: int) {
    || (exists i :: 0 <= i < |msgs| && Marks(msgs[i], c) && NoClearFrom(msgs, i + 1, c))
    || (c in store && NoClearFrom(msgs, 0, c))
  }

  /** The store's keys are exactly the chats that uploaded since their last clear. */
  lemma {:induction false} ReplayMembership(store: Store, msgs: seq<Message>, c: int)
    ensures c in Replay(store, msgs) <==> HasSession(store, msgs, c)
    decreases |msgs|
  {
    if msgs != [] {
      var n := |msgs| - 1;
      var before, m := msgs[..n], msgs[n];
      ReplayMembership(store, before, c);
      var s := Replay(store, before);
      assert Replay(store, msgs) == Step(s, m).store;
      assert forall j :: 0 <= j < n ==> msgs[j] == before[j];
      if Marks(m, c) {
        assert c in Step(s, m).store;
        assert NoClearFrom(msgs, n + 1, c);
      } else if Clears(m, c) {
        assert c !in Step(s, m).store;
        assert !NoClearFrom(msgs, 0, c);
        forall i | 0 <= i < |msgs| && Marks(msgs[i], c) ensures !NoClearFrom(msgs, i + 1, c) {
          assert i < n;
        }
      } else {
        assert c in Step(s, m).store <==> c in s by {
          if m.chatId == c {
            assert Route(m.trigger) != Some(UploadScreenshot) && Route(m.trigger) != Some(ClearChat);
          } else {
            assert SameEntry(s, Step(s, m).store, c);
          }
        }
        if HasSession(store, before, c) {
          if c in store && NoClearFrom(before, 0, c) {
            assert NoClearFrom(msgs, 0, c);
          } else {
            var i :| 0 <= i < |before| && Marks(before[i], c) && NoClearFrom(before, i + 1, c);
            assert Marks(msgs[i], c) && NoClearFrom(msgs, i + 1, c);
          }
        }
        if HasSession(store, msgs, c) {
          if c in store && NoClearFrom(msgs, 0, c) {
            assert NoClearFrom(before, 0, c);
          } else {
            var i :| 0 <= i < |msgs| && Marks(msgs[i], c) && NoClearFrom(msgs, i + 1, c);
            assert i < n;
            assert Marks(before[i], c) && NoClearFrom(before, i + 1, c);
          }
        }
      }
    }
  }

  /** No update ever stores a session that is not paid. */
  lemma {:induction false} ReplayKeepsAllPaid(store: Store, msgs: seq<Message>)
    requires AllPaid(store)
    ensures AllPaid(Replay(store, msgs))
    decreases |msgs|
  {
    if msgs != [] {
      ReplayKeepsAllPaid(store, msgs[..|msgs| - 1]);
    }
  }

  /**
   * From a fresh start, `getlink` returns the chat's link exactly when the
   * chat uploaded a photo since its last clear, and the rejection otherwise.
   */
  lemma GetLinkAfter(msgs: seq<Message>, c: int)
    ensures var s := Replay(map[], msgs);
      Step(s, Message(c, Command("getlink"))).reply
        == Some(Reply(if HasSession(map[], msgs, c) then LinkText(c) else RejectText, NoKeyboard))
  {
    ReplayMembership(map[], msgs, c);
    ReplayKeepsAllPaid(map[], msgs);
  }

  /** A chat that never sent a photo is always rejected. */
  lemma NoPhotoNoLink(msgs: seq<Message>, c: int)
    requires forall i :: 0 <= i < |msgs| ==> !Marks(msgs[i], c)
    ensures Step(Replay(map[], msgs), Message(c, Command("getlink"))).reply
            == Some(Reply(RejectText, NoKeyboard))
  {
    GetLinkAfter(msgs, c);
  }

  /** An update no handler takes sends nothing and changes nothing. */
  lemma UnroutedIsSilent(store: Store, msg: Message)
    requires Route(msg.trigger) == None
    ensures Step(store, msg) == Outcome(store, None)
  {
  }

  /** A message that is neither a command nor a photo sends nothing and changes nothing. */
  lemma OtherIsSilent(store: Store, chatId: int)
    ensures Step(store, Message(chatId, Other)) == Outcome(store, None)
  {
  }

  /** Processing one more update extends the store and the transcript by one step. */
  lemma Extend(store: Store, msgs: seq<Message>, m: Message)
    ensures Replay(store, msgs + [m]) == Step(Replay(store, msgs), m).store
    ensures Transcript(store, msgs + [m])
            == Transcript(store, msgs) + [Step(Replay(store, msgs), m).reply]
  {
    assert (msgs + [m])[..|msgs|] == msgs;
  }

  lemma FortyTwoText()
    ensures Decimal.FromInt(42) == "42"
  {
    assert Decimal.DigitChar(4) == '4' && Decimal.DigitChar(2) == '2';
    assert Decimal.FromNat(42) == Decimal.FromNat(4) + [Decimal.DigitChar(2)];
  }

  lemma WelcomeText42()
    ensures WelcomeText(42) == "Welcome! Your Chat ID is: 42\nChoose an option:"
  {
    FortyTwoText();
  }

  lemma LinkText42()
    ensures LinkText(42) == "Here is your link: https://insstagram-4pwg.onrender.com/42"
  {
    assert LinkPrefix + (LinkBase + "42") == "Here is your link: https://insstagram-4pwg.onrender.com/42";
    FortyTwoText();
  }

  /** Chat 42 pays, fetches its link, clears and is rejected. */
  lemma Chat42Session()
    ensures Transcript(map[], [
        Message(42, Command("start")),
        Message(42, Photo),
        Message(42, Command("getlink")),
        Message(42, Command("clearchat")),
        Message(42, Command("getlink"))])
      == [
        Some(Reply("Welcome! Your Chat ID is: 42\nChoose an option:", OneTime(StartMenu))),
        Some(Reply("Payment verified! Choose an option:", OneTime(PaidMenu))),
        Some(Reply("Here is your link: https://insstagram-4pwg.onrender.com/42", NoKeyboard)),
        Some(Reply("Chat history cleared. You can restart by typing /start.", NoKeyboard)),
        Some(Reply("Please complete the payment first.", NoKeyboard))]
  {
    var start, photo := Message(42, Command("start")), Message(42, Photo);
    var getlink, clear := Message(42, Command("getlink")), Message(42, Command("clearchat"));
    WelcomeText42();
    LinkText42();
    var m0: seq<Message> := [];
    Extend(map[], m0, start);
    var m1 := m0 + [start];
    Extend(map[], m1, photo);
    var m2 := m1 + [photo];
    assert Replay(map[], m2) == map[42 := Session(true)];
    Extend(map[], m2, getlink);
    var m3 := m2 + [getlink];
    Extend(map[], m3, clear);
    var m4 := m3 + [clear];
    assert Replay(map[], m4) == map[];
    Extend(map[], m4, getlink);
    assert m4 + [getlink] == [start, photo, getlink, clear, getlink];
  }
}
