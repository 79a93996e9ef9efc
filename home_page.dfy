/** The demo chat page of src/app/page.tsx (`Home`): a message list that a
    send extends with the user's message and a loading placeholder, and that a
    timer callback clears of placeholders before it appends a fixed reply.
    Each reading of `Date.now()` is a parameter. */
module HomePage {
  import opened Wrappers
  import Text

  datatype Message = Message(id: string, content: string, isUser: bool, isLoading: Option<bool>)

  const ReplyText := "¡Hola! ¿En qué puedo ayudarte hoy?"
  const LoadingIdPrefix := "loading-"

  /** `msg.isLoading` is truthy. */
  predicate Loading(m: Message)
  {
    m.isLoading == Some(true)
  }

  function UserMessage(now: nat, content: string): Message
  {
    Message(Text.NatToString(now), content, true, None)
  }

  function LoadingMessage(now: nat): Message
  {
    Message(LoadingIdPrefix + Text.NatToString(now), "", false, Some(true))
  }

  function ReplyMessage(now: nat): Message
  {
    Message(Text.NatToString(now), ReplyText, false, None)
  }

  /** `prev.filter(msg => !msg.isLoading)` */
  function RemoveLoading(ms: seq<Message>): (r: seq<Message>)
    ensures |r| <= |ms|
    ensures forall i :: 0 <= i < |r| ==> !Loading(r[i])
    ensures forall m :: m in r ==> m in ms
  {
    if ms == [] then []
    else (if Loading(ms[0]) then [] else [ms[0]]) + RemoveLoading(ms[1..])
  }

  /** The two updaters of handleSendMessage, applied in order; `userNow` and
      `loadingNow` are the two readings of `Date.now()`. */
  function AfterSend(ms: seq<Message>, content: string, userNow: nat, loadingNow: nat): (r: seq<Message>)
    ensures |r| == |ms| + 2 && r[..|ms|] == ms
    ensures r[|ms|].content == content && r[|ms|].isUser && !Loading(r[|ms|])
    ensures r[|ms| + 1].content == "" && !r[|ms| + 1].isUser && Loading(r[|ms| + 1])
    ensures r[|ms| + 1].id != r[|ms|].id
  {
    var r := ms + [UserMessage(userNow, content)] + [LoadingMessage(loadingNow)];
    assert r[|ms| + 1].id[0] == 'l';
    r
  }

  /** The two updaters of the timer callback, applied in order. */
  function AfterTimer(ms: seq<Message>, now: nat): (r: seq<Message>)
    ensures |r| >= 1 && r[|r| - 1] == ReplyMessage(now) && !r[|r| - 1].isUser
    ensures forall i :: 0 <= i < |r| ==> !Loading(r[i])
  {
    RemoveLoading(ms) + [ReplyMessage(now)]
  }

  /** `messages.length > 0 ? … : …`: the welcome view with the empty composer
      instead of the message list. */
  predicate ShowsWelcome(ms: seq<Message>)
  {
    !(|ms| > 0)
  }

  /** What changes the list: a send, with its two clock readings, or a reply
      timer firing. */
  datatype PageEvent = Send(content: string, userNow: nat, loadingNow: nat) | ReplyTimer(now: nat)

  function Step(ms: seq<Message>, e: PageEvent): seq<Message>
  {
    match e
    case Send(content, userNow, loadingNow) => AfterSend(ms, content, userNow, loadingNow)
    case ReplyTimer(now) => AfterTimer(ms, now)
  }

  /** The list after the events, in the order they happen. */
  function Run(ms: seq<Message>, events: seq<PageEvent>): seq<Message>
    decreases |events|
  {
    if events == [] then ms else Run(Step(ms, events[0]), events[1..])
  }

  // ---------------------------------------------------------------------------
  // The filter

  lemma {:induction false} RemoveLoadingAppend(x: seq<Message>, y: seq<Message>)
    ensures RemoveLoading(x + y) == RemoveLoading(x) + RemoveLoading(y)
  {
    if x == [] {
      assert x + y == y;
    } else {
      assert (x + y)[0] == x[0];
      assert (x + y)[1..] == x[1..] + y;
      RemoveLoadingAppend(x[1..], y);
    }
  }

  /** The filter keeps a non-loading message in its place relative to the rest
      and drops a loading one. */
  lemma RemoveLoadingAround(x: seq<Message>, m: Message, y: seq<Message>)
    ensures !Loading(m) ==> RemoveLoading(x + [m] + y) == RemoveLoading(x) + [m] + RemoveLoading(y)
    ensures Loading(m) ==> RemoveLoading(x + [m] + y) == RemoveLoading(x) + RemoveLoading(y)
  {
    RemoveLoadingAppend(x + [m], y);
    RemoveLoadingAppend(x, [m]);
    RemoveLoadingOne(m);
  }

  lemma RemoveLoadingOne(m: Message)
    ensures RemoveLoading([m]) == if Loading(m) then [] else [m]
  {
    assert [m][1..] == [];
  }

  /** The filter changes the list exactly when it holds a loading message. */
  lemma {:induction false} RemoveLoadingIdentityIff(ms: seq<Message>)
    ensures RemoveLoading(ms) == ms <==> forall i :: 0 <= i < |ms| ==> !Loading(ms[i])
  {
    if ms != [] {
      RemoveLoadingIdentityIff(ms[1..]);
      if Loading(ms[0]) {
        assert |RemoveLoading(ms)| < |ms|;
      } else {
        assert RemoveLoading(ms) == [ms[0]] + RemoveLoading(ms[1..]);
        if RemoveLoading(ms) == ms {
          assert RemoveLoading(ms[1..]) == ms[1..];
        }
        assert ms == [ms[0]] + ms[1..];
      }
    }
  }

  /** Every non-loading message is kept as often as it occurs; every loading
      one is dropped. */
  lemma {:induction false} RemoveLoadingCounts(ms: seq<Message>, m: Message)
    ensures !Loading(m) ==> multiset(RemoveLoading(ms))[m] == multiset(ms)[m]
    ensures Loading(m) ==> multiset(RemoveLoading(ms))[m] == 0
  {
    if ms != [] {
      RemoveLoadingCounts(ms[1..], m);
      assert ms == [ms[0]] + ms[1..];
    }
  }

  // ---------------------------------------------------------------------------
  // Sends and callbacks together

  /** The welcome view shows exactly while the list is empty, which no event
      has yet changed; once anything has happened (the first send, and every
      event after it) the welcome view never returns: a send adds two
      messages and a timer leaves at least its reply. */
  lemma {:induction false} WelcomeOnlyAtStart(ms: seq<Message>, events: seq<PageEvent>)
    ensures Run(ms, []) == ms && (ShowsWelcome(ms) <==> ms == [])
    ensures events != [] ==> !ShowsWelcome(Run(ms, events))
    decreases |events|
  {
    if events != [] {
      var next := Step(ms, events[0]);
      assert |next| > 0;
      if events[1..] != [] {
        WelcomeOnlyAtStart(next, events[1..]);
      }
    }
  }

  /** The callback removes every placeholder, not only the one its own send
      added: after two sends, the first callback leaves both user messages
      and its reply; the second callback only appends its reply. */
  lemma {:induction false} TwoSendsTwoCallbacks(ms: seq<Message>, a: string, b: string,
                                                 t1: nat, l1Now: nat, t2: nat, l2Now: nat, t3: nat, t4: nat)
    requires forall i :: 0 <= i < |ms| ==> !Loading(ms[i])
    ensures var afterSends := AfterSend(AfterSend(ms, a, t1, l1Now), b, t2, l2Now);
      && AfterTimer(afterSends, t3) == ms + [UserMessage(t1, a), UserMessage(t2, b), ReplyMessage(t3)]
      && AfterTimer(AfterTimer(afterSends, t3), t4)
         == ms + [UserMessage(t1, a), UserMessage(t2, b), ReplyMessage(t3), ReplyMessage(t4)]
  {
    var u1, l1, u2, l2 := UserMessage(t1, a), LoadingMessage(l1Now), UserMessage(t2, b), LoadingMessage(l2Now);
    var afterSends := AfterSend(AfterSend(ms, a, t1, l1Now), b, t2, l2Now);
    assert afterSends == ms + [u1, l1, u2, l2];
    RemoveLoadingIdentityIff(ms);
    RemoveLoadingAppend(ms, [u1, l1, u2, l2]);
    RemoveLoadingAlternating(u1, l1, u2, l2);
    var once := AfterTimer(afterSends, t3);
    assert once == ms + [u1, u2, ReplyMessage(t3)];
    RemoveLoadingIdentityIff(once);
  }

  /** Two sends' worth of messages, user and placeholder in turn, filter down
      to the two user messages. */
  lemma {:induction false} RemoveLoadingAlternating(u1: Message, l1: Message, u2: Message, l2: Message)
    requires !Loading(u1) && Loading(l1) && !Loading(u2) && Loading(l2)
    ensures RemoveLoading([u1, l1, u2, l2]) == [u1, u2]
  {
    assert [u1, l1, u2, l2] == [u1] + [l1] + [u2] + [l2];
    RemoveLoadingAppend([u1] + [l1] + [u2], [l2]);
    RemoveLoadingAppend([u1] + [l1], [u2]);
    RemoveLoadingAppend([u1], [l1]);
    RemoveLoadingOne(u1);
    RemoveLoadingOne(l1);
    RemoveLoadingOne(u2);
    RemoveLoadingOne(l2);
  }

  // ---------------------------------------------------------------------------
  // The component instance

  class Home {
    var messages: seq<Message>

    constructor ()
      ensures messages == []
    {
      messages := [];
    }

    /** handleSendMessage; each `Date.now()` is a parameter. */
    method HandleSendMessage(content: string, userNow: nat, loadingNow: nat)
      modifies this
      ensures messages == AfterSend(old(messages), content, userNow, loadingNow)
    {
      var userMessage := Message(Text.NatToString(userNow), content, true, None);
      messages := messages + [userMessage];
      var loadingMessage := Message(LoadingIdPrefix + Text.NatToString(loadingNow), "", false, Some(true));
      messages := messages + [loadingMessage];
    }

    /** The `setTimeout` callback, run 1500 ms after a send. */
    method OnReplyTimer(now: nat)
      modifies this
      ensures messages == AfterTimer(old(messages), now)
    {
      messages := RemoveLoading(messages);
      var aiMessage := Message(Text.NatToString(now), ReplyText, false, None);
      messages := messages + [aiMessage];
    }
  }
}
