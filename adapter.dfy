/** The Trovo bot adapter's message path: inbound, a received WebSocket
    frame is decoded, filtered, stamped with routing data and handed to the
    middleware; outbound, activities are typed into the chat input one by
    one. */
module Adapter {
  import opened Bytes
  import opened Frames
  import opened Messages
  import opened Transport

  /** The fixed recipient id written on every inbound activity. */
  const BotRecipientId: string := "999999999"

  /** A chat object once it is treated as an activity: processActivity
      writes two of its fields in place. */
  class Activity {
    var text: string
    var displayName: string
    var history: bool
    var recipientId: string
    var serviceURL: string
    var conversationId: string

    constructor FromChat(c: Chat)
      ensures Snapshot() == c
    {
      text, displayName, history := c.text, c.displayName, c.history;
      recipientId, serviceURL, conversationId := c.recipientId, c.serviceURL, c.conversationId;
    }

    /** The current field values. */
    function Snapshot(): (c: Chat)
      reads this
    {
      Chat(text, displayName, history, recipientId, serviceURL, conversationId)
    }
  }

  /** The activity as processActivity leaves it. */
  function Stamped(c: Chat, href: string): (r: Chat)
    ensures r.recipientId == BotRecipientId && r.serviceURL == href
    ensures r.text == c.text && r.displayName == c.displayName && r.history == c.history
    ensures r.conversationId == c.conversationId
  {
    c.(recipientId := BotRecipientId, serviceURL := href)
  }

  /** Stamping twice is stamping once. */
  lemma StampIdempotent(c: Chat, href: string)
    ensures Stamped(Stamped(c, href), href) == Stamped(c, href)
  {
  }

  /** Stamping does not change whether the filter accepts the chat. */
  lemma StampKeepsVerdict(c: Chat, href: string, botName: string)
    ensures Accepts(Stamped(c, href), botName) == Accepts(c, botName)
  {
  }

  /** The stamp overwrites the routing fields: chats that differ only there stamp alike. */
  lemma StampForgetsRouting(c: Chat, d: Chat, href: string)
    requires c.text == d.text && c.displayName == d.displayName && c.history == d.history
    requires c.conversationId == d.conversationId
    ensures Stamped(c, href) == Stamped(d, href)
  {
  }

  /** The activities one received frame hands to the middleware: none, or
      the stamped chat decoded from its blob. */
  function Dispatched(kind: PayloadType, buf: seq<Byte>, decode: seq<Byte> -> Option<Chat>,
                      botName: string, href: string): (r: seq<Chat>)
    ensures |r| <= 1
    ensures forall a :: a in r ==> Routed(a, botName, href)
  {
    match Handle(kind, buf)
    case Blob(data) =>
      (match FilterChat(decode(data), botName)
       case Some(c) => [Stamped(c, href)]
       case None => [])
    case _ => []
  }

  /** A dispatched activity is stamped and comes from a live chat by someone else. */
  predicate Routed(a: Chat, botName: string, href: string)
  {
    a.recipientId == BotRecipientId && a.serviceURL == href && Accepts(a, botName)
  }

  /** A frame dispatches exactly one activity if it is a binary chat frame
      whose blob decodes to a chat the filter accepts, and none otherwise. */
  lemma DispatchedIff(kind: PayloadType, buf: seq<Byte>, decode: seq<Byte> -> Option<Chat>,
                      botName: string, href: string, a: Chat)
    ensures Dispatched(kind, buf, decode, botName, href) == [a]
        <==> exists data, c :: Handle(kind, buf) == Blob(data) && decode(data) == Some(c)
                               && Accepts(c, botName) && a == Stamped(c, href)
  {
    var r := Handle(kind, buf);
    if r.Blob? && decode(r.data).Some? && Accepts(decode(r.data).value, botName) {
      assert Dispatched(kind, buf, decode, botName, href) == [Stamped(decode(r.data).value, href)];
    }
  }

  /** Text frames and non-chat frames dispatch nothing. */
  lemma IgnoredFramesDispatchNothing(kind: PayloadType, buf: seq<Byte>, decode: seq<Byte> -> Option<Chat>,
                                     botName: string, href: string)
    requires !Handle(kind, buf).Blob?
    ensures Dispatched(kind, buf, decode, botName, href) == []
  {
  }

  /** The adapter with its configuration and the two logs the model observes. */
  class TrovoAdapter {
    /** process.env.BOTNAME */
    const botName: string
    /** this.url.href, the chat channel URL */
    const href: string
    /** TrovoMessage.read(new pbf(blob)).chat; None for a null chat or a decode failure */
    const decode: seq<Byte> -> Option<Chat>
    const page: Page
    /** Activities handed to runMiddleware, in the order processActivity was called. */
    var turns: seq<Chat>

    ghost predicate Valid()
      reads this
    {
      forall i :: 0 <= i < |turns| ==> Routed(turns[i], botName, href)
    }

    constructor (botName: string, href: string, decode: seq<Byte> -> Option<Chat>)
      ensures Valid() && turns == [] && fresh(page) && page.log == []
      ensures this.botName == botName && this.href == href && this.decode == decode
    {
      this.botName, this.href, this.decode := botName, href, decode;
      page := new Page();
      turns := [];
    }

    /** The Network.webSocketFrameReceived listener. */
    method OnFrameReceived(wsOpcode: int, payload: seq<Byte>)
      requires Valid()
      modifies this
      ensures Valid()
      ensures turns == old(turns) + Dispatched(Classify(wsOpcode), payload, decode, botName, href)
    {
      HandlePayload(Classify(wsOpcode), payload);
    }

    /** _handle */
    method HandlePayload(kind: PayloadType, buf: seq<Byte>)
      requires Valid()
      modifies this
      ensures Valid()
      ensures turns == old(turns) + Dispatched(kind, buf, decode, botName, href)
    {
      var frame := Handle(kind, buf);
      if frame.Blob? {
        MessageToActivity(frame.data);
      }
    }

    /** _messageToActivity */
    method MessageToActivity(blob: seq<Byte>)
      requires Valid()
      modifies this
      ensures Valid()
      ensures turns == old(turns) + (match FilterChat(decode(blob), botName)
                                     case Some(c) => [Stamped(c, href)]
                                     case None => [])
    {
      var chat := decode(blob);
      if chat.None? || chat.value.history || chat.value.displayName == botName {
        return;
      }
      var activity := new Activity.FromChat(chat.value);
      ProcessActivity(activity);
    }

    /** processActivity: stamp the routing fields in place, then run the middleware. */
    method ProcessActivity(activity: Activity)
      modifies activity, this`turns
      ensures activity.Snapshot() == Stamped(old(activity.Snapshot()), href)
      ensures turns == old(turns) + [activity.Snapshot()]
      ensures Valid() <==> old(Valid()) && Accepts(old(activity.Snapshot()), botName)
    {
      ghost var prev := turns;
      activity.recipientId := BotRecipientId;
      activity.serviceURL := href;
      turns := turns + [activity.Snapshot()];
      assert forall i :: 0 <= i < |prev| ==> turns[i] == prev[i];
      assert Valid() <==> (forall i :: 0 <= i < |prev| ==> Routed(prev[i], botName, href))
                          && Routed(turns[|prev|], botName, href);
    }

    /** sendActivities: each activity's text is filled in and submitted before the next. */
    method SendActivities(activities: seq<Activity>)
      modifies page
      ensures page.log == old(page.log) + Rendering(Texts(activities))
    {
      ghost var texts := Texts(activities);
      var i := 0;
      while i < |activities|
        invariant 0 <= i <= |activities|
        invariant page.log == old(page.log) + Rendering(texts[..i])
      {
        var activity := activities[i];
        assert activity.text == texts[i];
        page.Fill(activity.text);
        page.PressEnter();
        assert texts[..i + 1] == texts[..i] + [texts[i]];
        RenderingSnoc(texts[..i], texts[i]);
        i := i + 1;
      }
      assert texts[..|activities|] == texts;
    }
  }

  /** The texts of a list of activities, in order. */
  function Texts(activities: seq<Activity>): (r: seq<string>)
    reads activities
    ensures |r| == |activities|
    ensures forall k :: 0 <= k < |activities| ==> r[k] == activities[k].text
  {
    if activities == [] then []
    else Texts(activities[..|activities| - 1]) + [activities[|activities| - 1].text]
  }

  /** Nothing de-duplicates: the same chat frame received twice reaches the
      middleware twice. */
  method ReplayedFrameDispatchedTwice() returns (turns: seq<Chat>)
    ensures |turns| == 2 && turns[0] == turns[1]
    ensures turns[0].text == "hello" && turns[0].recipientId == BotRecipientId
    ensures turns[0].serviceURL == "https://trovo.live/chat/somebody"
  {
    var viewer := Chat("hello", "Viewer1", false, "", "", "c1");
    var adapter := new TrovoAdapter("BotName", "https://trovo.live/chat/somebody", _ => Some(viewer));
    var header: seq<Byte> := seq(HeaderEnd, _ => 0);
    var frame := MakeFrame(ChatDataOpcode, header, [7, 7]);
    DecodeMadeChatFrame(header, [7, 7]);
    adapter.OnFrameReceived(2, frame);
    adapter.OnFrameReceived(2, frame);
    assert adapter.turns == [Stamped(viewer, adapter.href), Stamped(viewer, adapter.href)];
    turns := adapter.turns;
  }

  /** The same frame received twice, for any adapter, opcode and payload,
      is dispatched twice: the log gains its dispatch once per reception. */
  method ReceiveTwice(adapter: TrovoAdapter, wsOpcode: int, payload: seq<Byte>)
    requires adapter.Valid()
    modifies adapter
    ensures adapter.Valid()
    ensures var d := Dispatched(Classify(wsOpcode), payload, adapter.decode, adapter.botName, adapter.href);
      adapter.turns == old(adapter.turns) + d + d
  {
    adapter.OnFrameReceived(wsOpcode, payload);
    adapter.OnFrameReceived(wsOpcode, payload);
  }
}
