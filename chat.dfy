/**
 * The chat panel of a conference: how each received message is labelled, how a submit is
 * guarded, and how the unread badge is derived from the message list and a "last read" marker.
 */
module Chat {
  import opened Wrappers
  import opened Layout

  /** A received chat message: its sender (None when the message carries none), text and send time in epoch milliseconds. */
  datatype ChatMessage = ChatMessage(from: Option<string>, message: string, timestamp: int)

  /** Timestamps never decrease along the list. */
  ghost predicate Chronological(msgs: seq<ChatMessage>)
  {
    forall i, j :: 0 <= i <= j < |msgs| ==> msgs[i].timestamp <= msgs[j].timestamp
  }

  // ---------------------------------------------------------------------------------------
  // Per-message labels
  // ---------------------------------------------------------------------------------------

  /** Two messages from one sender closer together than this many milliseconds share a timestamp label. */
  const TimestampGroupingMs: int := 60_000

  /** The two label props the message list passes to the entry it renders. */
  datatype EntryLabels = EntryLabels(hideName: bool, hideTimestamp: bool)

  /**
   * The labels of the message at index idx of the list. The sender's name is always shown;
   * the timestamp is hidden exactly when the previous message has the same sender and was
   * sent less than a minute earlier.
   */
  function EntryLabelsAt(msgs: seq<ChatMessage>, idx: nat): (r: EntryLabels)
    requires idx < |msgs|
    ensures !r.hideName
    ensures r.hideTimestamp <==>
              idx >= 1 && msgs[idx - 1].from == msgs[idx].from
              && msgs[idx].timestamp - msgs[idx - 1].timestamp < TimestampGroupingMs
  {
    var sameSender := idx >= 1 && msgs[idx - 1].from == msgs[idx].from;
    var withinGap := idx >= 1 && msgs[idx].timestamp - msgs[idx - 1].timestamp < TimestampGroupingMs;
    EntryLabels(false, if sameSender == false then false else withinGap)
  }

  /** Messages j+1..idx all come from the sender of message j, each less than a minute after the one before. */
  ghost predicate SameSenderRun(msgs: seq<ChatMessage>, j: nat, idx: nat)
    requires j <= idx < |msgs|
  {
    forall k :: j < k <= idx ==>
      (msgs[k].from == msgs[j].from && msgs[k].timestamp - msgs[k - 1].timestamp < TimestampGroupingMs)
  }

  /**
   * A message whose timestamp is hidden always sits in a run of messages from one sender,
   * each less than a minute after the one before, and that run starts at a message whose
   * timestamp is shown: no group of messages is left without a time anchor.
   */
  lemma {:induction false} TimestampAnchored(msgs: seq<ChatMessage>, idx: nat)
    requires idx < |msgs| && EntryLabelsAt(msgs, idx).hideTimestamp
    ensures exists j :: 0 <= j < idx && !EntryLabelsAt(msgs, j).hideTimestamp && SameSenderRun(msgs, j, idx)
  {
    var prev := idx - 1;
    if !EntryLabelsAt(msgs, prev).hideTimestamp {
      assert SameSenderRun(msgs, prev, idx);
    } else {
      TimestampAnchored(msgs, prev);
      var j :| 0 <= j < prev && !EntryLabelsAt(msgs, j).hideTimestamp && SameSenderRun(msgs, j, prev);
      assert SameSenderRun(msgs, j, idx) by {
        forall k | j < k <= idx
          ensures msgs[k].from == msgs[j].from && msgs[k].timestamp - msgs[k - 1].timestamp < TimestampGroupingMs
        {
          if k < idx {
            assert SameSenderRun(msgs, j, prev);
          } else {
            assert msgs[prev].from == msgs[j].from;
          }
        }
      }
    }
  }

  /**
   * The name label is shown on every message, yet a quick follow-up from the same sender
   * has its timestamp hidden: a shown name does not imply a shown timestamp.
   */
  lemma NameShownTimestampHidden()
    ensures var msgs := [ChatMessage(Some("alice"), "hi", 1_000), ChatMessage(Some("alice"), "again", 1_100)];
            EntryLabelsAt(msgs, 1) == EntryLabels(false, true)
  {
  }

  // ---------------------------------------------------------------------------------------
  // Submit guard
  // ---------------------------------------------------------------------------------------

  /** The characters JavaScript's `String.prototype.trim` removes: white space and line terminators. */
  predicate IsWhitespace(c: char)
  {
    || c == '\t' || c == '\U{000B}' || c == '\U{000C}' || c == ' ' || c == '\U{00A0}' || c == '\U{FEFF}'
    || c == '\U{1680}' || ('\U{2000}' <= c <= '\U{200A}') || c == '\U{202F}' || c == '\U{205F}' || c == '\U{3000}'
    || c == '\n' || c == '\r' || c == '\U{2028}' || c == '\U{2029}'
  }

  /** s holds nothing but white space (possibly nothing at all). */
  predicate IsBlank(s: string)
  {
    forall i :: 0 <= i < |s| ==> IsWhitespace(s[i])
  }

  /** s without its leading white space. */
  function TrimStart(s: string): (r: string)
    ensures |r| <= |s| && r == s[|s| - |r|..]
    ensures forall i :: 0 <= i < |s| - |r| ==> IsWhitespace(s[i])
    ensures r != [] ==> !IsWhitespace(r[0])
  {
    if s != [] && IsWhitespace(s[0]) then TrimStart(s[1..]) else s
  }

  /** s without its trailing white space. */
  function TrimEnd(s: string): (r: string)
    ensures |r| <= |s| && r == s[..|r|]
    ensures forall i :: |r| <= i < |s| ==> IsWhitespace(s[i])
    ensures r != [] ==> !IsWhitespace(r[|r| - 1])
  {
    if s != [] && IsWhitespace(s[|s| - 1]) then TrimEnd(s[..|s| - 1]) else s
  }

  /**
   * `s.trim()`: s without leading and trailing white space. It is empty exactly when s holds
   * nothing but white space, and otherwise it starts and ends with a visible character.
   */
  function Trim(s: string): (r: string)
    ensures r == [] <==> IsBlank(s)
    ensures r != [] ==> !IsWhitespace(r[0]) && !IsWhitespace(r[|r| - 1])
  {
    var t := TrimStart(s);
    var r := TrimEnd(t);
    r
  }

  /** The text box of the chat form. */
  class InputElement {
    var value: string
    var focused: bool

    constructor (value: string)
      ensures this.value == value && !focused
    {
      this.value := value;
      focused := false;
    }
  }

  /** The `send` the chat hook offers: none yet, or one whose transmission resolves or rejects. */
  datatype SendCapability = NoSend | Send(resolves: bool)

  /** What a submit did: nothing, a text handed to `send` that went out, or one whose `send` rejected. */
  datatype SubmitOutcome = NothingSent | Sent(text: string) | SendRejected(text: string)

  /**
   * The outcome of submitting the text box's value: the value is handed to `send` exactly
   * when it has a visible character and `send` is available, and it is handed over unchanged.
   */
  function SubmitResult(value: string, send: SendCapability): (r: SubmitOutcome)
    ensures !r.NothingSent? <==> send.Send? && !IsBlank(value)
    ensures !r.NothingSent? ==> r.text == value
    ensures r.Sent? <==> !r.NothingSent? && send.resolves
  {
    if Trim(value) == "" then NothingSent
    else match send
      case NoSend => NothingSent
      case Send(resolves) => if resolves then Sent(value) else SendRejected(value)
  }

  // ---------------------------------------------------------------------------------------
  // Unread accounting
  // ---------------------------------------------------------------------------------------

  /** A message is unread against the marker when nothing has been read (marker 0) or it is newer than the marker. */
  predicate IsUnread(msg: ChatMessage, lastReadMsgAt: int)
  {
    lastReadMsgAt == 0 || msg.timestamp > lastReadMsgAt
  }

  /** The unread messages of the list, in list order. */
  function UnreadMessages(msgs: seq<ChatMessage>, lastReadMsgAt: int): (r: seq<ChatMessage>)
    ensures |r| <= |msgs|
    ensures forall m :: m in r <==> m in msgs && IsUnread(m, lastReadMsgAt)
  {
    if msgs == [] then []
    else (if IsUnread(msgs[0], lastReadMsgAt) then [msgs[0]] else []) + UnreadMessages(msgs[1..], lastReadMsgAt)
  }

  /** The number of unread messages of the list. */
  function UnreadCount(msgs: seq<ChatMessage>, lastReadMsgAt: int): (n: nat)
    ensures n <= |msgs|
    ensures n == 0 <==> forall i :: 0 <= i < |msgs| ==> !IsUnread(msgs[i], lastReadMsgAt)
  {
    var unread := UnreadMessages(msgs, lastReadMsgAt);
    assert unread != [] ==> unread[0] in msgs;
    assert forall i :: 0 <= i < |msgs| && IsUnread(msgs[i], lastReadMsgAt) ==> msgs[i] in unread;
    |unread|
  }

  /** Filtering a concatenation filters each part in turn: the unread list keeps the list's order. */
  lemma {:induction false} UnreadMessagesAppend(a: seq<ChatMessage>, b: seq<ChatMessage>, lastReadMsgAt: int)
    ensures UnreadMessages(a + b, lastReadMsgAt) == UnreadMessages(a, lastReadMsgAt) + UnreadMessages(b, lastReadMsgAt)
  {
    if a != [] {
      assert (a + b)[1..] == a[1..] + b;
      UnreadMessagesAppend(a[1..], b, lastReadMsgAt);
    } else {
      assert a + b == b;
    }
  }

  /** A newly arrived message adds one to the count exactly when it is unread; nothing else changes it. */
  lemma UnreadCountOnArrival(msgs: seq<ChatMessage>, msg: ChatMessage, lastReadMsgAt: int)
    ensures UnreadCount(msgs + [msg], lastReadMsgAt)
            == UnreadCount(msgs, lastReadMsgAt) + (if IsUnread(msg, lastReadMsgAt) then 1 else 0)
  {
    UnreadMessagesAppend(msgs, [msg], lastReadMsgAt);
    assert [msg][1..] == [];
  }

  /** While nothing has been read, every message is unread. */
  lemma {:induction false} NothingReadCountsAll(msgs: seq<ChatMessage>)
    ensures UnreadMessages(msgs, 0) == msgs
    ensures UnreadCount(msgs, 0) == |msgs|
  {
    if msgs != [] {
      NothingReadCountsAll(msgs[1..]);
      assert [msgs[0]] + msgs[1..] == msgs;
    }
  }

  /** Once the marker holds the (non-zero) timestamp of the last message of a chronological list, nothing is unread. */
  lemma CaughtUpCountsNone(msgs: seq<ChatMessage>)
    requires Chronological(msgs) && msgs != [] && msgs[|msgs| - 1].timestamp != 0
    ensures UnreadCount(msgs, msgs[|msgs| - 1].timestamp) == 0
  {
    var last := |msgs| - 1;
    forall i | 0 <= i < |msgs| ensures !IsUnread(msgs[i], msgs[last].timestamp) {
      assert msgs[i].timestamp <= msgs[last].timestamp;
    }
  }

  /** The widget part of the layout context as the chat panel sees it: its state, if any, and whether it can dispatch. */
  datatype WidgetContext = WidgetContext(state: Option<WidgetState>, hasDispatch: bool)

  /** `widget.state?.showChat`, with a missing state read as false. */
  predicate ShowChat(widget: WidgetContext)
  {
    widget.state.Some? && widget.state.value.showChat
  }

  /** `widget.state?.unreadMessages`: the stored badge count, if there is a state. */
  function StoredUnread(widget: WidgetContext): Option<int>
  {
    if widget.state.Some? then Some(widget.state.value.unreadMessages) else None
  }

  /** The marker after one run of the unread effect, and the count dispatched as `unread_msg`, if any. */
  datatype UnreadOutcome = UnreadOutcome(lastReadMsgAt: int, dispatched: Option<int>)

  /**
   * One run of the unread effect. Without a layout context or without messages it does nothing.
   * With the panel open and the last message not yet marked, it marks that message read and stops.
   * Otherwise it counts the unread messages and dispatches the count when it is positive,
   * differs from the stored one and a dispatcher exists.
   */
  function UnreadEffect(lastReadMsgAt: int, layout: Option<WidgetContext>, msgs: seq<ChatMessage>): (r: UnreadOutcome)
    ensures layout.None? || msgs == [] ==> r == UnreadOutcome(lastReadMsgAt, None)
    ensures layout.Some? && ShowChat(layout.value) && msgs != [] && lastReadMsgAt != msgs[|msgs| - 1].timestamp
            ==> r == UnreadOutcome(msgs[|msgs| - 1].timestamp, None)
    ensures r.lastReadMsgAt != lastReadMsgAt ==> r.dispatched.None?
    ensures layout.Some? && msgs != [] && !(ShowChat(layout.value) && lastReadMsgAt != msgs[|msgs| - 1].timestamp) ==>
              && r.lastReadMsgAt == lastReadMsgAt
              && (r.dispatched.Some? <==>
                    && UnreadCount(msgs, lastReadMsgAt) > 0
                    && StoredUnread(layout.value) != Some(UnreadCount(msgs, lastReadMsgAt))
                    && layout.value.hasDispatch)
    ensures r.dispatched.Some? ==>
              && r.dispatched.value == UnreadCount(msgs, lastReadMsgAt) > 0
              && layout.Some? && layout.value.hasDispatch
              && StoredUnread(layout.value) != r.dispatched
  {
    if layout.None? || |msgs| == 0 then UnreadOutcome(lastReadMsgAt, None)
    else if ShowChat(layout.value) && lastReadMsgAt != msgs[|msgs| - 1].timestamp then
      UnreadOutcome(msgs[|msgs| - 1].timestamp, None)
    else
      var count := UnreadCount(msgs, lastReadMsgAt);
      if count > 0 && StoredUnread(layout.value) != Some(count) && layout.value.hasDispatch then
        UnreadOutcome(lastReadMsgAt, Some(count))
      else
        UnreadOutcome(lastReadMsgAt, None)
  }

  /** The widget context once the layout reducer has recorded a dispatched `unread_msg` count. */
  function Recorded(layout: Option<WidgetContext>, dispatched: Option<int>): Option<WidgetContext>
  {
    if layout.Some? && dispatched.Some? then
      Some(WidgetContext(Some(WidgetState(ShowChat(layout.value), dispatched.value)), layout.value.hasDispatch))
    else layout
  }

  /**
   * Re-running the effect on the same chronological messages, after the widget has recorded
   * what the first run dispatched, leaves the marker alone and dispatches nothing.
   */
  lemma UnreadEffectSettles(lastReadMsgAt: int, layout: Option<WidgetContext>, msgs: seq<ChatMessage>)
    requires Chronological(msgs) && (msgs != [] ==> msgs[|msgs| - 1].timestamp != 0)
    ensures var r := UnreadEffect(lastReadMsgAt, layout, msgs);
            UnreadEffect(r.lastReadMsgAt, Recorded(layout, r.dispatched), msgs) == UnreadOutcome(r.lastReadMsgAt, None)
  {
    var r := UnreadEffect(lastReadMsgAt, layout, msgs);
    if layout.Some? && msgs != [] && r.lastReadMsgAt != lastReadMsgAt {
      CaughtUpCountsNone(msgs);
    }
  }

  /**
   * On any messages, whatever their timestamps, the effect settles within two runs: once the
   * widget has recorded what each run dispatched, the third run changes nothing and dispatches nothing.
   */
  lemma UnreadEffectSettlesWithinTwoRuns(lastReadMsgAt: int, layout: Option<WidgetContext>, msgs: seq<ChatMessage>)
    ensures var r1 := UnreadEffect(lastReadMsgAt, layout, msgs);
            var layout1 := Recorded(layout, r1.dispatched);
            var r2 := UnreadEffect(r1.lastReadMsgAt, layout1, msgs);
            UnreadEffect(r2.lastReadMsgAt, Recorded(layout1, r2.dispatched), msgs) == UnreadOutcome(r2.lastReadMsgAt, None)
  {
  }

  /**
   * While the panel is open, a chronological list whose last timestamp is not 0 never causes
   * an `unread_msg` dispatch: the run either marks the last message read or finds nothing unread.
   */
  lemma OpenPanelNeverDispatches(lastReadMsgAt: int, layout: Option<WidgetContext>, msgs: seq<ChatMessage>)
    requires layout.Some? && ShowChat(layout.value)
    requires Chronological(msgs) && (msgs != [] ==> msgs[|msgs| - 1].timestamp != 0)
    ensures UnreadEffect(lastReadMsgAt, layout, msgs).dispatched.None?
  {
    if msgs != [] && lastReadMsgAt == msgs[|msgs| - 1].timestamp {
      CaughtUpCountsNone(msgs);
    }
  }

  /**
   * The marker value 0 also means "nothing read": when the last message is stamped 0 the marker
   * cannot move off 0, so with the panel open that message is still counted and dispatched as unread.
   */
  lemma ZeroTimestampStaysUnread()
    ensures var layout := Some(WidgetContext(Some(WidgetState(true, 0)), true));
            UnreadEffect(0, layout, [ChatMessage(Some("bob"), "hello", 0)]) == UnreadOutcome(0, Some(1))
  {
    NothingReadCountsAll([ChatMessage(Some("bob"), "hello", 0)]);
  }

  /**
   * Timestamps come from the senders' clocks and need not be chronological: with the panel
   * open and the last message already marked, an earlier message stamped later is still
   * counted and dispatched as unread.
   */
  lemma OutOfOrderStaysUnread()
    ensures var layout := Some(WidgetContext(Some(WidgetState(true, 0)), true));
            var msgs := [ChatMessage(Some("carol"), "early", 2_000), ChatMessage(Some("dave"), "late", 1_000)];
            UnreadEffect(1_000, layout, msgs) == UnreadOutcome(1_000, Some(1))
  {
    var msgs := [ChatMessage(Some("carol"), "early", 2_000), ChatMessage(Some("dave"), "late", 1_000)];
    assert UnreadMessages(msgs, 1_000) == [msgs[0]] by {
      assert msgs[1..][1..] == [];
    }
  }

  // ---------------------------------------------------------------------------------------
  // The chat panel component
  // ---------------------------------------------------------------------------------------

  /** The chat panel's own state: its text box reference and the "last read" marker. */
  class ChatPanel {
    /** The text box the form reads, or null before it is mounted. */
    var inputRef: InputElement?
    /** Timestamp of the last message seen with the panel open; 0 means nothing has been read. */
    var lastReadMsgAt: int

    constructor (input: InputElement?)
      ensures inputRef == input && lastReadMsgAt == 0
    {
      inputRef := input;
      lastReadMsgAt := 0;
    }

    /**
     * Submitting the form: a value with a visible character is handed to an available `send`;
     * the text box is cleared and focused only once that send has resolved.
     */
    method HandleSubmit(send: SendCapability) returns (outcome: SubmitOutcome)
      modifies inputRef
      ensures inputRef == null ==> outcome == NothingSent
      ensures inputRef != null ==> outcome == SubmitResult(old(inputRef.value), send)
      ensures inputRef != null ==>
                && inputRef.value == (if outcome.Sent? then "" else old(inputRef.value))
                && inputRef.focused == (outcome.Sent? || old(inputRef.focused))
    {
      outcome := NothingSent;
      var input := inputRef;
      if input != null {
        var value := input.value;
        if Trim(value) != "" && send.Send? {
          if send.resolves {
            outcome := Sent(value);
            input.value := "";
            input.focused := true;
          } else {
            outcome := SendRejected(value);
          }
        }
        assert outcome == SubmitResult(value, send);
      }
    }

    /** One run of the unread effect, triggered by a change of the messages or of the widget. */
    method OnMessagesOrWidgetChanged(layout: Option<WidgetContext>, msgs: seq<ChatMessage>) returns (dispatched: Option<int>)
      modifies this`lastReadMsgAt
      ensures UnreadOutcome(lastReadMsgAt, dispatched) == UnreadEffect(old(lastReadMsgAt), layout, msgs)
    {
      dispatched := None;
      if layout.None? || |msgs| == 0 {
        return;
      }
      var widget := layout.value;
      var lastTimestamp := msgs[|msgs| - 1].timestamp;
      if ShowChat(widget) && lastReadMsgAt != lastTimestamp {
        lastReadMsgAt := lastTimestamp;
        return;
      }
      var unreadMessageCount := |UnreadMessages(msgs, lastReadMsgAt)|;
      if unreadMessageCount > 0 && StoredUnread(widget) != Some(unreadMessageCount) && widget.hasDispatch {
        dispatched := Some(unreadMessageCount);
      }
    }
  }
}
