/**
 * The demo application's chat messages: `Message`, the generator
 * `sampleTexts`, and the adapter's mapping from messages to view types
 * (`ChatAdapter.getItemViewType`). Together they give the decoration a
 * concrete list to group, checked end to end below.
 */
module DataModels {
  import opened ClippingDecoration

  datatype Message = Message(content: string, isMine: bool)

  /** `ChatAdapter`'s two view types. */
  const OUTGOING_MESSAGE_TYPE: int := 0
  const INCOMING_MESSAGE_TYPE: int := 1

  const MINE_PREFIX: string := "Hello, this is my message number "
  const MINE_SUFFIX: string := ". This can be a very long message to test how the bubble wraps."
  const REPLY: string := "This is a reply."

  // ---------------------------------------------------------------------
  // Decimal rendering of an Int, as in Kotlin's "$it"
  // ---------------------------------------------------------------------

  predicate IsDigit(c: char)
  {
    '0' as int <= c as int <= '9' as int
  }

  function DigitChar(d: int): (c: char)
    requires 0 <= d < 10
    ensures IsDigit(c) && c as int - '0' as int == d
  {
    (d + '0' as int) as char
  }

  /** The decimal digits of `n`, without leading zeros. */
  function DecimalString(n: nat): (s: string)
    ensures 1 <= |s| && forall k :: 0 <= k < |s| ==> IsDigit(s[k])
    ensures s[0] == '0' ==> n == 0
  {
    if n < 10 then [DigitChar(n)] else DecimalString(n / 10) + [DigitChar(n % 10)]
  }

  function DigitValue(c: char): (d: nat)
    requires IsDigit(c)
    ensures d < 10 && DigitChar(d) == c
  {
    c as int - '0' as int
  }

  /** Reads a string of decimal digits back as a number. */
  function ParseDecimal(s: string): nat
    requires forall k :: 0 <= k < |s| ==> IsDigit(s[k])
  {
    if s == [] then 0
    else ParseDecimal(s[..|s| - 1]) * 10 + DigitValue(s[|s| - 1])
  }

  /** The rendering is faithful: the number can be read back from its digits. */
  lemma {:induction false} ParseDecimalString(n: nat)
    ensures ParseDecimal(DecimalString(n)) == n
  {
    var s := DecimalString(n);
    if n >= 10 {
      ParseDecimalString(n / 10);
      assert s[..|s| - 1] == DecimalString(n / 10);
    }
  }

  /** `sub` occurs in `s` starting at index `at`. */
  predicate ContainsAt(s: string, sub: string, at: int)
  {
    0 <= at && at + |sub| <= |s| && s[at..at + |sub|] == sub
  }

  // ---------------------------------------------------------------------
  // The sample messages
  // ---------------------------------------------------------------------

  /** The message with 1-based index `i`: every third one is a reply. */
  function SampleMessage(i: nat): (m: Message)
    ensures m.isMine <==> i % 3 != 0
    ensures !m.isMine ==> m.content == REPLY
    ensures m.isMine ==>
      && ContainsAt(m.content, DecimalString(i), |MINE_PREFIX|)
      && m.content[..|MINE_PREFIX|] == MINE_PREFIX
      && m.content[|MINE_PREFIX| + |DecimalString(i)|..] == MINE_SUFFIX
  {
    var isMine := i % 3 != 0;
    var content := if isMine then MINE_PREFIX + DecimalString(i) + MINE_SUFFIX else REPLY;
    Message(content, isMine)
  }

  /**
   * `sampleTexts()`: twenty messages; the i-th (from 1) is mine unless i is
   * a multiple of three; replies read "This is a reply."; each of my
   * messages names its own number right after the fixed opening words.
   */
  function SampleTexts(): (msgs: seq<Message>)
    ensures |msgs| == 20
    ensures forall k :: 0 <= k < |msgs| ==> (msgs[k].isMine <==> (k + 1) % 3 != 0)
    ensures forall k :: 0 <= k < |msgs| && !msgs[k].isMine ==> msgs[k].content == REPLY
    ensures forall k :: 0 <= k < |msgs| && msgs[k].isMine ==>
      ContainsAt(msgs[k].content, DecimalString(k + 1), |MINE_PREFIX|)
  {
    var msgs := seq(20, k requires 0 <= k < 20 => SampleMessage(k + 1));
    msgs
  }

  /** The 1-based numbers of the messages that are replies. */
  function ReplyNumbers(msgs: seq<Message>): set<int>
  {
    set k | 0 <= k < |msgs| && !msgs[k].isMine :: k + 1
  }

  /** Exactly six sample messages are replies: numbers 3, 6, 9, 12, 15 and 18. */
  lemma SampleReplyNumbers()
    ensures ReplyNumbers(SampleTexts()) == {3, 6, 9, 12, 15, 18}
    ensures |ReplyNumbers(SampleTexts())| == 6
  {
    var msgs := SampleTexts();
    var replies := ReplyNumbers(msgs);
    forall i | i in replies
      ensures i in {3, 6, 9, 12, 15, 18}
    {
      var k :| 0 <= k < |msgs| && !msgs[k].isMine && i == k + 1;
    }
    forall i | i in {3, 6, 9, 12, 15, 18}
      ensures i in replies
    {
      assert !msgs[i - 1].isMine;
    }
  }

  // ---------------------------------------------------------------------
  // The chat list as the decoration sees it
  // ---------------------------------------------------------------------

  /** `ChatAdapter.getItemViewType`: my messages are outgoing, the others incoming. */
  function ItemViewType(m: Message): (t: int)
    ensures t == OUTGOING_MESSAGE_TYPE <==> m.isMine
    ensures t == OUTGOING_MESSAGE_TYPE || t == INCOMING_MESSAGE_TYPE
  {
    if m.isMine then OUTGOING_MESSAGE_TYPE else INCOMING_MESSAGE_TYPE
  }

  /** The adapter's view types, position by position. */
  function ViewTypes(msgs: seq<Message>): (types: seq<int>)
    ensures |types| == |msgs|
    ensures forall k :: 0 <= k < |msgs| ==> types[k] == ItemViewType(msgs[k])
  {
    seq(|msgs|, k requires 0 <= k < |msgs| => ItemViewType(msgs[k]))
  }

  /** The demo's decoration: outgoing bubbles primary, incoming ones secondary. */
  function ChatDecoration(style: DecorationStyle): Decoration
  {
    Decoration(style, {OUTGOING_MESSAGE_TYPE}, {INCOMING_MESSAGE_TYPE})
  }

  /** The view types "out, out, in" repeated over twenty positions. */
  function SampleChatTypes(): (types: seq<int>)
    ensures |types| == 20 && forall j :: 0 <= j < 20 ==> types[j] == ChatTypeAt(j)
  {
    seq(20, j requires 0 <= j < 20 => ChatTypeAt(j))
  }

  /** Over the sample list the view types repeat "out, out, in" from the top. */
  lemma SampleViewTypes()
    ensures ViewTypes(SampleTexts()) == SampleChatTypes()
  {
    var (msgs, types) := (SampleTexts(), ViewTypes(SampleTexts()));
    forall k | 0 <= k < 20
      ensures types[k] == ChatTypeAt(k)
    {
      assert (k + 1) % 3 != 0 <==> k % 3 != 2;
    }
  }

  /** The view type at 0-based position `k` of the sample chat. */
  function ChatTypeAt(k: int): int
  {
    if k % 3 == 2 then INCOMING_MESSAGE_TYPE else OUTGOING_MESSAGE_TYPE
  }

  /**
   * The bubbles of the sample chat: each pair of my messages is grouped on
   * the right (the first rounded regularly on top, the second regularly at
   * the bottom, the shared corners grouped), every reply stands alone with
   * four regular corners, and only the second message of each pair gets the
   * grouped top margin.
   */
  lemma SampleChatBubbles(style: DecorationStyle, k: int)
    requires 0 <= k < 20
    ensures
      var (dec, types) := (ChatDecoration(style), ViewTypes(SampleTexts()));
      && |types| == 20
      && ShapeAt(dec, types, k) == ChatShapeAt(k)
      && TopMarginGrouping(types, k, types[k]) == (if k % 3 == 1 then Grouped else Regular)
  {
    SampleViewTypes();
    ChatPatternBubbles(ChatDecoration(style), ViewTypes(SampleTexts()), k);
  }

  /** The shapes and margins of any twenty-item list with the sample's view types. */
  lemma ChatPatternBubbles(dec: Decoration, types: seq<int>, k: int)
    requires dec.primaryViewTypes == {OUTGOING_MESSAGE_TYPE}
    requires |types| == 20 && forall j :: 0 <= j < 20 ==> types[j] == ChatTypeAt(j)
    requires 0 <= k < 20
    ensures ShapeAt(dec, types, k) == ChatShapeAt(k)
    ensures TopMarginGrouping(types, k, types[k]) == (if k % 3 == 1 then Grouped else Regular)
  {
    var prev := PrevIsSameType(types, k, types[k]);
    var next := NextIsSameType(types, k, types[k]);
    if k % 3 == 0 {
      assert types[k] == OUTGOING_MESSAGE_TYPE && !prev;
      assert next by { assert types[k + 1] == ChatTypeAt(k + 1); }
    } else if k % 3 == 1 {
      assert types[k] == OUTGOING_MESSAGE_TYPE;
      assert prev by { assert types[k - 1] == ChatTypeAt(k - 1); }
      assert !next by { if k < 19 { assert types[k + 1] == ChatTypeAt(k + 1); } }
    } else {
      assert types[k] == INCOMING_MESSAGE_TYPE;
      assert !prev by { assert types[k - 1] == ChatTypeAt(k - 1); }
      assert !next by { assert types[k + 1] == ChatTypeAt(k + 1); }
    }
  }

  /**
   * What `onDraw` draws over any twenty-item list with the sample's view
   * types: the k-th clip-and-draw has the corners `ChatShapeAt` gives for
   * the position of the k-th decorated child.
   */
  lemma ChatPatternDrawn(dec: Decoration, types: seq<int>, list: ListView, children: seq<ChildView>, k: int)
    requires dec.primaryViewTypes == {OUTGOING_MESSAGE_TYPE}
    requires |types| == 20 && forall j :: 0 <= j < 20 ==> types[j] == ChatTypeAt(j)
    requires ChildrenKnown(types, children) && HoldersMatchAdapter(types, children)
    requires 0 <= k < |DecoratedChildren(dec, children)|
    ensures
      var (ops, c) := (DrawOps(dec, types, list, children), DecoratedChildren(dec, children)[k]);
      && k < |ops|
      && 0 <= c.holder.value.adapterPosition < 20
      && ops[k].radii == CornerRadii(dec.style, ChatShapeAt(c.holder.value.adapterPosition))
  {
    DrawOpsPerDecoratedChild(dec, types, list, children);
    var c := DecoratedChildren(dec, children)[k];
    assert c in children;
    ClipForCorners(dec, types, list, c);
    ChatPatternBubbles(dec, types, c.holder.value.adapterPosition);
  }

  /** The same for the sample chat itself, with outgoing bubbles primary. */
  lemma SampleChatDrawn(style: DecorationStyle, list: ListView, children: seq<ChildView>, k: int)
    requires ChildrenKnown(SampleChatTypes(), children)
    requires HoldersMatchAdapter(SampleChatTypes(), children)
    requires 0 <= k < |DecoratedChildren(ChatDecoration(style), children)|
    ensures
      var dec := ChatDecoration(style);
      var (ops, c) := (DrawOps(dec, ViewTypes(SampleTexts()), list, children), DecoratedChildren(dec, children)[k]);
      && k < |ops|
      && 0 <= c.holder.value.adapterPosition < 20
      && ops[k].radii == CornerRadii(style, ChatShapeAt(c.holder.value.adapterPosition))
  {
    SampleViewTypes();
    ChatPatternDrawn(ChatDecoration(style), SampleChatTypes(), list, children, k);
  }

  /** The expected corners at 0-based position `k` of the sample chat. */
  function ChatShapeAt(k: int): Corners<Grouping>
  {
    if k % 3 == 0 then Corners(Regular, Regular, Grouped, Regular)
    else if k % 3 == 1 then Corners(Regular, Grouped, Regular, Regular)
    else Corners(Regular, Regular, Regular, Regular)
  }
}
