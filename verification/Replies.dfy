/** Labeled responses and batches: `ReplyBuffer` of ellidri-tokens/src/buffers.rs. */
module Replies {
  import opened Text
  import opened Tags
  import opened Messages
  import opened Builders

  function Digit(n: nat): char
    requires n < 10
  {
    ('0' as int + n) as char
  }

  function Decimal(n: nat): string
  {
    if n < 10 then [Digit(n)] else Decimal(n / 10) + [Digit(n % 10)]
  }

  /** A reply before the buffer adds its own tags. */
  datatype Draft = Draft(clientTags: string, prefix: string, command: Command, params: seq<string>, trailing: Option<string>)

  /** What a handler does with the buffer. */
  datatype Op = Send(draft: Draft) | BatchBegin

  /** Who is answered: the server, and the label of the request (empty when it has none). */
  datatype Context = Context(domain: string, labelText: string)

  const MAX_LABEL_LENGTH := 64

  /** The label of a request: the value of its first label tag, still escaped, if it is not too long. */
  function LabelOf(tags: seq<Tag>): string
  {
    if tags == [] then ""
    else if tags[0].key != "label" then LabelOf(tags[1..])
    else if tags[0].value.Some? && |tags[0].value.value| <= MAX_LABEL_LENGTH then tags[0].value.value
    else ""
  }

  datatype State = State(lines: seq<Line>, batch: Option<nat>, hasLabel: bool)

  function LabelTag(cx: Context): TagItem { Pair("label", Some(cx.labelText)) }
  function BatchTag(n: nat): TagItem { Pair("batch", Some(Decimal(n))) }

  /** A draft with the given tags after its client tags. */
  function WithTags(d: Draft, tags: seq<TagItem>): Line
  {
    Line(ClientItems(Split(d.clientTags, ';')) + tags, d.prefix, d.command, d.params, d.trailing)
  }

  function OpenLine(cx: Context, n: nat): Line
  {
    Line([LabelTag(cx)], cx.domain, Other("BATCH"), ["+" + Decimal(n), "labeled-response"], None)
  }

  function Closing(cx: Context, n: nat): Draft
  {
    Draft("", cx.domain, Other("BATCH"), ["-" + Decimal(n)], None)
  }

  function Ack(cx: Context): Draft
  {
    Draft("", cx.domain, Other("ACK"), [], None)
  }

  function Start(cx: Context): State
  {
    State([], None, cx.labelText != "")
  }

  /** The tags the next message gets. */
  function ExtraTags(cx: Context, s: State): seq<TagItem>
  {
    match (s.hasLabel, s.batch)
    case (true, None) => [LabelTag(cx)]
    case (true, Some(n)) => [LabelTag(cx), BatchTag(n)]
    case (false, None) => []
    case (false, Some(n)) => [BatchTag(n)]
  }

  /** `tagged_message`: the pending label once, the current batch always. */
  function Tagged(cx: Context, s: State, d: Draft): State
  {
    State(s.lines + [WithTags(d, ExtraTags(cx, s))], s.batch, false)
  }

  /** `lr_batch_begin`: does nothing once the label is used. */
  function Begin(cx: Context, s: State): State
  {
    if !s.hasLabel then s
    else
      var n := if s.batch.Some? then s.batch.value + 1 else 0;
      State(s.lines + [OpenLine(cx, n)], Some(n), false)
  }

  function BatchEnd(cx: Context, s: State): State
  {
    if s.batch.None? then s
    else
      var prev := s.batch.value;
      Tagged(cx, s.(batch := if prev == 0 then None else Some(prev - 1)), Closing(cx, prev))
  }

  /** The state in which `lr_end` would panic. */
  predicate Panics(cx: Context, s: State)
  {
    BatchEnd(cx, s).batch.Some?
  }

  function End(cx: Context, s: State): State
  {
    if !s.hasLabel && s.batch.None? then s
    else
      var closed := BatchEnd(cx, s);
      (if closed.lines == [] then Tagged(cx, closed, Ack(cx)) else closed).(hasLabel := false)
  }

  function Step(cx: Context, s: State, op: Op): State
  {
    match op
    case Send(d) => Tagged(cx, s, d)
    case BatchBegin => Begin(cx, s)
  }

  function Run(cx: Context, s: State, ops: seq<Op>): State
    decreases ops
  {
    if ops == [] then s else Run(cx, Step(cx, s, ops[0]), ops[1..])
  }

  // ---- what a whole response must look like

  /** The replies of a run, each with the same extra tags. */
  function Sent(ops: seq<Op>, tags: seq<TagItem>): seq<Line>
  {
    if ops == [] then []
    else (if ops[0].Send? then [WithTags(ops[0].draft, tags)] else []) + Sent(ops[1..], tags)
  }

  /** The response by its shape: plain, acknowledged, one batch around everything, or label first. */
  function Response(cx: Context, ops: seq<Op>): seq<Line>
  {
    if cx.labelText == "" then Sent(ops, [])
    else if ops == [] then [WithTags(Ack(cx), [LabelTag(cx)])]
    else match ops[0]
    case BatchBegin => [OpenLine(cx, 0)] + Sent(ops[1..], [BatchTag(0)]) + [WithTags(Closing(cx, 0), [])]
    case Send(d) => [WithTags(d, [LabelTag(cx)])] + Sent(ops[1..], [])
  }

  /** Once the label is used, every reply carries the tags of the current batch and nothing else changes. */
  lemma {:induction false} RunAfterLabel(cx: Context, s: State, ops: seq<Op>)
    requires !s.hasLabel
    ensures Run(cx, s, ops)
         == s.(lines := s.lines + Sent(ops, if s.batch.Some? then [BatchTag(s.batch.value)] else []))
    decreases ops
  {
    var tags := if s.batch.Some? then [BatchTag(s.batch.value)] else [];
    if ops == [] {
      assert s.lines + [] == s.lines;
    } else {
      StepAfterLabel(cx, s, ops[0]);
      hide Step, WithTags;
      RunAfterLabel(cx, Step(cx, s, ops[0]), ops[1..]);
      var now, later := if ops[0].Send? then [WithTags(ops[0].draft, tags)] else [], Sent(ops[1..], tags);
      assert s.lines + now + later == s.lines + (now + later);
    }
  }

  lemma StepAfterLabel(cx: Context, s: State, op: Op)
    requires !s.hasLabel
    ensures var tags := if s.batch.Some? then [BatchTag(s.batch.value)] else [];
            Step(cx, s, op) == s.(lines := s.lines + if op.Send? then [WithTags(op.draft, tags)] else [])
  {
  }

  /** Every run ended by `lr_end` writes exactly its response, closes its batch, and never panics. */
  lemma ResponseIsExact(cx: Context, ops: seq<Op>)
    ensures End(cx, Run(cx, Start(cx), ops)).lines == Response(cx, ops)
    ensures End(cx, Run(cx, Start(cx), ops)).batch.None?
    ensures !Panics(cx, Run(cx, Start(cx), ops))
  {
    hide WithTags;
    if cx.labelText == "" {
      RunAfterLabel(cx, Start(cx), ops);
      assert [] + Sent(ops, []) == Sent(ops, []);
    } else if ops != [] {
      RunAfterLabel(cx, Step(cx, Start(cx), ops[0]), ops[1..]);
      hide Sent;
      FirstStep(cx, ops[0]);
    }
  }

  lemma FirstStep(cx: Context, op: Op)
    requires cx.labelText != ""
    ensures Step(cx, Start(cx), op) == match op
                                      case Send(d) => State([WithTags(d, [LabelTag(cx)])], None, false)
                                      case BatchBegin => State([OpenLine(cx, 0)], Some(0), false)
  {
  }

  // ---- what the shape means

  predicate Labeled(cx: Context, line: Line) { LabelTag(cx) in line.tags }
  predicate InBatch(n: nat, line: Line) { BatchTag(n) in line.tags }

  lemma {:induction false} ClientItemsAreRaw(entries: seq<string>)
    ensures forall i :: i in ClientItems(entries) ==> i.Raw?
  {
    if entries != [] { ClientItemsAreRaw(entries[1..]); }
  }

  lemma WithTagsHolds(d: Draft, tags: seq<TagItem>, tag: TagItem)
    requires tag.Pair?
    ensures tag in WithTags(d, tags).tags <==> tag in tags
  {
    ClientItemsAreRaw(Split(d.clientTags, ';'));
  }

  lemma {:induction false} SentHolds(ops: seq<Op>, tags: seq<TagItem>, tag: TagItem)
    requires tag.Pair?
    ensures forall k :: 0 <= k < |Sent(ops, tags)| ==> (tag in Sent(ops, tags)[k].tags <==> tag in tags)
  {
    if ops != [] {
      SentHolds(ops[1..], tags, tag);
      if ops[0].Send? { WithTagsHolds(ops[0].draft, tags, tag); }
    }
  }

  lemma TagsDiffer(cx: Context, n: nat)
    ensures LabelTag(cx) != BatchTag(n)
  {
  }

  /** A non-empty label is on the first message and on no other. */
  lemma LabelOnFirstOnly(cx: Context, ops: seq<Op>)
    requires cx.labelText != ""
    ensures var out := Response(cx, ops);
            && out != [] && Labeled(cx, out[0])
            && forall k :: 0 < k < |out| ==> !Labeled(cx, out[k])
  {
    var tag := LabelTag(cx);
    WithTagsHolds(Ack(cx), [tag], tag);
    WithTagsHolds(Closing(cx, 0), [], tag);
    TagsDiffer(cx, 0);
    if ops != [] {
      SentHolds(ops[1..], [BatchTag(0)], tag);
      SentHolds(ops[1..], [], tag);
      if ops[0].Send? { WithTagsHolds(ops[0].draft, [tag], tag); }
    }
  }

  /** The batch, when opened, is around all replies: every message strictly between carries its id. */
  lemma BatchAroundReplies(cx: Context, ops: seq<Op>)
    requires cx.labelText != "" && ops != [] && ops[0].BatchBegin?
    ensures var out := Response(cx, ops);
            && |out| >= 2 && out[0] == OpenLine(cx, 0) && out[|out| - 1] == WithTags(Closing(cx, 0), [])
            && !InBatch(0, out[0]) && !InBatch(0, out[|out| - 1])
            && forall k :: 0 < k < |out| - 1 ==> InBatch(0, out[k])
  {
    SentHolds(ops[1..], [BatchTag(0)], BatchTag(0));
    WithTagsHolds(Closing(cx, 0), [], BatchTag(0));
    TagsDiffer(cx, 0);
  }

  /** Without a label no message gains a tag or is added. */
  lemma NoLabelNoTags(cx: Context, ops: seq<Op>, n: nat)
    requires cx.labelText == ""
    ensures forall k :: 0 <= k < |Response(cx, ops)| ==>
              !Labeled(cx, Response(cx, ops)[k]) && !InBatch(n, Response(cx, ops)[k])
  {
    SentHolds(ops, [], LabelTag(cx));
    SentHolds(ops, [], BatchTag(n));
  }

  lemma {:induction false} LabelIsTag(tags: seq<Tag>)
    requires LabelOf(tags) != ""
    ensures Tag("label", Some(LabelOf(tags))) in tags
  {
    if tags[0].key != "label" { LabelIsTag(tags[1..]); }
  }

  /**
   * The label comes back as the client sent it exactly when it holds no backslash: the value of the
   * tag is taken over escaped and escaped again, so unescaping gives the escaped text.
   */
  lemma LabelEchoed(section: string, cx: Context)
    requires ' ' !in section && '\r' !in section && '\n' !in section
    requires cx.labelText == LabelOf(ParseTags(section)) != ""
    ensures var echo := ParseTag(ItemText(LabelTag(cx)));
            && echo.key == "label" && echo.value.Some? && Unescape(echo.value.value, false) == cx.labelText
            && (echo.value.value == cx.labelText <==> '\\' !in cx.labelText)
  {
    var text := cx.labelText;
    LabelIsTag(ParseTags(section));
    ReadValuePlain(section, Tag("label", Some(text)));
    EscapeKeeps(text);
    LabelKeyOk(text);
    ItemReadsBack(LabelTag(cx));
    UnescapeEscape(text);
  }

  lemma LabelKeyOk(text: string)
    ensures ItemOk(Pair("label", Some(text)))
  {
    var key := "label";
    assert forall k :: 0 <= k < |key| ==> key[k] != ';' && key[k] != '=';
  }

  /** The buffer object. */
  class ReplyBuffer {
    const cx: Context
    var lines: seq<Line>
    var batch: Option<nat>
    var hasLabel: bool

    ghost function View(): State
      reads this
    {
      State(lines, batch, hasLabel)
    }

    constructor (cx: Context)
      ensures this.cx == cx && View() == Start(cx)
    {
      this.cx := cx;
      lines, batch, hasLabel := [], None, cx.labelText != "";
    }

    method TaggedMessage(d: Draft)
      modifies this
      ensures View() == Tagged(cx, old(View()), d)
    {
      var tags: seq<TagItem> := [];
      if hasLabel {
        hasLabel := false;
        tags := tags + [LabelTag(cx)];
      }
      if batch.Some? {
        tags := tags + [BatchTag(batch.value)];
      }
      assert tags == ExtraTags(cx, old(View()));
      lines := lines + [WithTags(d, tags)];
    }

    method NewBatch() returns (n: nat)
      modifies this`batch
      ensures n == (if old(batch).Some? then old(batch).value + 1 else 0) && batch == Some(n)
    {
      n := if batch.Some? then batch.value + 1 else 0;
      batch := Some(n);
    }

    method LrBatchBegin()
      modifies this
      ensures View() == Begin(cx, old(View()))
    {
      if !hasLabel { return; }
      hasLabel := false;
      var n := NewBatch();
      lines := lines + [OpenLine(cx, n)];
    }

    method EndBatch()
      modifies this
      ensures View() == BatchEnd(cx, old(View()))
    {
      if batch.None? { return; }
      var prev := batch.value;
      batch := if prev == 0 then None else Some(prev - 1);
      TaggedMessage(Closing(cx, prev));
    }

    method LrEnd()
      requires !Panics(cx, View())
      modifies this
      ensures View() == End(cx, old(View()))
    {
      if !hasLabel && batch.None? { return; }
      if batch.Some? { EndBatch(); }
      assert batch.None?;
      if lines == [] { TaggedMessage(Ack(cx)); }
      hasLabel := false;
    }

    /** A whole response: any replies and batch requests, then `lr_end`. */
    method Respond(ops: seq<Op>)
      requires View() == Start(cx)
      modifies this
      ensures lines == Response(cx, ops) && batch.None?
    {
      for k := 0 to |ops|
        invariant Run(cx, View(), ops[k..]) == Run(cx, Start(cx), ops)
      {
        assert ops[k..][1..] == ops[k + 1..];
        match ops[k]
        case Send(d) => TaggedMessage(d);
        case BatchBegin => LrBatchBegin();
      }
      ResponseIsExact(cx, ops);
      LrEnd();
    }
  }
}
